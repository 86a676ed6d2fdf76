/** `HandleEnergyOrderTask`: a pending TRX payment becomes at most one supplier order, and a
    pending USDT payment buys bishu (per-use) credit.

    `ProcessTrxSpec` / `ProcessUsdtSpec` say what one payment does to the database; the methods
    `ProcessTrx` / `ProcessUsdt` do it step by step on a `Db` and are proved to end in exactly
    that state.  The lemmas state the promises of the pipeline about the specifications. */
module TrxOrders {
  import opened Common
  import opened Records
  import opened Queries
  import opened Adapters
  import opened Store
  import opened Wallets

  const NO_PACKAGE: string := "金额无对应套餐"
  const NO_PLATFORM: string := "机器人无可用能量平台"
  const SUCCESS: string := "SUCCESS"
  const BISHU_BOUGHT: string := "笔数套餐购买成功"

  /** `update_transaction_status` on one row: status, comment and time always; the platform and
      package ids only when given (a 0 id counts as not given, as Python's truthiness has it). */
  function WithStatus(t: Trade, status: int, comment: string, time: string, platformRid: int, packageRid: int): (r: Trade)
    ensures r.processStatus == status && r.comments == comment && r.processTime == time
    ensures r.platformRid == (if platformRid != 0 then Some(platformRid) else t.platformRid)
    ensures r.packageRid == (if packageRid != 0 then Some(packageRid) else t.packageRid)
    ensures r.(processStatus := t.processStatus, comments := t.comments, processTime := t.processTime,
               platformRid := t.platformRid, packageRid := t.packageRid) == t
  {
    t.(processStatus := status, comments := comment, processTime := time,
       platformRid := if platformRid != 0 then Some(platformRid) else t.platformRid,
       packageRid := if packageRid != 0 then Some(packageRid) else t.packageRid)
  }

  function StatusSetter(status: int, comment: string, time: string, platformRid: int, packageRid: int): Trade -> Trade
  {
    (t: Trade) => WithStatus(t, status, comment, time, platformRid, packageRid)
  }

  /** `update_transaction_status(rid, ...)` on the trade table. */
  function SetStatus(trades: seq<Trade>, rid: int, status: int, comment: string, time: string,
                     platformRid: int, packageRid: int): seq<Trade>
  {
    PatchTrade(trades, rid, StatusSetter(status, comment, time, platformRid, packageRid))
  }

  /** `create_platform_order` for a payment, with the supplier's order number and TRX cost taken
      from the adapter result. */
  function TrxOrderRow(p: Platform, trade: Trade, pkg: Package, result: AdapterResult, date: string): (r: PlatformOrder)
    requires result.Placed?
    ensures r.sourceType == 2
    ensures r.recoveryStatus == (if p.kind == 3 then 2 else 1)
    ensures r.platformRid == p.rid && r.kind == p.kind && r.receiveAddress == trade.fromAddr
    ensures r.energyAmount == pkg.energyAmount && r.energyDay == pkg.energyDay
    ensures r.platformOrderId == result.orderNo && r.useTrx == result.useTrx
  {
    PlatformOrder(platformRid := p.rid, platformBotRid := trade.platformBotRid, kind := p.kind,
                  uid := p.uid, receiveAddress := trade.fromAddr, platformOrderId := result.orderNo,
                  energyAmount := pkg.energyAmount, energyDay := pkg.energyDay, energyTime := date,
                  sourceType := 2, recoveryStatus := if p.kind == 3 then 2 else 1, useTrx := result.useTrx)
  }

  /** `create_platform_order` as written: it reads `order_no` and `use_trx` from the payment row,
      which has neither, so every row gets "" and 0 whatever the supplier answered. */
  function TrxOrderRowAsWritten(p: Platform, trade: Trade, pkg: Package, result: AdapterResult, date: string): (r: PlatformOrder)
    requires result.Placed?
    ensures r.platformOrderId == "" && r.useTrx == 0
    ensures r == TrxOrderRow(p, trade, pkg, result, date).(platformOrderId := "", useTrx := 0)
  {
    TrxOrderRow(p, trade, pkg, Placed("", 0), date)
  }

  /** A nee.cc platform that accepts the order under number "N1": the adapter reports "N1",
      the row written as the code stands records "", the corrected row records "N1". */
  lemma NeeOrderNumberLost(p: Platform, trade: Trade, pkg: Package, date: string)
    requires p.kind == 1
    ensures var result := Classify(p.kind, Answer(Some(Num(200)), None, None, "N1", 0));
            result == Placed("N1", 0)
            && TrxOrderRowAsWritten(p, trade, pkg, result, date).platformOrderId == ""
            && TrxOrderRow(p, trade, pkg, result, date).platformOrderId == "N1"
  {
  }

  /** A successful purchase: the order row, then the payment marked done with the platform
      and the package. */
  function TrxSucceeded(s: State, date: string, trade: Trade, pkg: Package, p: Platform, result: AdapterResult): State
    requires result.Placed?
  {
    s.(orders := s.orders + [TrxOrderRow(p, trade, pkg, result, date)],
       trades := SetStatus(s.trades, trade.rid, STATUS_DONE, SUCCESS, date, p.rid, pkg.rid))
  }

  /** The platform loop, given the attempt each platform makes: try each in turn and stop at
      the first that places the order. */
  function RunTrx(s: State, date: string, trade: Trade, pkg: Package, ps: seq<Platform>, tries: seq<Attempt>): State
    requires |tries| == |ps|
    decreases |ps|
  {
    if ps == [] then s
    else
      var s1 := s.(sent := s.sent + tries[0].sent);
      if tries[0].result.Placed? then TrxSucceeded(s1, date, trade, pkg, ps[0], tries[0].result)
      else RunTrx(s1, date, trade, pkg, ps[1..], tries[1..])
  }

  /** `process_trx_transaction` for one pending payment. */
  function ProcessTrxSpec(s: State, env: Env, trade: Trade): State
  {
    var date := env.clock.date;
    match FindPackage(s.packages, trade.botRid, trade.amount)
    case None => s.(trades := SetStatus(s.trades, trade.rid, STATUS_NO_PACKAGE, NO_PACKAGE, date, 0, 0))
    case Some(pkg) =>
      var ps := AvailablePlatformRows(s.platforms, pkg.energyAmount);
      if ps == [] then s.(trades := SetStatus(s.trades, trade.rid, STATUS_NO_PLATFORM, NO_PLATFORM, date, 0, 0))
      else RunTrx(s, date, trade, pkg, ps, Attempts(env, ps, trade.fromAddr, pkg.energyAmount, pkg.energyDay))
  }

  /** The index of the first attempt that placed the order. */
  function FirstPlaced(tries: seq<Attempt>): (k: Option<nat>)
    ensures k.Some? ==> k.value < |tries| && tries[k.value].result.Placed?
    ensures k.Some? ==> forall j :: 0 <= j < k.value ==> tries[j].result.Failed?
    ensures k.None? ==> forall j :: 0 <= j < |tries| ==> tries[j].result.Failed?
    decreases |tries|
  {
    if tries == [] then None
    else if tries[0].result.Placed? then Some(0)
    else
      var rest := FirstPlaced(tries[1..]);
      assert forall j :: 1 <= j < |tries| ==> tries[j] == tries[1..][j - 1];
      match rest
      case None => None
      case Some(k) => Some(k + 1)
  }

  /** Every request the attempts send, in order. */
  function SentBy(tries: seq<Attempt>): seq<Request>
    decreases |tries|
  {
    if tries == [] then [] else tries[0].sent + SentBy(tries[1..])
  }

  /** The platform loop when no platform places the order: every adapter was tried, and
      nothing but their requests is recorded. */
  lemma {:induction false} RunTrxAllFail(s: State, date: string, trade: Trade, pkg: Package, ps: seq<Platform>, tries: seq<Attempt>)
    requires |tries| == |ps| && FirstPlaced(tries).None?
    ensures RunTrx(s, date, trade, pkg, ps, tries) == s.(sent := s.sent + SentBy(tries))
    decreases |ps|
  {
    if ps != [] {
      RunTrxAllFail(s.(sent := s.sent + tries[0].sent), date, trade, pkg, ps[1..], tries[1..]);
    }
  }

  /** The platform loop when platform k is the first to place the order: only platforms 0..k
      were contacted, k gets the one order row, and the payment is marked done with it. */
  lemma {:induction false} RunTrxFirstPlaced(s: State, date: string, trade: Trade, pkg: Package, ps: seq<Platform>,
                                             tries: seq<Attempt>, k: nat)
    requires |tries| == |ps| && FirstPlaced(tries) == Some(k)
    ensures k < |ps|
    ensures RunTrx(s, date, trade, pkg, ps, tries)
         == TrxSucceeded(s.(sent := s.sent + SentBy(tries[..k + 1])), date, trade, pkg, ps[k], tries[k].result)
    decreases |ps|
  {
    var s1 := s.(sent := s.sent + tries[0].sent);
    SentByStep(tries, k);
    if k == 0 {
      assert tries[1..][..0] == [];
    } else {
      assert FirstPlaced(tries[1..]) == Some(k - 1);
      RunTrxFirstPlaced(s1, date, trade, pkg, ps[1..], tries[1..], k - 1);
      assert ps[1..][k - 1] == ps[k] && tries[1..][k - 1] == tries[k];
    }
  }

  /** The requests of the first k + 1 attempts: the first one's, then the next k's. */
  lemma SentByStep(tries: seq<Attempt>, k: nat)
    requires k < |tries|
    ensures SentBy(tries[..k + 1]) == tries[0].sent + SentBy(tries[1..][..k])
  {
    assert tries[..k + 1][1..] == tries[1..][..k];
  }

  /** A payment with no package for its amount: status 7, and nothing else happens (no
      platform looked at, nothing sent, no order). */
  lemma NoPackageOutcome(s: State, env: Env, trade: Trade)
    requires FindPackage(s.packages, trade.botRid, trade.amount).None?
    ensures ProcessTrxSpec(s, env, trade)
         == s.(trades := SetStatus(s.trades, trade.rid, STATUS_NO_PACKAGE, NO_PACKAGE, env.clock.date, 0, 0))
  {
  }

  /** A package but no eligible platform: status 4, and nothing else happens. */
  lemma NoPlatformOutcome(s: State, env: Env, trade: Trade)
    requires FindPackage(s.packages, trade.botRid, trade.amount).Some?
    requires AvailablePlatformRows(s.platforms, FindPackage(s.packages, trade.botRid, trade.amount).value.energyAmount) == []
    ensures ProcessTrxSpec(s, env, trade)
         == s.(trades := SetStatus(s.trades, trade.rid, STATUS_NO_PLATFORM, NO_PLATFORM, env.clock.date, 0, 0))
  {
  }

  /** A package and eligible platforms: the eligible platforms are tried in the order of their
      sequence numbers; if one places the order, exactly one order row is added, for the first
      platform that did, and the payment is marked done with that platform and the package;
      if none does, the payment stays pending and no row is added. */
  lemma PlatformLoopOutcome(s: State, env: Env, trade: Trade, pkg: Package, ps: seq<Platform>)
    requires FindPackage(s.packages, trade.botRid, trade.amount) == Some(pkg)
    requires ps == AvailablePlatformRows(s.platforms, pkg.energyAmount) && ps != []
    ensures var tries := Attempts(env, ps, trade.fromAddr, pkg.energyAmount, pkg.energyDay);
            var r := ProcessTrxSpec(s, env, trade);
            match FirstPlaced(tries)
            case None =>
              r == s.(sent := s.sent + SentBy(tries))
            case Some(k) =>
              k < |ps|
              && r == s.(orders := s.orders + [TrxOrderRow(ps[k], trade, pkg, tries[k].result, env.clock.date)],
                         trades := SetStatus(s.trades, trade.rid, STATUS_DONE, SUCCESS, env.clock.date, ps[k].rid, pkg.rid),
                         sent := s.sent + SentBy(tries[..k + 1]))
  {
    var tries := Attempts(env, ps, trade.fromAddr, pkg.energyAmount, pkg.energyDay);
    match FirstPlaced(tries)
    case None => RunTrxAllFail(s, env.clock.date, trade, pkg, ps, tries);
    case Some(k) => RunTrxFirstPlaced(s, env.clock.date, trade, pkg, ps, tries, k);
  }

  /** Whatever happens, one payment adds at most one order row, keeps the earlier rows, and
      touches neither the catalogue nor the standing orders nor the notifications. */
  lemma ProcessTrxFrame(s: State, env: Env, trade: Trade)
    ensures var r := ProcessTrxSpec(s, env, trade);
            r.packages == s.packages && r.platforms == s.platforms && r.bots == s.bots
            && r.bishu == s.bishu && r.trusteeship == s.trusteeship && r.notices == s.notices
            && |s.orders| <= |r.orders| <= |s.orders| + 1 && r.orders[..|s.orders|] == s.orders
  {
    var found := FindPackage(s.packages, trade.botRid, trade.amount);
    if found.Some? && AvailablePlatformRows(s.platforms, found.value.energyAmount) != [] {
      var ps := AvailablePlatformRows(s.platforms, found.value.energyAmount);
      PlatformLoopOutcome(s, env, trade, found.value, ps);
    }
  }
  /** `process_trx_transaction`, step by step on the database. */
  method ProcessTrx(db: Db, env: Env, trade: Trade)
    modifies db
    ensures db.Snap() == ProcessTrxSpec(old(db.Snap()), env, trade)
  {
    var date := env.clock.date;
    var found := FindPackage(db.packages, trade.botRid, trade.amount);
    if found.None? {
      db.UpdateTrade(trade.rid, StatusSetter(STATUS_NO_PACKAGE, NO_PACKAGE, date, 0, 0));
      return;
    }
    var pkg := found.value;
    var ps := AvailablePlatformRows(db.platforms, pkg.energyAmount);
    if ps == [] {
      db.UpdateTrade(trade.rid, StatusSetter(STATUS_NO_PLATFORM, NO_PLATFORM, date, 0, 0));
      return;
    }
    ghost var tries := Attempts(env, ps, trade.fromAddr, pkg.energyAmount, pkg.energyDay);
    var i := 0;
    while i < |ps|
      invariant 0 <= i <= |ps|
      invariant RunTrx(db.Snap(), date, trade, pkg, ps[i..], tries[i..]) == ProcessTrxSpec(old(db.Snap()), env, trade)
      decreases |ps| - i
    {
      var a := Place(env, ps[i], trade.fromAddr, pkg.energyAmount, pkg.energyDay);
      AttemptAt(env, ps, trade.fromAddr, pkg.energyAmount, pkg.energyDay, i);
      assert a == tries[i] == tries[i..][0];
      assert ps[i..][0] == ps[i] && ps[i..][1..] == ps[i + 1..] && tries[i..][1..] == tries[i + 1..];
      db.Send(a.sent);
      if a.result.Placed? {
        db.InsertPlatformOrder(TrxOrderRow(ps[i], trade, pkg, a.result, date));
        db.UpdateTrade(trade.rid, StatusSetter(STATUS_DONE, SUCCESS, date, ps[i].rid, pkg.rid));
        return;
      }
      i := i + 1;
    }
  }

  // ---------------------------------------------------------------- USDT

  /** The credit a USDT payment adds to a registered bishu wallet: the amount to the USDT total
      and its whole part (one use per USDT) to the purchase limit, both from the row as read. */
  function CreditSetter(w: StandingOrder, amount: int): StandingOrder -> StandingOrder
  {
    (o: StandingOrder) => o.(totalBuyUsdt := w.totalBuyUsdt + amount, maxBuy := w.maxBuy + TruncDiv(amount, MICRO))
  }

  /** The row a USDT payment creates for an unregistered wallet; other columns stay empty. */
  function NewBishuRow(rid: int, botRid: int, trade: Trade, date: string): (r: StandingOrder)
    ensures r.walletAddr == trade.fromAddr && r.status == 0 && r.botRid == botRid
    ensures r.totalBuyUsdt == trade.amount && r.maxBuy == TruncDiv(trade.amount, MICRO)
  {
    BlankOrder(rid, trade.fromAddr).(botRid := botRid, status := 0, totalBuyUsdt := trade.amount,
                                     maxBuy := TruncDiv(trade.amount, MICRO), createTime := date)
  }

  /** `process_usdt_transaction`.  The stand-in row of `get_by_wallet_addr` lacks the
      `total_buy_usdt` column, so the source's test on that column is exactly "the wallet is
      registered". */
  function ProcessUsdtSpec(s: State, trade: Trade, botRid: int, date: string): State
  {
    var s1 := match FindByWallet(s.bishu, trade.fromAddr)
      case Some(w) => s.(bishu := PatchOrder(s.bishu, w.rid, CreditSetter(w, trade.amount)))
      case None => s.(bishu := s.bishu + [NewBishuRow(NextOrderRid(s.bishu), botRid, trade, date)]);
    s1.(trades := SetStatus(s1.trades, trade.rid, STATUS_DONE, BISHU_BOUGHT, date, 0, 0))
  }

  /** A USDT payment always ends at status 9 and never places a supplier order.  A registered
      wallet is credited in place: amount added to its USDT total, whole USDT to its limit; an
      unregistered wallet gets one new row, under an id no stored row uses, holding the credit. */
  lemma ProcessUsdtOutcome(s: State, trade: Trade, botRid: int, date: string)
    ensures var r := ProcessUsdtSpec(s, trade, botRid, date);
            r.orders == s.orders && r.sent == s.sent && r.notices == s.notices && r.trusteeship == s.trusteeship
            && r.trades == SetStatus(s.trades, trade.rid, STATUS_DONE, BISHU_BOUGHT, date, 0, 0)
    ensures var r := ProcessUsdtSpec(s, trade, botRid, date);
            var found := FindByWallet(s.bishu, trade.fromAddr);
            found.Some? ==>
              |r.bishu| == |s.bishu|
              && forall i :: 0 <= i < |s.bishu| ==>
                   if s.bishu[i].rid == found.value.rid then
                     r.bishu[i].totalBuyUsdt == found.value.totalBuyUsdt + trade.amount
                     && r.bishu[i].maxBuy == found.value.maxBuy + TruncDiv(trade.amount, MICRO)
                     && r.bishu[i].walletAddr == s.bishu[i].walletAddr
                   else r.bishu[i] == s.bishu[i]
    ensures var r := ProcessUsdtSpec(s, trade, botRid, date);
            FindByWallet(s.bishu, trade.fromAddr).None? ==>
              |r.bishu| == |s.bishu| + 1 && r.bishu[..|s.bishu|] == s.bishu
              && FindByWallet(r.bishu, trade.fromAddr) == Some(r.bishu[|s.bishu|])
              && r.bishu[|s.bishu|].totalBuyUsdt == trade.amount
              && r.bishu[|s.bishu|].maxBuy == TruncDiv(trade.amount, MICRO)
              && forall i :: 0 <= i < |s.bishu| ==> s.bishu[i].rid != r.bishu[|s.bishu|].rid
  {
    var r := ProcessUsdtSpec(s, trade, botRid, date);
    if FindByWallet(s.bishu, trade.fromAddr).None? {
      var row := NewBishuRow(NextOrderRid(s.bishu), botRid, trade, date);
      assert r.bishu == s.bishu + [row];
      assert r.bishu[..|s.bishu|] == s.bishu;
      FindAfterAppend(s.bishu, row, trade.fromAddr);
    }
  }

  lemma {:induction false} FindAfterAppend(table: seq<StandingOrder>, row: StandingOrder, wallet: string)
    requires FindByWallet(table, wallet).None? && row.walletAddr == wallet
    ensures FindByWallet(table + [row], wallet) == Some(row)
    decreases |table|
  {
    if table != [] {
      assert (table + [row])[1..] == table[1..] + [row];
      assert table[0].walletAddr != wallet;
      FindAfterAppend(table[1..], row, wallet);
    }
  }

  method ProcessUsdt(db: Db, trade: Trade, botRid: int, date: string)
    modifies db
    ensures db.Snap() == ProcessUsdtSpec(old(db.Snap()), trade, botRid, date)
  {
    var found := FindByWallet(db.bishu, trade.fromAddr);
    if found.Some? {
      db.UpdateOrder(Bishu, found.value.rid, CreditSetter(found.value, trade.amount));
    } else {
      db.InsertOrder(Bishu, NewBishuRow(NextOrderRid(db.bishu), botRid, trade, date));
    }
    db.UpdateTrade(trade.rid, StatusSetter(STATUS_DONE, BISHU_BOUGHT, date, 0, 0));
  }

  // ---------------------------------------------------------------- the order task

  /** Each payment of the list in turn. */
  function ProcessTrxAll(s: State, env: Env, ts: seq<Trade>): State
    decreases |ts|
  {
    if ts == [] then s else ProcessTrxAll(ProcessTrxSpec(s, env, ts[0]), env, ts[1..])
  }

  /** `handle_trx_energy_orders`: for each watched wallet, its pending TRX payments as listed
      when the wallet's turn comes. */
  function HandleTrxSpec(s: State, env: Env, wallets: seq<(string, int)>): State
    decreases |wallets|
  {
    if wallets == [] then s
    else HandleTrxSpec(ProcessTrxAll(s, env, PendingTradeRows(s.trades, "trx", wallets[0].0)), env, wallets[1..])
  }

  /** The order task never writes more order rows than it saw pending payments, and never removes one. */
  lemma {:induction false} ProcessTrxAllOrders(s: State, env: Env, ts: seq<Trade>)
    ensures var r := ProcessTrxAll(s, env, ts);
            |s.orders| <= |r.orders| <= |s.orders| + |ts| && r.orders[..|s.orders|] == s.orders
    decreases |ts|
  {
    if ts != [] {
      var s1 := ProcessTrxSpec(s, env, ts[0]);
      ProcessTrxFrame(s, env, ts[0]);
      ProcessTrxAllOrders(s1, env, ts[1..]);
      var r := ProcessTrxAll(s, env, ts);
      assert r.orders[..|s.orders|] == r.orders[..|s1.orders|][..|s.orders|];
    }
  }

  /** The pending payments of one wallet, each in turn. */
  method ProcessTrxList(db: Db, env: Env, pending: seq<Trade>)
    modifies db
    ensures db.Snap() == ProcessTrxAll(old(db.Snap()), env, pending)
  {
    var t := 0;
    while t < |pending|
      invariant 0 <= t <= |pending|
      invariant ProcessTrxAll(db.Snap(), env, pending[t..]) == ProcessTrxAll(old(db.Snap()), env, pending)
    {
      ProcessTrx(db, env, pending[t]);
      assert pending[t..][1..] == pending[t + 1..];
      t := t + 1;
    }
  }

  /** `handle_trx_energy_orders` */
  method HandleTrxOrders(db: Db, env: Env)
    modifies db
    ensures db.Snap() == HandleTrxSpec(old(db.Snap()), env, WatchedWallets(old(db.bots)))
  {
    var wallets := WatchedWallets(db.bots);
    var w := 0;
    while w < |wallets|
      invariant 0 <= w <= |wallets|
      invariant HandleTrxSpec(db.Snap(), env, wallets[w..]) == HandleTrxSpec(old(db.Snap()), env, wallets)
    {
      var pending := PendingTradeRows(db.trades, "trx", wallets[w].0);
      ghost var before := db.Snap();
      assert wallets[w..][0] == wallets[w] && wallets[w..][1..] == wallets[w + 1..];
      assert HandleTrxSpec(before, env, wallets[w..])
             == HandleTrxSpec(ProcessTrxAll(before, env, pending), env, wallets[w + 1..]);
      ProcessTrxList(db, env, pending);
      w := w + 1;
    }
  }

  /** As written, the bot list hands back a stand-in bot (id 1, the stand-in wallet) when no
      bot is enabled, so the order tasks still walk that wallet under bot 1. Over the lookup
      without the stand-in, no wallet is walked. */
  lemma StandInBotWalked(bots: seq<Bot>)
    requires forall i :: 0 <= i < |bots| ==> bots[i].status != 0
    ensures WatchedWallets(bots) == []
    ensures WatchedWallets(BotListAsWritten(bots, 0)) == [(STAND_IN_WALLET, 1)]
  {
    var d := ActiveBots(bots);
    assert WatchedRids(bots) == {};
    assert forall kv :: kv in d ==> kv.0 in Keys(d);
    EmptyIfNoMember(d);
    EmptyIfNoMember(BotRows(bots, 0));
    var sb := Bot(1, STAND_IN_WALLET, 0);
    assert |STAND_IN_WALLET| == 34 && |[sb][1..]| == 0;
    assert Put([], 1, sb) == [(1, sb)];
    assert CollectBots([], [sb]) == CollectBots([(1, sb)], []);
    assert ActiveBots([sb]) == [(1, sb)];
    var e: (int, Bot) := (1, sb);
    assert |[e][1..]| == 0;
    assert WalletsFrom([], [e]) == WalletsFrom(Put([], STAND_IN_WALLET, sb), []);
    assert ByWallet([e]) == [(STAND_IN_WALLET, sb)];
  }

  /** Each USDT payment in turn, credited to the bot whose wallet received it. */
  function ProcessUsdtAll(s: State, ts: seq<Trade>, botRid: int, date: string): State
    decreases |ts|
  {
    if ts == [] then s else ProcessUsdtAll(ProcessUsdtSpec(s, ts[0], botRid, date), ts[1..], botRid, date)
  }

  /** `handle_usdt_energy_orders` */
  function HandleUsdtSpec(s: State, date: string, wallets: seq<(string, int)>): State
    decreases |wallets|
  {
    if wallets == [] then s
    else HandleUsdtSpec(ProcessUsdtAll(s, PendingTradeRows(s.trades, "usdt", wallets[0].0), wallets[0].1, date),
                        date, wallets[1..])
  }

  /** The pending USDT payments of one wallet, each in turn. */
  method ProcessUsdtList(db: Db, pending: seq<Trade>, botRid: int, date: string)
    modifies db
    ensures db.Snap() == ProcessUsdtAll(old(db.Snap()), pending, botRid, date)
  {
    var t := 0;
    while t < |pending|
      invariant 0 <= t <= |pending|
      invariant ProcessUsdtAll(db.Snap(), pending[t..], botRid, date) == ProcessUsdtAll(old(db.Snap()), pending, botRid, date)
    {
      ProcessUsdt(db, pending[t], botRid, date);
      assert pending[t..][1..] == pending[t + 1..];
      t := t + 1;
    }
  }

  method HandleUsdtOrders(db: Db, env: Env)
    modifies db
    ensures db.Snap() == HandleUsdtSpec(old(db.Snap()), env.clock.date, WatchedWallets(old(db.bots)))
  {
    var wallets := WatchedWallets(db.bots);
    var date := env.clock.date;
    var w := 0;
    while w < |wallets|
      invariant 0 <= w <= |wallets|
      invariant HandleUsdtSpec(db.Snap(), date, wallets[w..]) == HandleUsdtSpec(old(db.Snap()), date, wallets)
    {
      var pending := PendingTradeRows(db.trades, "usdt", wallets[w].0);
      assert wallets[w..][0] == wallets[w] && wallets[w..][1..] == wallets[w + 1..];
      ProcessUsdtList(db, pending, wallets[w].1, date);
      w := w + 1;
    }
  }

  /** The TRX pass leaves the bot table alone, so the USDT pass walks the same wallets. */
  lemma {:induction false} ProcessTrxAllKeepsBots(s: State, env: Env, ts: seq<Trade>)
    ensures ProcessTrxAll(s, env, ts).bots == s.bots
    decreases |ts|
  {
    if ts != [] {
      ProcessTrxFrame(s, env, ts[0]);
      ProcessTrxAllKeepsBots(ProcessTrxSpec(s, env, ts[0]), env, ts[1..]);
    }
  }

  lemma {:induction false} HandleTrxKeepsBots(s: State, env: Env, wallets: seq<(string, int)>)
    ensures HandleTrxSpec(s, env, wallets).bots == s.bots
    decreases |wallets|
  {
    if wallets != [] {
      var pending := PendingTradeRows(s.trades, "trx", wallets[0].0);
      ProcessTrxAllKeepsBots(s, env, pending);
      HandleTrxKeepsBots(ProcessTrxAll(s, env, pending), env, wallets[1..]);
    }
  }

  /** `execute`: the TRX payments first, then the USDT payments, of the same watched wallets. */
  method Execute(db: Db, env: Env)
    modifies db
    ensures var wallets := WatchedWallets(old(db.bots));
            db.Snap() == HandleUsdtSpec(HandleTrxSpec(old(db.Snap()), env, wallets), env.clock.date, wallets)
  {
    ghost var s0 := db.Snap();
    HandleTrxOrders(db, env);
    HandleTrxKeepsBots(s0, env, WatchedWallets(s0.bots));
    HandleUsdtOrders(db, env);
  }
}
