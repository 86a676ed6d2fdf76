/** The lookups of the table models: each SQL `WHERE` is a predicate on a row, each
    `ORDER BY` a sort, and a query is a filter over the table in storage order.

    Most lookups do not return "nothing" when the query is empty: they hand back a fixed
    stand-in row instead.  Each of those is modelled twice: `...Rows` / `Find...` is the
    query itself (what the callers evidently rely on), and `...AsWritten` adds the stand-in. */
module Queries {
  import opened Common
  import opened Records

  /** The wallet every stand-in row carries. */
  const STAND_IN_WALLET: string := "TR7NHqjeKQxGTCi8q8ZY4pL8otSzgjLj6t"

  // ---------------------------------------------------------------- platforms

  /** An enabled platform whose balance covers the amount. */
  predicate PlatformEligible(p: Platform, energyAmount: int)
  {
    p.status == 0 && p.balance >= energyAmount
  }

  /** Ascending by `seq_sn`, the order the platform lookup returns. */
  predicate SortedBySeq(ps: seq<Platform>)
  {
    forall i, j :: 0 <= i < j < |ps| ==> ps[i].seqSn <= ps[j].seqSn
  }

  /** Places `p` after every platform whose `seq_sn` is not larger (ties keep table order). */
  function InsertBySeq(p: Platform, sorted: seq<Platform>): (r: seq<Platform>)
    ensures multiset(r) == multiset(sorted) + multiset{p}
    ensures |r| == |sorted| + 1
    decreases |sorted|
  {
    if sorted == [] then [p]
    else if p.seqSn < sorted[0].seqSn then [p] + sorted
    else
      assert sorted == [sorted[0]] + sorted[1..];
      [sorted[0]] + InsertBySeq(p, sorted[1..])
  }

  /** Inserting into a sorted list keeps it sorted. */
  lemma {:induction false} InsertBySeqSorted(p: Platform, sorted: seq<Platform>)
    requires SortedBySeq(sorted)
    ensures SortedBySeq(InsertBySeq(p, sorted))
    decreases |sorted|
  {
    if sorted == [] {
    } else if p.seqSn < sorted[0].seqSn {
      SortedCons(p, sorted);
    } else {
      var rest := InsertBySeq(p, sorted[1..]);
      InsertBySeqSorted(p, sorted[1..]);
      forall x | x in rest ensures sorted[0].seqSn <= x.seqSn {
        assert x in multiset(rest);
        assert x == p || x in multiset(sorted[1..]);
      }
      SortedCons(sorted[0], rest);
    }
  }

  lemma SortedCons(x: Platform, s: seq<Platform>)
    requires SortedBySeq(s)
    requires forall y :: y in s ==> x.seqSn <= y.seqSn
    ensures SortedBySeq([x] + s)
  {
    var r := [x] + s;
    forall i, j | 0 <= i < j < |r| ensures r[i].seqSn <= r[j].seqSn {
      assert r[j] == s[j - 1];
      if i > 0 { assert r[i] == s[i - 1]; }
    }
  }

  function SortBySeq(ps: seq<Platform>): (r: seq<Platform>)
    ensures SortedBySeq(r)
    ensures multiset(r) == multiset(ps)
    decreases |ps|
  {
    if ps == [] then []
    else
      assert ps == ps[..|ps| - 1] + [ps[|ps| - 1]];
      InsertBySeqSorted(ps[|ps| - 1], SortBySeq(ps[..|ps| - 1]));
      InsertBySeq(ps[|ps| - 1], SortBySeq(ps[..|ps| - 1]))
  }

  /** `get_available_platforms` without the stand-in: the eligible platforms, each exactly
      as often as it is stored, by ascending `seq_sn`.  The poll group is not consulted. */
  function AvailablePlatformRows(table: seq<Platform>, energyAmount: int): (r: seq<Platform>)
    ensures SortedBySeq(r)
    ensures multiset(r) == multiset(Filter(table, p => PlatformEligible(p, energyAmount)))
    ensures forall p :: p in r <==> p in table && PlatformEligible(p, energyAmount)
    ensures r == [] <==> forall p :: p in table ==> !PlatformEligible(p, energyAmount)
  {
    var eligible := Filter(table, p => PlatformEligible(p, energyAmount));
    var r := SortBySeq(eligible);
    assert forall p :: p in r <==> p in multiset(r);
    assert forall p :: p in eligible <==> p in multiset(eligible);
    r
  }

  /** The stand-in platform: a nee.cc account with a placeholder key. */
  function StandInPlatform(): Platform
  {
    Platform(rid := 1, kind := 1, uid := "123456789", apiKey := "encrypted_key",
             balance := 1000000, status := 0, seqSn := 1, permissionId := 0)
  }

  /** `get_available_platforms` as written: never empty. */
  function AvailablePlatformsAsWritten(table: seq<Platform>, energyAmount: int): (r: seq<Platform>)
    ensures r != []
    ensures AvailablePlatformRows(table, energyAmount) != [] ==> r == AvailablePlatformRows(table, energyAmount)
    ensures AvailablePlatformRows(table, energyAmount) == [] ==> r == [StandInPlatform()]
  {
    var rows := AvailablePlatformRows(table, energyAmount);
    if rows != [] then rows else [StandInPlatform()]
  }

  /** With no platform stored at all, the lookup still offers a platform, so a caller's
      "no platform available" branch can never be taken. */
  lemma StandInPlatformOffered(energyAmount: int)
    ensures AvailablePlatformRows([], energyAmount) == []
    ensures AvailablePlatformsAsWritten([], energyAmount) == [StandInPlatform()]
  {
  }

  // ---------------------------------------------------------------- packages

  /** An enabled package of the bot priced at exactly the amount paid. */
  predicate PackageMatches(k: Package, botRid: int, trxPrice: int)
  {
    k.botRid == botRid && k.trxPrice == trxPrice && k.status == 0
  }

  /** `get_by_trx_price` without the stand-in: the first matching package, or nothing. */
  function FindPackage(table: seq<Package>, botRid: int, trxPrice: int): (r: Option<Package>)
    ensures r.None? <==> forall i :: 0 <= i < |table| ==> !PackageMatches(table[i], botRid, trxPrice)
    ensures r.Some? ==> exists i :: 0 <= i < |table| && table[i] == r.value
                          && PackageMatches(table[i], botRid, trxPrice)
                          && forall j :: 0 <= j < i ==> !PackageMatches(table[j], botRid, trxPrice)
    decreases |table|
  {
    if table == [] then None
    else if PackageMatches(table[0], botRid, trxPrice) then Some(table[0])
    else
      var r := FindPackage(table[1..], botRid, trxPrice);
      assert forall i :: 1 <= i < |table| ==> table[i] == table[1..][i - 1];
      r
  }

  /** The stand-in package: 50000 energy for one day.  It has no bot, price or status. */
  function StandInPackage(): Package
  {
    Package(rid := 1, botRid := 0, trxPrice := 0, status := 0,
            energyAmount := 50000, energyDay := 1, name := "50000能量1天")
  }

  /** `get_by_trx_price` as written: any amount finds a package. */
  function PackageByTrxPriceAsWritten(table: seq<Package>, botRid: int, trxPrice: int): (r: Package)
    ensures FindPackage(table, botRid, trxPrice).Some? ==> r == FindPackage(table, botRid, trxPrice).value
    ensures FindPackage(table, botRid, trxPrice).None? ==> r == StandInPackage()
  {
    match FindPackage(table, botRid, trxPrice)
    case Some(k) => k
    case None => StandInPackage()
  }

  /** A payment that matches no package still gets a package: with an empty package table a
      payment of 1 TRX is sold 50000 energy. */
  lemma StandInPackageSold()
    ensures FindPackage([], 1, MICRO).None?
    ensures PackageByTrxPriceAsWritten([], 1, MICRO).energyAmount == 50000
  {
  }

  // ---------------------------------------------------------------- trades

  /** The transaction hashes stored in the trade table. */
  function StoredHashes(trades: seq<Trade>): set<string>
  {
    set t | t in trades :: t.txHash
  }

  /** `get_by_tx_hash`: the stored hashes among `hashes` (one entry per stored row, in
      storage order); nothing for an empty list. */
  function ExistingHashes(trades: seq<Trade>, hashes: seq<string>): (r: seq<string>)
    ensures hashes == [] ==> r == []
    ensures |r| <= |trades|
    decreases |trades|
  {
    if hashes == [] || trades == [] then []
    else
      var rest := ExistingHashes(trades[1..], hashes);
      if trades[0].txHash in hashes then [trades[0].txHash] + rest else rest
  }

  /** A hash is among those `get_by_tx_hash` returns exactly when it was asked about and is
      stored. */
  lemma {:induction false} ExistingHashesMembers(trades: seq<Trade>, hashes: seq<string>)
    ensures forall h :: h in ExistingHashes(trades, hashes) <==> h in hashes && h in StoredHashes(trades)
    decreases |trades|
  {
    if hashes != [] && trades != [] {
      ExistingHashesMembers(trades[1..], hashes);
      assert StoredHashes(trades) == {trades[0].txHash} + StoredHashes(trades[1..]) by {
        assert forall t :: t in trades <==> t == trades[0] || t in trades[1..];
      }
    }
  }

  /** `get_pending_transactions(coin_name, wallet_addr)`: pending rows, narrowed by coin and by
      receiving wallet only when those arguments are given (non-empty). */
  predicate PendingMatch(t: Trade, coin: string, wallet: string)
  {
    t.processStatus == STATUS_PENDING
    && (coin == [] || t.coin == coin)
    && (wallet == [] || t.toAddr == wallet)
  }

  function PendingTradeRows(trades: seq<Trade>, coin: string, wallet: string): (r: seq<Trade>)
    ensures forall t :: t in r <==> t in trades && PendingMatch(t, coin, wallet)
    ensures forall t :: t in r ==> t.processStatus == STATUS_PENDING
    ensures |r| <= |trades|
  {
    Filter(trades, t => PendingMatch(t, coin, wallet))
  }

  /** The stand-in pending trade: 10.5 TRX with hash "hash123", stamped with the clock. */
  function StandInTrade(coin: string, wallet: string, millis: int): Trade
  {
    var addr := if wallet != [] then wallet else STAND_IN_WALLET;
    Trade(rid := 1, txHash := "hash123", fromAddr := addr, toAddr := addr,
          coin := if coin != [] then coin else "trx", amount := 10_500_000, timestamp := millis,
          getTime := "", processStatus := STATUS_PENDING, comments := "", processTime := "",
          platformRid := None, packageRid := None, botRid := 1, pollGroup := "group1",
          platformBotRid := 1, noticeReceive := "", noticeSend := "")
  }

  /** `get_pending_transactions` as written: never empty. */
  function PendingTransactionsAsWritten(trades: seq<Trade>, coin: string, wallet: string, millis: int): (r: seq<Trade>)
    ensures r != []
    ensures PendingTradeRows(trades, coin, wallet) != [] ==> r == PendingTradeRows(trades, coin, wallet)
    ensures PendingTradeRows(trades, coin, wallet) == [] ==> r == [StandInTrade(coin, wallet, millis)]
  {
    var rows := PendingTradeRows(trades, coin, wallet);
    if rows != [] then rows else [StandInTrade(coin, wallet, millis)]
  }

  /** With nothing pending, the order task is handed trade 1 as if it were a fresh
      10.5 TRX payment from the receiving wallet itself. */
  lemma StandInTradeProcessed(wallet: string, millis: int)
    requires wallet != []
    ensures PendingTradeRows([], "trx", wallet) == []
    ensures PendingTransactionsAsWritten([], "trx", wallet, millis)[0].rid == 1
    ensures PendingTransactionsAsWritten([], "trx", wallet, millis)[0].fromAddr == wallet
  {
  }

  /** `get_tg_notifications`: done trades, narrowed by the notice flag of the given type. */
  predicate NoticeMatch(t: Trade, notifyType: string)
  {
    t.processStatus == STATUS_DONE
    && (if notifyType == "self_order" then t.noticeReceive == "N"
        else if notifyType == "trusteeship" then t.noticeSend == "N"
        else true)
  }

  function NotificationRows(trades: seq<Trade>, notifyType: string): (r: seq<Trade>)
    ensures forall t :: t in r <==> t in trades && NoticeMatch(t, notifyType)
    ensures forall t :: t in r ==> t.processStatus == STATUS_DONE
  {
    Filter(trades, t => NoticeMatch(t, notifyType))
  }

  /** The stand-in notification row. */
  function StandInNotice(): Trade
  {
    Trade(rid := 1, txHash := "hash123", fromAddr := STAND_IN_WALLET, toAddr := "",
          coin := "trx", amount := 10_500_000, timestamp := 0, getTime := "",
          processStatus := STATUS_DONE, comments := "", processTime := "",
          platformRid := None, packageRid := None, botRid := 0, pollGroup := "",
          platformBotRid := 1, noticeReceive := "N", noticeSend := "N")
  }

  function NotificationsAsWritten(trades: seq<Trade>, notifyType: string): (r: seq<Trade>)
    ensures r != []
    ensures NotificationRows(trades, notifyType) != [] ==> r == NotificationRows(trades, notifyType)
    ensures NotificationRows(trades, notifyType) == [] ==> r == [StandInNotice()]
  {
    var rows := NotificationRows(trades, notifyType);
    if rows != [] then rows else [StandInNotice()]
  }

  // ---------------------------------------------------------------- standing orders

  /** `get_pending_orders`: orders that asked for energy ('Y'); a bishu order must also still
      be below its per-use amount. */
  predicate PendingOrderMatch(kind: OrderKind, o: StandingOrder)
  {
    o.status == 0 && o.isBuy == "Y" && (kind == Trusteeship || o.currentEnergy < o.perBishu)
  }

  function PendingOrderRows(kind: OrderKind, table: seq<StandingOrder>): (r: seq<StandingOrder>)
    ensures forall o :: o in r <==> o in table && PendingOrderMatch(kind, o)
    ensures forall o :: o in r ==> o.isBuy == "Y"
  {
    Filter(table, o => PendingOrderMatch(kind, o))
  }

  /** `get_list_for_resource_check`: enabled orders that are idle ('N'). */
  predicate ResourceCheckMatch(o: StandingOrder)
  {
    o.status == 0 && o.isOpen == "Y" && o.isBuy == "N"
  }

  function ResourceCheckRows(table: seq<StandingOrder>): (r: seq<StandingOrder>)
    ensures forall o :: o in r <==> o in table && ResourceCheckMatch(o)
    ensures forall o :: o in r ==> o.isBuy == "N"
  {
    Filter(table, ResourceCheckMatch)
  }

  /** A row of a standing-order table with every column at its empty value. */
  function BlankOrder(rid: int, walletAddr: string): StandingOrder
  {
    StandingOrder(rid := rid, botRid := 0, walletAddr := walletAddr, status := 0, isOpen := "",
                  isBuy := "", isNotice := "", comments := "", maxBuy := 0, totalBuy := 0,
                  totalBuyEnergy := 0, totalBuyUsdt := 0, currentEnergy := 0, currentBandwidth := 0,
                  perBuy := 0, perBishu := 0, minEnergy := 0, energyDay := None, platformBotRid := 0,
                  pollGroup := "", lastBuyTime := "", createTime := "", tgUid := "")
  }

  /** The stand-in pending order of each table. */
  function StandInPendingOrder(kind: OrderKind): StandingOrder
  {
    match kind
    case Trusteeship =>
      BlankOrder(1, STAND_IN_WALLET).(tgUid := "1234567890", perBuy := 50000, energyDay := Some(1),
        isBuy := "Y", botRid := 1, maxBuy := 100, isOpen := "Y", pollGroup := "group1", platformBotRid := 1)
    case Bishu =>
      BlankOrder(1, STAND_IN_WALLET).(perBishu := 50000, currentEnergy := 10000, isBuy := "Y",
        botRid := 1, maxBuy := 100, pollGroup := "group1", platformBotRid := 1)
  }

  function PendingOrdersAsWritten(kind: OrderKind, table: seq<StandingOrder>): (r: seq<StandingOrder>)
    ensures r != []
    ensures PendingOrderRows(kind, table) != [] ==> r == PendingOrderRows(kind, table)
    ensures PendingOrderRows(kind, table) == [] ==> r == [StandInPendingOrder(kind)]
  {
    var rows := PendingOrderRows(kind, table);
    if rows != [] then rows else [StandInPendingOrder(kind)]
  }

  /** The stand-in row of each resource-check list. */
  function StandInCheckOrder(kind: OrderKind): StandingOrder
  {
    match kind
    case Trusteeship =>
      BlankOrder(1, STAND_IN_WALLET).(minEnergy := 50000, isBuy := "N", botRid := 1, isOpen := "Y",
        perBuy := 50000, tgUid := "1234567890")
    case Bishu =>
      BlankOrder(1, STAND_IN_WALLET).(perBishu := 50000, isBuy := "N", botRid := 1, isOpen := "Y",
        maxBuy := 100)
  }

  function ResourceCheckAsWritten(kind: OrderKind, table: seq<StandingOrder>): (r: seq<StandingOrder>)
    ensures r != []
    ensures ResourceCheckRows(table) != [] ==> r == ResourceCheckRows(table)
    ensures ResourceCheckRows(table) == [] ==> r == [StandInCheckOrder(kind)]
  {
    var rows := ResourceCheckRows(table);
    if rows != [] then rows else [StandInCheckOrder(kind)]
  }

  /** With an empty table the order task still dispatches a purchase for the stand-in wallet. */
  lemma StandInOrderDispatched(kind: OrderKind)
    ensures PendingOrderRows(kind, []) == []
    ensures PendingOrdersAsWritten(kind, []) == [StandInPendingOrder(kind)]
    ensures PendingOrderMatch(kind, StandInPendingOrder(kind))
  {
  }

  /** `get_by_wallet_addr` without the stand-in: the first row registered for the wallet. */
  function FindByWallet(table: seq<StandingOrder>, wallet: string): (r: Option<StandingOrder>)
    ensures r.None? <==> forall i :: 0 <= i < |table| ==> table[i].walletAddr != wallet
    ensures r.Some? ==> exists i :: 0 <= i < |table| && table[i] == r.value && r.value.walletAddr == wallet
                          && forall j :: 0 <= j < i ==> table[j].walletAddr != wallet
    decreases |table|
  {
    if table == [] then None
    else if table[0].walletAddr == wallet then Some(table[0])
    else
      var r := FindByWallet(table[1..], wallet);
      assert forall i :: 1 <= i < |table| ==> table[i] == table[1..][i - 1];
      r
  }

  /** `get_by_wallet_addr` as written: a row comes back for every wallet, registered or not. */
  function ByWalletAsWritten(table: seq<StandingOrder>, wallet: string): (r: StandingOrder)
    ensures r.walletAddr == wallet
    ensures FindByWallet(table, wallet).Some? ==> r == FindByWallet(table, wallet).value
    ensures FindByWallet(table, wallet).None? ==> r.rid == 1 && r.isNotice == "Y"
  {
    match FindByWallet(table, wallet)
    case Some(o) => o
    case None => BlankOrder(1, wallet).(tgUid := "1234567890", isNotice := "Y", perBishu := 50000)
  }

  // ---------------------------------------------------------------- bots

  /** `EnergyPlatformBotModel.get_list(status)` without the stand-in. */
  function BotRows(table: seq<Bot>, status: int): (r: seq<Bot>)
    ensures forall b :: b in r <==> b in table && b.status == status
  {
    Filter(table, (b: Bot) => b.status == status)
  }

  /** `get_list` as written: a stand-in bot watching the stand-in wallet when none matches. */
  function BotListAsWritten(table: seq<Bot>, status: int): (r: seq<Bot>)
    ensures r != []
    ensures BotRows(table, status) != [] ==> r == BotRows(table, status)
    ensures BotRows(table, status) == [] ==> r == [Bot(1, STAND_IN_WALLET, 0)]
  {
    var rows := BotRows(table, status);
    if rows != [] then rows else [Bot(1, STAND_IN_WALLET, 0)]
  }
}
