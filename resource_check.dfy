/** `GetAiTrusteeshipWalletResourceTask`: every idle standing order has its wallet's bandwidth
    and energy read from the chain; a wallet whose energy has fallen below its threshold is
    flagged 'Y' (wants energy), which puts it on the purchase list of the order task. */
module ResourceCheck {
  import opened Common
  import opened Records
  import opened Queries
  import opened Adapters
  import opened Store

  /** The energy below which a wallet wants a purchase: `min_energy_quantity` for
      trusteeship, `per_bishu_energy_quantity` for bishu. */
  function Threshold(kind: OrderKind, w: StandingOrder): int
  {
    match kind
    case Trusteeship => w.minEnergy
    case Bishu => w.perBishu
  }

  /** A reply is used only when it parsed, has a `bandwidth` section and the account is
      activated. */
  predicate Usable(reply: AccountReply)
  {
    reply.Account? && reply.hasBandwidth && reply.activated
  }

  /** The update a usable reading writes, computed against the row as listed: the two
      readings always, `is_buy` 'Y' only when energy is below the threshold and the listed
      row was idle. */
  function ResourceSetter(kind: OrderKind, w: StandingOrder, bandwidth: int, energy: int): StandingOrder -> StandingOrder
  {
    (x: StandingOrder) =>
      x.(currentBandwidth := bandwidth, currentEnergy := energy,
         isBuy := if energy < Threshold(kind, w) && w.isBuy == "N" then "Y" else x.isBuy)
  }

  function BandwidthOf(reply: AccountReply): int
    requires reply.Account?
  {
    reply.freeNetRemaining.GetOr(0) + reply.netRemaining.GetOr(0)
  }

  function EnergyOf(reply: AccountReply): int
    requires reply.Account?
  {
    reply.energyRemaining.GetOr(0)
  }

  /** `check_wallet_resource` for one listed wallet. */
  function CheckWalletSpec(s: State, env: Env, kind: OrderKind, w: StandingOrder): State
  {
    var s1 := s.(sent := s.sent + [AccountQuery(w.walletAddr)]);
    var reply := env.accounts(w.walletAddr);
    if Usable(reply) then Recorded(s1, kind, w.rid, ResourceSetter(kind, w, BandwidthOf(reply), EnergyOf(reply)))
    else s1
  }

  /** One wallet: its account is queried once; an unusable reply writes nothing; a usable one
      rewrites the readings of the wallet's row and nothing else of it, sets 'Y' exactly when
      the energy is below the threshold and the listed row was idle, and touches no other row. */
  lemma CheckWalletOutcome(s: State, env: Env, kind: OrderKind, w: StandingOrder)
    ensures var r := CheckWalletSpec(s, env, kind, w);
            r == WithTable(s, kind, Table(r, kind)).(sent := s.sent + [AccountQuery(w.walletAddr)])
            && |Table(r, kind)| == |Table(s, kind)|
    ensures var r := CheckWalletSpec(s, env, kind, w);
            !Usable(env.accounts(w.walletAddr)) ==> Table(r, kind) == Table(s, kind)
    ensures var r := CheckWalletSpec(s, env, kind, w);
            var reply := env.accounts(w.walletAddr);
            Usable(reply) ==>
              forall i :: 0 <= i < |Table(s, kind)| ==>
                var old_ := Table(s, kind)[i];
                var new_ := Table(r, kind)[i];
                if old_.rid != w.rid then new_ == old_
                else
                  new_.currentBandwidth == reply.freeNetRemaining.GetOr(0) + reply.netRemaining.GetOr(0)
                  && new_.currentEnergy == reply.energyRemaining.GetOr(0)
                  && (new_.isBuy == "Y" <==> (reply.energyRemaining.GetOr(0) < Threshold(kind, w) && w.isBuy == "N")
                                             || old_.isBuy == "Y")
                  && new_.(currentBandwidth := old_.currentBandwidth, currentEnergy := old_.currentEnergy,
                           isBuy := old_.isBuy) == old_
  {
  }

  /** The hand-over to the order task: a listed wallet (enabled and idle) whose usable reading
      is below its threshold is, afterwards, on that task's purchase list; one at or above it
      is not. */
  lemma LowEnergyQueuesPurchase(s: State, env: Env, kind: OrderKind, w: StandingOrder, i: int)
    requires 0 <= i < |Table(s, kind)| && Table(s, kind)[i] == w && ResourceCheckMatch(w)
    requires Usable(env.accounts(w.walletAddr))
    ensures var r := CheckWalletSpec(s, env, kind, w);
            PendingOrderMatch(kind, Table(r, kind)[i]) <==> EnergyOf(env.accounts(w.walletAddr)) < Threshold(kind, w)
  {
  }

  /** A row left at 'B' (buying) by a purchase round in which every platform failed is on
      neither list, so neither task touches it again. */
  lemma BuyingRowIsOnNoList(kind: OrderKind, o: StandingOrder)
    requires o.isBuy == "B"
    ensures !PendingOrderMatch(kind, o) && !ResourceCheckMatch(o)
  {
  }

  /** Each listed wallet in turn. */
  function CheckAll(s: State, env: Env, kind: OrderKind, ws: seq<StandingOrder>): State
    decreases |ws|
  {
    if ws == [] then s else CheckAll(CheckWalletSpec(s, env, kind, ws[0]), env, kind, ws[1..])
  }

  /** The account queries of a list of wallets, in list order. */
  function AccountQueries(ws: seq<StandingOrder>): (r: seq<Request>)
    ensures |r| == |ws|
    ensures forall i :: 0 <= i < |ws| ==> r[i] == AccountQuery(ws[i].walletAddr)
    decreases |ws|
  {
    if ws == [] then []
    else
      assert forall i :: 1 <= i < |ws| ==> ws[i] == ws[1..][i - 1];
      [AccountQuery(ws[0].walletAddr)] + AccountQueries(ws[1..])
  }

  /** Every listed wallet is queried exactly once, in list order. */
  lemma {:induction false} CheckAllQueries(s: State, env: Env, kind: OrderKind, ws: seq<StandingOrder>)
    ensures CheckAll(s, env, kind, ws).sent == s.sent + AccountQueries(ws)
    decreases |ws|
  {
    if ws != [] {
      var s1 := CheckWalletSpec(s, env, kind, ws[0]);
      CheckAllQueries(s1, env, kind, ws[1..]);
      AppendAssoc(s.sent, [AccountQuery(ws[0].walletAddr)], AccountQueries(ws[1..]));
    }
  }

  /** A resource-check pass writes nothing but the standing-order table of its kind and the request log. */
  lemma {:induction false} CheckAllTables(s: State, env: Env, kind: OrderKind, ws: seq<StandingOrder>)
    ensures var r := CheckAll(s, env, kind, ws);
            r == WithTable(s, kind, Table(r, kind)).(sent := r.sent)
    decreases |ws|
  {
    if ws != [] {
      var s1 := CheckWalletSpec(s, env, kind, ws[0]);
      CheckWalletOutcome(s, env, kind, ws[0]);
      CheckAllTables(s1, env, kind, ws[1..]);
    }
  }

  /** Every listed wallet is queried exactly once, in list order, and the pass writes nothing
      but the standing-order table of its kind. */
  lemma CheckAllOnceInOrder(s: State, env: Env, kind: OrderKind, ws: seq<StandingOrder>)
    ensures var r := CheckAll(s, env, kind, ws);
            r.sent == s.sent + AccountQueries(ws)
            && r == WithTable(s, kind, Table(r, kind)).(sent := r.sent)
  {
    CheckAllQueries(s, env, kind, ws);
    CheckAllTables(s, env, kind, ws);
  }

  /** `check_trusteeship_wallets` / `check_bishu_wallets`: the list is read once; each wallet
      is checked in turn (the pool runs each check at once). */
  function CheckKindSpec(s: State, env: Env, kind: OrderKind): State
  {
    CheckAll(s, env, kind, ResourceCheckRows(Table(s, kind)))
  }

  /** `check_trusteeship_wallets` / `check_bishu_wallets` over the list lookup as written,
      which hands back its stand-in row (id 1) when no row qualifies. */
  function CheckKindAsWritten(s: State, env: Env, kind: OrderKind): State
  {
    CheckAll(s, env, kind, ResourceCheckAsWritten(kind, Table(s, kind)))
  }

  /** As written, a table whose only row has id 1 and is stuck at 'B' is not due for a check,
      yet the stand-in row, also id 1, is checked: a usable reading of the stand-in wallet
      below 50000 energy overwrites row 1's readings and flags it 'Y', releasing it. Over the
      lookup without the stand-in, the pass leaves the table as it was. */
  lemma StandInCheckRewritesRowOne(s: State, env: Env, kind: OrderKind, o: StandingOrder)
    requires Table(s, kind) == [o] && o.rid == 1 && o.isBuy == "B"
    requires Usable(env.accounts(STAND_IN_WALLET)) && EnergyOf(env.accounts(STAND_IN_WALLET)) < 50000
    ensures Table(CheckKindSpec(s, env, kind), kind) == [o]
    ensures var reply := env.accounts(STAND_IN_WALLET);
            Table(CheckKindAsWritten(s, env, kind), kind)
              == [o.(currentBandwidth := BandwidthOf(reply), currentEnergy := EnergyOf(reply), isBuy := "Y")]
  {
    assert ResourceCheckRows([o]) == [];
    var w := StandInCheckOrder(kind);
    assert ResourceCheckAsWritten(kind, [o]) == [w];
    assert CheckAll(s, env, kind, [w]) == CheckAll(CheckWalletSpec(s, env, kind, w), env, kind, [w][1..]);
    assert [w][1..] == [];
  }

  /** `check_wallet_resource`, building the update step by step. */
  method CheckWalletResource(db: Db, env: Env, kind: OrderKind, w: StandingOrder)
    modifies db
    ensures db.Snap() == CheckWalletSpec(old(db.Snap()), env, kind, w)
  {
    db.Send([AccountQuery(w.walletAddr)]);
    var reply := env.accounts(w.walletAddr);
    if !(reply.Account? && reply.hasBandwidth) {
      return;
    }
    if !reply.activated {
      return;
    }
    var bandwidth := reply.freeNetRemaining.GetOr(0) + reply.netRemaining.GetOr(0);
    var energy := reply.energyRemaining.GetOr(0);
    db.UpdateOrder(kind, w.rid, ResourceSetter(kind, w, bandwidth, energy));
  }

  method CheckWallets(db: Db, env: Env, kind: OrderKind)
    modifies db
    ensures db.Snap() == CheckKindSpec(old(db.Snap()), env, kind)
  {
    var ws := ResourceCheckRows(db.OrderTable(kind));
    var i := 0;
    while i < |ws|
      invariant 0 <= i <= |ws|
      invariant CheckAll(db.Snap(), env, kind, ws[i..]) == CheckKindSpec(old(db.Snap()), env, kind)
    {
      assert ws[i..][1..] == ws[i + 1..];
      CheckWalletResource(db, env, kind, ws[i]);
      i := i + 1;
    }
  }

  /** `execute`: trusteeship wallets first, then bishu wallets. */
  method Execute(db: Db, env: Env)
    modifies db
    ensures db.Snap() == CheckKindSpec(CheckKindSpec(old(db.Snap()), env, Trusteeship), env, Bishu)
  {
    CheckWallets(db, env, Trusteeship);
    CheckWallets(db, env, Bishu);
  }
}
