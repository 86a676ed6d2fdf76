/** `HandleAiEnergyOrderTask`: standing orders (smart trusteeship and per-use "bishu" packages)
    that are flagged as wanting energy buy it from the first platform that delivers.

    `HandleOrderSpec` says what one standing order does to the database; `HandleOrder` does it
    step by step on a `Db`.  The key of a platform is used as stored: the source's decryption
    hands its input back unchanged. */
module StandingOrders {
  import opened Common
  import opened Records
  import opened Queries
  import opened Adapters
  import opened Store

  const EMPTY_KEY: string := "平台私钥为空"

  /** The energy one purchase buys: `per_buy_energy_quantity` for trusteeship,
      `per_bishu_energy_quantity` for bishu. */
  function OrderAmount(kind: OrderKind, o: StandingOrder): int
  {
    match kind
    case Trusteeship => o.perBuy
    case Bishu => o.perBishu
  }

  /** The rental period in days of an order; one day when the row has none. */
  function OrderDay(o: StandingOrder): int
  {
    o.energyDay.GetOr(1)
  }

  /** The purchase limit is set and already used up. */
  predicate QuotaReached(o: StandingOrder)
  {
    o.maxBuy > 0 && o.maxBuy <= o.totalBuy
  }

  /** The pre-purchase check: trusteeship's balance check always passes; a bishu order buys
      only while the wallet holds less energy than one purchase. */
  predicate BalanceOk(kind: OrderKind, o: StandingOrder)
  {
    kind.Trusteeship? || o.currentEnergy < o.perBishu
  }

  function IsBuySetter(value: string): StandingOrder -> StandingOrder
  {
    (w: StandingOrder) => w.(isBuy := value)
  }

  /** `update_order_comments`: the message stamped with the date. */
  function CommentSetter(date: string, message: string): StandingOrder -> StandingOrder
  {
    (w: StandingOrder) => w.(comments := date + " " + message)
  }

  /** `update_order_statistics`, computed from the row as it was listed. */
  function PurchaseSetter(o: StandingOrder, kind: OrderKind, date: string): StandingOrder -> StandingOrder
  {
    (w: StandingOrder) => w.(isBuy := "N", totalBuyEnergy := o.totalBuyEnergy + OrderAmount(kind, o),
                             totalBuy := o.totalBuy + 1, isNotice := "Y", lastBuyTime := date)
  }

  /** `create_platform_order` of the standing-order task. */
  function StandingOrderRow(p: Platform, o: StandingOrder, kind: OrderKind, result: AdapterResult, date: string): (r: PlatformOrder)
    requires result.Placed?
    ensures r.sourceType == 3
    ensures r.recoveryStatus == (if p.kind == 3 then 2 else 1)
    ensures r.platformRid == p.rid && r.kind == p.kind && r.receiveAddress == o.walletAddr
    ensures r.energyAmount == OrderAmount(kind, o) && r.energyDay == OrderDay(o)
    ensures r.platformOrderId == result.orderNo && r.useTrx == result.useTrx
  {
    PlatformOrder(platformRid := p.rid, platformBotRid := o.platformBotRid, kind := p.kind, uid := p.uid,
                  receiveAddress := o.walletAddr, platformOrderId := result.orderNo,
                  energyAmount := OrderAmount(kind, o), energyDay := OrderDay(o), energyTime := date,
                  sourceType := 3, recoveryStatus := if p.kind == 3 then 2 else 1, useTrx := result.useTrx)
  }

  /** The attempt made on one platform for a standing order. */
  function Attempted(env: Env, kind: OrderKind, o: StandingOrder, p: Platform): Attempt
  {
    Place(env, p, o.walletAddr, OrderAmount(kind, o), OrderDay(o))
  }

  /** The attempt each platform of the list would make for the order. */
  function StandingAttempts(env: Env, kind: OrderKind, o: StandingOrder, ps: seq<Platform>): (tries: seq<Attempt>)
    ensures |tries| == |ps|
  {
    Attempts(env, ps, o.walletAddr, OrderAmount(kind, o), OrderDay(o))
  }

  /** The platform loop of `process_order`, given the attempt each platform makes: a platform
      without key is noted and skipped; with a key the order is flagged 'B' and the adapter
      called; success records the order row, the statistics and one notification and stops;
      failure notes the message and goes on. */
  function RunStanding(s: State, date: string, kind: OrderKind, o: StandingOrder, ps: seq<Platform>, tries: seq<Attempt>): State
    requires |tries| == |ps|
    decreases |ps|
  {
    if ps == [] then s
    else if ps[0].apiKey == "" then
      RunStanding(Recorded(s, kind, o.rid, CommentSetter(date, EMPTY_KEY)), date, kind, o, ps[1..], tries[1..])
    else
      var s1 := Recorded(s, kind, o.rid, IsBuySetter("B"));
      var a := tries[0];
      var s2 := s1.(sent := s1.sent + a.sent);
      if a.result.Placed? then
        var s3 := Recorded(s2.(orders := s2.orders + [StandingOrderRow(ps[0], o, kind, a.result, date)]),
                           kind, o.rid, PurchaseSetter(o, kind, date));
        s3.(notices := s3.notices + [Notice(kind, o.rid)])
      else
        RunStanding(Recorded(s2, kind, o.rid, CommentSetter(date, a.result.message)), date, kind, o, ps[1..], tries[1..])
  }

  /** One listed order: skipped when its quota is used up or its balance check fails,
      otherwise the platform loop over the platforms eligible for one purchase. */
  function HandleOrderSpec(s: State, env: Env, kind: OrderKind, o: StandingOrder): State
  {
    if QuotaReached(o) || !BalanceOk(kind, o) then s
    else
      var ps := AvailablePlatformRows(s.platforms, OrderAmount(kind, o));
      RunStanding(s, env.clock.date, kind, o, ps, StandingAttempts(env, kind, o, ps))
  }

  /** The first platform that has a key and places the order. */
  function FirstDelivering(ps: seq<Platform>, tries: seq<Attempt>): (k: Option<nat>)
    requires |tries| == |ps|
    ensures k.Some? ==> k.value < |ps| && ps[k.value].apiKey != "" && tries[k.value].result.Placed?
    ensures k.Some? ==> forall j :: 0 <= j < k.value ==> ps[j].apiKey == "" || tries[j].result.Failed?
    ensures k.None? ==> forall j :: 0 <= j < |ps| ==> ps[j].apiKey == "" || tries[j].result.Failed?
    decreases |ps|
  {
    if ps == [] then None
    else if ps[0].apiKey != "" && tries[0].result.Placed? then Some(0)
    else
      assert forall j :: 1 <= j < |ps| ==> ps[j] == ps[1..][j - 1] && tries[j] == tries[1..][j - 1];
      match FirstDelivering(ps[1..], tries[1..])
      case None => None
      case Some(k) => Some(k + 1)
  }

  /** Platform k is the first with a key that places the order: every platform before it is
      keyless or fails. */
  predicate DeliversAt(ps: seq<Platform>, tries: seq<Attempt>, k: nat)
    requires |tries| == |ps|
  {
    k < |ps| && ps[k].apiKey != "" && tries[k].result.Placed?
    && forall j :: 0 <= j < k ==> ps[j].apiKey == "" || tries[j].result.Failed?
  }

  /** The rest of the list delivers one place earlier when a later platform delivers. */
  lemma DeliversLater(ps: seq<Platform>, tries: seq<Attempt>, k: nat)
    requires |tries| == |ps| && DeliversAt(ps, tries, k) && k > 0
    ensures ps[0].apiKey == "" || tries[0].result.Failed?
    ensures DeliversAt(ps[1..], tries[1..], k - 1)
  {
    assert ps[1..][k - 1] == ps[k] && tries[1..][k - 1] == tries[k];
    forall j | 0 <= j < k - 1 ensures ps[1..][j].apiKey == "" || tries[1..][j].result.Failed? {
      assert ps[1..][j] == ps[j + 1] && tries[1..][j] == tries[j + 1];
    }
  }

  /** Some platform of the list has a key. */
  predicate SomeKey(ps: seq<Platform>)
  {
    exists p :: p in ps && p.apiKey != ""
  }

  /** The row of the order itself: same position, same id, in the order's table. */
  predicate OwnRow(s: State, kind: OrderKind, o: StandingOrder, i: int)
  {
    0 <= i < |Table(s, kind)| && Table(s, kind)[i].rid == o.rid
  }

  /** The platform loop writes nothing but the order's own row, the order log, the request log
      and the notifications. */
  lemma {:induction false} RunStandingTables(s: State, date: string, kind: OrderKind, o: StandingOrder,
                                             ps: seq<Platform>, tries: seq<Attempt>)
    requires |tries| == |ps|
    ensures var r := RunStanding(s, date, kind, o, ps, tries);
            r == WithTable(s, kind, Table(r, kind)).(orders := r.orders, sent := r.sent, notices := r.notices)
    ensures var r := RunStanding(s, date, kind, o, ps, tries);
            |Table(r, kind)| == |Table(s, kind)|
            && forall i :: 0 <= i < |Table(s, kind)| ==>
                 Table(r, kind)[i].rid == Table(s, kind)[i].rid
                 && (Table(s, kind)[i].rid != o.rid ==> Table(r, kind)[i] == Table(s, kind)[i])
    decreases |ps|
  {
    if ps == [] {
    } else if ps[0].apiKey != "" && tries[0].result.Placed? {
      DeliverTables(s, date, kind, o, ps, tries);
    } else {
      RunStandingPass(s, date, kind, o, ps, tries);
      PassOverTables(s, date, kind, o, ps[0], tries[0]);
      RunStandingTables(PassOver(s, date, kind, o, ps[0], tries[0]), date, kind, o, ps[1..], tries[1..]);
    }
  }

  /** A platform passed over writes only the order's own row of its table and the request log. */
  lemma PassOverTables(s: State, date: string, kind: OrderKind, o: StandingOrder, p: Platform, a: Attempt)
    requires p.apiKey == "" || a.result.Failed?
    ensures var s1 := PassOver(s, date, kind, o, p, a);
            s1 == WithTable(s, kind, Table(s1, kind)).(sent := s1.sent)
            && |Table(s1, kind)| == |Table(s, kind)|
            && forall i :: 0 <= i < |Table(s, kind)| ==>
                 Table(s1, kind)[i].rid == Table(s, kind)[i].rid
                 && (Table(s, kind)[i].rid != o.rid ==> Table(s1, kind)[i] == Table(s, kind)[i])
  {
  }

  /** The first platform delivers: only the order's own row of its table changes, besides the
      logs. */
  lemma DeliverTables(s: State, date: string, kind: OrderKind, o: StandingOrder, ps: seq<Platform>, tries: seq<Attempt>)
    requires |tries| == |ps| && ps != [] && ps[0].apiKey != "" && tries[0].result.Placed?
    ensures var r := RunStanding(s, date, kind, o, ps, tries);
            r == WithTable(s, kind, Table(r, kind)).(orders := r.orders, sent := r.sent, notices := r.notices)
    ensures var r := RunStanding(s, date, kind, o, ps, tries);
            |Table(r, kind)| == |Table(s, kind)|
            && forall i :: 0 <= i < |Table(s, kind)| ==>
                 Table(r, kind)[i].rid == Table(s, kind)[i].rid
                 && (Table(s, kind)[i].rid != o.rid ==> Table(r, kind)[i] == Table(s, kind)[i])
  {
  }

  /** Every request the platform loop sends is one of the attempts' requests; when those only
      order energy for the order's wallet, so does the loop. */
  lemma {:induction false} RunStandingSent(s: State, date: string, kind: OrderKind, o: StandingOrder,
                                           ps: seq<Platform>, tries: seq<Attempt>)
    requires |tries| == |ps| && OrdersFor(tries, o.walletAddr, OrderAmount(kind, o))
    ensures var r := RunStanding(s, date, kind, o, ps, tries);
            |s.sent| <= |r.sent| && r.sent[..|s.sent|] == s.sent
            && forall j :: |s.sent| <= j < |r.sent| ==>
                 IsOrder(r.sent[j]) && Receiver(r.sent[j]) == o.walletAddr && Ordered(r.sent[j]) >= OrderAmount(kind, o)
    decreases |ps|
  {
    if ps != [] {
      assert OrdersFor(tries[1..], o.walletAddr, OrderAmount(kind, o)) by {
        assert forall j :: 0 <= j < |tries[1..]| ==> tries[1..][j] == tries[j + 1];
      }
      if ps[0].apiKey == "" {
        RunStandingSent(Recorded(s, kind, o.rid, CommentSetter(date, EMPTY_KEY)), date, kind, o, ps[1..], tries[1..]);
      } else {
        var s1 := Recorded(s, kind, o.rid, IsBuySetter("B"));
        var s2 := s1.(sent := s1.sent + tries[0].sent);
        assert s2.sent == s.sent + tries[0].sent;
        if tries[0].result.Failed? {
          var s3 := Recorded(s2, kind, o.rid, CommentSetter(date, tries[0].result.message));
          RunStandingSent(s3, date, kind, o, ps[1..], tries[1..]);
          var r := RunStanding(s3, date, kind, o, ps[1..], tries[1..]);
          assert r.sent[..|s.sent|] == r.sent[..|s3.sent|][..|s.sent|];
        }
      }
    }
  }

  /** A platform delivers: exactly one order row, for the first platform with a key that
      delivered, and one notification. */
  lemma {:induction false} RunStandingDelivered(s: State, date: string, kind: OrderKind, o: StandingOrder,
                                                ps: seq<Platform>, tries: seq<Attempt>, k: nat)
    requires |tries| == |ps| && DeliversAt(ps, tries, k)
    ensures k < |ps| && tries[k].result.Placed?
    ensures var r := RunStanding(s, date, kind, o, ps, tries);
            r.orders == s.orders + [StandingOrderRow(ps[k], o, kind, tries[k].result, date)]
            && r.notices == s.notices + [Notice(kind, o.rid)]
    decreases |ps|
  {
    if k > 0 {
      DeliversLater(ps, tries, k);
      assert ps[1..][k - 1] == ps[k] && tries[1..][k - 1] == tries[k];
      if ps[0].apiKey == "" {
        RunStandingDelivered(Recorded(s, kind, o.rid, CommentSetter(date, EMPTY_KEY)), date, kind, o, ps[1..], tries[1..], k - 1);
      } else {
        var s1 := Recorded(s, kind, o.rid, IsBuySetter("B"));
        var s2 := s1.(sent := s1.sent + tries[0].sent);
        RunStandingDelivered(Recorded(s2, kind, o.rid, CommentSetter(date, tries[0].result.message)),
                             date, kind, o, ps[1..], tries[1..], k - 1);
      }
    }
  }

  /** A platform delivers: the order's row carries the updated statistics (one purchase more,
      the purchased energy added, flagged idle and to be announced). */
  lemma {:induction false} RunStandingDeliveredRow(s: State, date: string, kind: OrderKind, o: StandingOrder,
                                                   ps: seq<Platform>, tries: seq<Attempt>)
    requires |tries| == |ps| && FirstDelivering(ps, tries).Some?
    ensures var r := RunStanding(s, date, kind, o, ps, tries);
            |Table(r, kind)| == |Table(s, kind)|
            && forall i :: OwnRow(s, kind, o, i) ==>
                 Table(r, kind)[i].isBuy == "N" && Table(r, kind)[i].isNotice == "Y"
                 && Table(r, kind)[i].totalBuy == o.totalBuy + 1
                 && Table(r, kind)[i].totalBuyEnergy == o.totalBuyEnergy + OrderAmount(kind, o)
                 && Table(r, kind)[i].lastBuyTime == date
    decreases |ps|
  {
    assert FirstDelivering(ps, tries).value < |ps|;
    if ps[0].apiKey != "" && tries[0].result.Placed? {
      DeliverRow(s, date, kind, o, ps, tries);
    } else {
      assert FirstDelivering(ps[1..], tries[1..]).Some?;
      RunStandingPass(s, date, kind, o, ps, tries);
      PassOverComment(s, date, kind, o, ps[0], tries[0]);
      RunStandingDeliveredRow(PassOver(s, date, kind, o, ps[0], tries[0]), date, kind, o, ps[1..], tries[1..]);
    }
  }

  /** The first platform delivers: the order's row carries the updated statistics. */
  lemma DeliverRow(s: State, date: string, kind: OrderKind, o: StandingOrder, ps: seq<Platform>, tries: seq<Attempt>)
    requires |tries| == |ps| && ps != [] && ps[0].apiKey != "" && tries[0].result.Placed?
    ensures var r := RunStanding(s, date, kind, o, ps, tries);
            |Table(r, kind)| == |Table(s, kind)|
            && forall i :: OwnRow(s, kind, o, i) ==>
                 Table(r, kind)[i].isBuy == "N" && Table(r, kind)[i].isNotice == "Y"
                 && Table(r, kind)[i].totalBuy == o.totalBuy + 1
                 && Table(r, kind)[i].totalBuyEnergy == o.totalBuyEnergy + OrderAmount(kind, o)
                 && Table(r, kind)[i].lastBuyTime == date
  {
  }

  /** No platform delivers: no order row, no notification.  If some platform had a key the
      order's row is left flagged 'B' (buying); if none had, nothing was sent and the flag is
      as it was. */
  lemma {:induction false} RunStandingExhausted(s: State, date: string, kind: OrderKind, o: StandingOrder,
                                                ps: seq<Platform>, tries: seq<Attempt>)
    requires |tries| == |ps| && FirstDelivering(ps, tries).None?
    ensures var r := RunStanding(s, date, kind, o, ps, tries);
            r.orders == s.orders && r.notices == s.notices && |Table(r, kind)| == |Table(s, kind)|
    ensures var r := RunStanding(s, date, kind, o, ps, tries);
            forall i :: OwnRow(s, kind, o, i) ==>
              Table(r, kind)[i].isBuy == (if SomeKey(ps) then "B" else Table(s, kind)[i].isBuy)
    ensures !SomeKey(ps) ==> RunStanding(s, date, kind, o, ps, tries).sent == s.sent
    decreases |ps|
  {
    if ps != [] {
      assert forall p :: p in ps <==> p == ps[0] || p in ps[1..];
      assert SomeKey(ps) <==> ps[0].apiKey != "" || SomeKey(ps[1..]);
      if ps[0].apiKey == "" {
        RunStandingExhausted(Recorded(s, kind, o.rid, CommentSetter(date, EMPTY_KEY)), date, kind, o, ps[1..], tries[1..]);
      } else {
        var s1 := Recorded(s, kind, o.rid, IsBuySetter("B"));
        var s3 := Recorded(s1.(sent := s1.sent + tries[0].sent), kind, o.rid, CommentSetter(date, tries[0].result.message));
        RunStandingExhausted(s3, date, kind, o, ps[1..], tries[1..]);
        var r := RunStanding(s3, date, kind, o, ps[1..], tries[1..]);
        forall i | OwnRow(s, kind, o, i) ensures Table(r, kind)[i].isBuy == "B" {
          assert OwnRow(s3, kind, o, i);
          assert Table(s3, kind)[i].isBuy == "B";
        }
      }
    }
  }

  /** The requests of the platforms with a key among the first `n`, in list order. */
  function KeyedSent(ps: seq<Platform>, tries: seq<Attempt>, n: nat): seq<Request>
    requires |tries| == |ps| && n <= |ps|
    decreases n
  {
    if n == 0 then []
    else (if ps[0].apiKey != "" then tries[0].sent else []) + KeyedSent(ps[1..], tries[1..], n - 1)
  }

  /** The state after a platform that did not deliver: noted as keyless, or flagged 'B', its
      requests sent and its failure noted. */
  function PassOver(s: State, date: string, kind: OrderKind, o: StandingOrder, p: Platform, a: Attempt): (r: State)
    requires p.apiKey == "" || a.result.Failed?
    ensures r.sent == s.sent + (if p.apiKey != "" then a.sent else [])
  {
    if p.apiKey == "" then Recorded(s, kind, o.rid, CommentSetter(date, EMPTY_KEY))
    else
      var s1 := Recorded(s, kind, o.rid, IsBuySetter("B"));
      Recorded(s1.(sent := s1.sent + a.sent), kind, o.rid, CommentSetter(date, a.result.message))
  }

  /** A platform that does not deliver hands the rest of the list the state it leaves. */
  lemma RunStandingPass(s: State, date: string, kind: OrderKind, o: StandingOrder, ps: seq<Platform>, tries: seq<Attempt>)
    requires |tries| == |ps| && ps != [] && !(ps[0].apiKey != "" && tries[0].result.Placed?)
    ensures RunStanding(s, date, kind, o, ps, tries)
            == RunStanding(PassOver(s, date, kind, o, ps[0], tries[0]), date, kind, o, ps[1..], tries[1..])
  {
  }

  /** The first platform delivers: its requests are the only ones sent. */
  lemma DeliverSent(s: State, date: string, kind: OrderKind, o: StandingOrder, ps: seq<Platform>, tries: seq<Attempt>)
    requires |tries| == |ps| && ps != [] && ps[0].apiKey != "" && tries[0].result.Placed?
    ensures RunStanding(s, date, kind, o, ps, tries).sent == s.sent + tries[0].sent
  {
  }

  /** A first platform passed over adds its own requests, if it has a key, in front of those
      the rest of the list sends. */
  lemma PassedOverSent(s: State, date: string, kind: OrderKind, o: StandingOrder, ps: seq<Platform>, tries: seq<Attempt>, n: nat)
    requires |tries| == |ps| && 0 < n <= |ps| && (ps[0].apiKey == "" || tries[0].result.Failed?)
    requires var s1 := PassOver(s, date, kind, o, ps[0], tries[0]);
             RunStanding(s1, date, kind, o, ps[1..], tries[1..]).sent == s1.sent + KeyedSent(ps[1..], tries[1..], n - 1)
    ensures RunStanding(s, date, kind, o, ps, tries).sent == s.sent + KeyedSent(ps, tries, n)
  {
    RunStandingPass(s, date, kind, o, ps, tries);
    var first := if ps[0].apiKey != "" then tries[0].sent else [];
    assert KeyedSent(ps, tries, n) == first + KeyedSent(ps[1..], tries[1..], n - 1);
    AppendAssoc(s.sent, first, KeyedSent(ps[1..], tries[1..], n - 1));
  }

  /** A platform delivers: the loop called exactly the platforms with a key, in list order,
      up to and including that one; a platform without key is never called. */
  lemma {:induction false} RunStandingCallsDelivered(s: State, date: string, kind: OrderKind, o: StandingOrder,
                                                     ps: seq<Platform>, tries: seq<Attempt>, k: nat)
    requires |tries| == |ps| && DeliversAt(ps, tries, k)
    ensures k < |ps| && RunStanding(s, date, kind, o, ps, tries).sent == s.sent + KeyedSent(ps, tries, k + 1)
    decreases |ps|
  {
    if k == 0 {
      DeliverSent(s, date, kind, o, ps, tries);
      assert KeyedSent(ps, tries, 1) == tries[0].sent + KeyedSent(ps[1..], tries[1..], 0);
    } else {
      DeliversLater(ps, tries, k);
      RunStandingCallsDelivered(PassOver(s, date, kind, o, ps[0], tries[0]), date, kind, o, ps[1..], tries[1..], k - 1);
      PassedOverSent(s, date, kind, o, ps, tries, k + 1);
    }
  }

  /** No platform delivers: every platform with a key was called once, in list order, and no
      other. */
  lemma {:induction false} RunStandingCallsExhausted(s: State, date: string, kind: OrderKind, o: StandingOrder,
                                                     ps: seq<Platform>, tries: seq<Attempt>)
    requires |tries| == |ps| && FirstDelivering(ps, tries).None?
    ensures RunStanding(s, date, kind, o, ps, tries).sent == s.sent + KeyedSent(ps, tries, |ps|)
    decreases |ps|
  {
    if ps != [] {
      assert FirstDelivering(ps[1..], tries[1..]).None?;
      assert ps[0].apiKey == "" || tries[0].result.Failed?;
      RunStandingCallsExhausted(PassOver(s, date, kind, o, ps[0], tries[0]), date, kind, o, ps[1..], tries[1..]);
      PassedOverSent(s, date, kind, o, ps, tries, |ps|);
    }
  }

  /** The comment the loop leaves on the order for a platform that did not deliver: the key
      is missing, or the adapter's failure message. */
  function PlatformComment(p: Platform, a: Attempt): string
    requires p.apiKey == "" || a.result.Failed?
  {
    if p.apiKey == "" then EMPTY_KEY else a.result.message
  }

  /** The platforms the loop passes over before one delivers, or all of them. */
  function Passed(ps: seq<Platform>, tries: seq<Attempt>): (n: nat)
    requires |tries| == |ps|
    ensures n <= |ps| && forall j :: 0 <= j < n ==> ps[j].apiKey == "" || tries[j].result.Failed?
    ensures n < |ps| ==> ps[n].apiKey != "" && tries[n].result.Placed?
  {
    match FirstDelivering(ps, tries)
    case Some(k) => k
    case None => |ps|
  }

  /** The order's row ends with the date-stamped comment of the last platform passed over, or
      keeps its comment when the first platform delivers or there is none. */
  lemma {:induction false} RunStandingComment(s: State, date: string, kind: OrderKind, o: StandingOrder,
                                              ps: seq<Platform>, tries: seq<Attempt>)
    requires |tries| == |ps|
    ensures var r := RunStanding(s, date, kind, o, ps, tries);
            var n := Passed(ps, tries);
            |Table(r, kind)| == |Table(s, kind)|
            && forall i :: OwnRow(s, kind, o, i) ==>
              Table(r, kind)[i].comments
              == if n == 0 then Table(s, kind)[i].comments else date + " " + PlatformComment(ps[n - 1], tries[n - 1])
    decreases |ps|
  {
    if ps == [] {
    } else if ps[0].apiKey != "" && tries[0].result.Placed? {
      DeliverKeepsComment(s, date, kind, o, ps, tries);
    } else {
      RunStandingComment(PassOver(s, date, kind, o, ps[0], tries[0]), date, kind, o, ps[1..], tries[1..]);
      PassedOverComment(s, date, kind, o, ps, tries);
    }
  }

  /** The comment left by the rest of the list, after a first platform passed over, is the
      comment of the last platform passed over in the whole list. */
  lemma PassedOverComment(s: State, date: string, kind: OrderKind, o: StandingOrder, ps: seq<Platform>, tries: seq<Attempt>)
    requires |tries| == |ps| && ps != [] && !(ps[0].apiKey != "" && tries[0].result.Placed?)
    requires var s1 := PassOver(s, date, kind, o, ps[0], tries[0]);
             var r1 := RunStanding(s1, date, kind, o, ps[1..], tries[1..]);
             var m := Passed(ps[1..], tries[1..]);
             |Table(r1, kind)| == |Table(s1, kind)|
             && forall i :: OwnRow(s1, kind, o, i) ==>
               Table(r1, kind)[i].comments
               == if m == 0 then Table(s1, kind)[i].comments
                  else date + " " + PlatformComment(ps[1..][m - 1], tries[1..][m - 1])
    ensures var r := RunStanding(s, date, kind, o, ps, tries);
            var n := Passed(ps, tries);
            |Table(r, kind)| == |Table(s, kind)|
            && forall i :: OwnRow(s, kind, o, i) ==>
              Table(r, kind)[i].comments
              == if n == 0 then Table(s, kind)[i].comments else date + " " + PlatformComment(ps[n - 1], tries[n - 1])
  {
    RunStandingPass(s, date, kind, o, ps, tries);
    PassedStep(ps, tries);
    PassOverComment(s, date, kind, o, ps[0], tries[0]);
    var n := Passed(ps, tries);
    if n > 1 {
      assert ps[1..][n - 2] == ps[n - 1] && tries[1..][n - 2] == tries[n - 1];
    }
  }

  /** A first platform passed over adds one to the platforms passed over. */
  lemma PassedStep(ps: seq<Platform>, tries: seq<Attempt>)
    requires |tries| == |ps| && ps != [] && !(ps[0].apiKey != "" && tries[0].result.Placed?)
    ensures Passed(ps, tries) == Passed(ps[1..], tries[1..]) + 1
  {
    match FirstDelivering(ps[1..], tries[1..])
    case None =>
    case Some(j) =>
  }

  /** When the first platform delivers, the order's row keeps its comment. */
  lemma DeliverKeepsComment(s: State, date: string, kind: OrderKind, o: StandingOrder, ps: seq<Platform>, tries: seq<Attempt>)
    requires |tries| == |ps| && ps != [] && ps[0].apiKey != "" && tries[0].result.Placed?
    ensures var r := RunStanding(s, date, kind, o, ps, tries);
            |Table(r, kind)| == |Table(s, kind)|
            && forall i :: OwnRow(s, kind, o, i) ==> Table(r, kind)[i].comments == Table(s, kind)[i].comments
  {
  }

  /** A platform passed over keeps the table's length and leaves its comment on the order's
      own row. */
  lemma PassOverComment(s: State, date: string, kind: OrderKind, o: StandingOrder, p: Platform, a: Attempt)
    requires p.apiKey == "" || a.result.Failed?
    ensures var s1 := PassOver(s, date, kind, o, p, a);
            |Table(s1, kind)| == |Table(s, kind)|
            && forall i :: OwnRow(s, kind, o, i) ==>
                 OwnRow(s1, kind, o, i) && Table(s1, kind)[i].comments == date + " " + PlatformComment(p, a)
  {
  }

  /** The order log and the notifications grow together, by at most one entry, and the
      notification names the order. */
  lemma RunStandingLogs(s: State, date: string, kind: OrderKind, o: StandingOrder, ps: seq<Platform>, tries: seq<Attempt>)
    requires |tries| == |ps|
    ensures var r := RunStanding(s, date, kind, o, ps, tries);
            (r.orders == s.orders && r.notices == s.notices)
            || (|r.orders| == |s.orders| + 1 && r.orders[..|s.orders|] == s.orders
                && r.notices == s.notices + [Notice(kind, o.rid)])
  {
    match FirstDelivering(ps, tries)
    case None => RunStandingExhausted(s, date, kind, o, ps, tries);
    case Some(k) => RunStandingDelivered(s, date, kind, o, ps, tries, k);
  }

  /** Whatever the suppliers answer, every request one listed order sends is a purchase of at
      least one purchase's energy for the order's own wallet, and the earlier log is kept. */
  lemma HandleOrderSent(s: State, env: Env, kind: OrderKind, o: StandingOrder)
    ensures var r := HandleOrderSpec(s, env, kind, o);
            |s.sent| <= |r.sent| && r.sent[..|s.sent|] == s.sent
            && forall j :: |s.sent| <= j < |r.sent| ==>
                 IsOrder(r.sent[j]) && Receiver(r.sent[j]) == o.walletAddr && Ordered(r.sent[j]) >= OrderAmount(kind, o)
  {
    if !(QuotaReached(o) || !BalanceOk(kind, o)) {
      var ps := AvailablePlatformRows(s.platforms, OrderAmount(kind, o));
      AttemptsOrderFor(env, ps, o.walletAddr, OrderAmount(kind, o), OrderDay(o));
      RunStandingSent(s, env.clock.date, kind, o, ps, StandingAttempts(env, kind, o, ps));
    }
  }

  /** One platform's turn in the platform loop of `process_order`: `done` when it delivered,
      which ends the loop; otherwise the rest of the loop is still to run. */
  method TryPlatform(db: Db, env: Env, kind: OrderKind, o: StandingOrder, ps: seq<Platform>, ghost tries: seq<Attempt>)
    returns (done: bool)
    requires ps != [] && |tries| == |ps| && tries[0] == Attempted(env, kind, o, ps[0])
    modifies db
    ensures done ==> db.Snap() == RunStanding(old(db.Snap()), env.clock.date, kind, o, ps, tries)
    ensures !done ==> RunStanding(db.Snap(), env.clock.date, kind, o, ps[1..], tries[1..])
                      == RunStanding(old(db.Snap()), env.clock.date, kind, o, ps, tries)
  {
    var date := env.clock.date;
    var p := ps[0];
    if p.apiKey == "" {
      db.UpdateOrder(kind, o.rid, CommentSetter(date, EMPTY_KEY));
      return false;
    }
    db.UpdateOrder(kind, o.rid, IsBuySetter("B"));
    var a := Attempted(env, kind, o, p);
    db.Send(a.sent);
    if a.result.Placed? {
      db.InsertPlatformOrder(StandingOrderRow(p, o, kind, a.result, date));
      db.UpdateOrder(kind, o.rid, PurchaseSetter(o, kind, date));
      db.Notify(Notice(kind, o.rid));
      return true;
    }
    db.UpdateOrder(kind, o.rid, CommentSetter(date, a.result.message));
    return false;
  }

  /** `process_order` for one listed order, step by step on the database. */
  method HandleOrder(db: Db, env: Env, kind: OrderKind, o: StandingOrder)
    modifies db
    ensures db.Snap() == HandleOrderSpec(old(db.Snap()), env, kind, o)
  {
    if QuotaReached(o) || !BalanceOk(kind, o) {
      return;
    }
    var ps := AvailablePlatformRows(db.platforms, OrderAmount(kind, o));
    ghost var tries := StandingAttempts(env, kind, o, ps);
    var i := 0;
    while i < |ps|
      invariant 0 <= i <= |ps|
      invariant RunStanding(db.Snap(), env.clock.date, kind, o, ps[i..], tries[i..]) == HandleOrderSpec(old(db.Snap()), env, kind, o)
      decreases |ps| - i
    {
      AttemptAt(env, ps, o.walletAddr, OrderAmount(kind, o), OrderDay(o), i);
      assert tries[i..][0] == tries[i] && ps[i..][0] == ps[i];
      assert ps[i..][1..] == ps[i + 1..] && tries[i..][1..] == tries[i + 1..];
      var done := TryPlatform(db, env, kind, o, ps[i..], tries[i..]);
      if done {
        return;
      }
      i := i + 1;
    }
  }

  /** Each listed order in turn. */
  function HandleAll(s: State, env: Env, kind: OrderKind, os: seq<StandingOrder>): State
    decreases |os|
  {
    if os == [] then s else HandleAll(HandleOrderSpec(s, env, kind, os[0]), env, kind, os[1..])
  }

  /** `handle_trusteeship_orders` / `handle_bishu_orders`: the orders of the kind listed once,
      at the start, then handled in list order. */
  function HandleKindSpec(s: State, env: Env, kind: OrderKind): State
  {
    HandleAll(s, env, kind, PendingOrderRows(kind, Table(s, kind)))
  }

  /** `execute`: trusteeship first, then bishu. */
  function ExecuteSpec(s: State, env: Env): State
  {
    HandleKindSpec(HandleKindSpec(s, env, Trusteeship), env, Bishu)
  }

  /** One listed order adds either nothing to the order log and the notifications, or one
      entry to each, the notification naming the order. */
  lemma HandleOrderLogs(s: State, env: Env, kind: OrderKind, o: StandingOrder)
    ensures var r := HandleOrderSpec(s, env, kind, o);
            (r.orders == s.orders && r.notices == s.notices)
            || (|r.orders| == |s.orders| + 1 && r.orders[..|s.orders|] == s.orders
                && r.notices == s.notices + [Notice(kind, o.rid)])
  {
    if !(QuotaReached(o) || !BalanceOk(kind, o)) {
      var ps := AvailablePlatformRows(s.platforms, OrderAmount(kind, o));
      RunStandingLogs(s, env.clock.date, kind, o, ps, StandingAttempts(env, kind, o, ps));
    }
  }

  /** Over a whole run every order row the standing-order task writes comes with exactly one notification,
      and there are never more of them than listed orders. */
  lemma {:induction false} HandleAllNotices(s: State, env: Env, kind: OrderKind, os: seq<StandingOrder>)
    ensures var r := HandleAll(s, env, kind, os);
            |s.orders| <= |r.orders| && r.orders[..|s.orders|] == s.orders
            && |s.notices| <= |r.notices| && r.notices[..|s.notices|] == s.notices
            && |r.orders| - |s.orders| == |r.notices| - |s.notices| <= |os|
    decreases |os|
  {
    if os != [] {
      var s1 := HandleOrderSpec(s, env, kind, os[0]);
      HandleOrderLogs(s, env, kind, os[0]);
      HandleAllNotices(s1, env, kind, os[1..]);
      var r := HandleAll(s, env, kind, os);
      assert r.orders[..|s.orders|] == r.orders[..|s1.orders|][..|s.orders|];
      assert r.notices[..|s.notices|] == r.notices[..|s1.notices|][..|s.notices|];
    }
  }

  method HandleOrders(db: Db, env: Env, kind: OrderKind)
    modifies db
    ensures db.Snap() == HandleKindSpec(old(db.Snap()), env, kind)
  {
    var os := PendingOrderRows(kind, db.OrderTable(kind));
    var i := 0;
    while i < |os|
      invariant 0 <= i <= |os|
      invariant HandleAll(db.Snap(), env, kind, os[i..]) == HandleKindSpec(old(db.Snap()), env, kind)
    {
      assert os[i..][1..] == os[i + 1..];
      HandleOrder(db, env, kind, os[i]);
      i := i + 1;
    }
  }

  method Execute(db: Db, env: Env)
    modifies db
    ensures db.Snap() == ExecuteSpec(old(db.Snap()), env)
  {
    HandleOrders(db, env, Trusteeship);
    HandleOrders(db, env, Bishu);
  }
}
