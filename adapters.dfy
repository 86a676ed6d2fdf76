/** The four supplier adapters behind `place_energy_order`: which request each platform kind
    sends, and how its reply becomes a success or a failure message.  The same dispatch is
    written out twice in the source (once per order task); it is defined once here.

    The outside world is an `Env`: the clock, the supplier endpoints as a function from the
    request to its reply, and the chain's account lookup.  All three are parameters. */
module Adapters {
  import opened Common
  import opened Records

  datatype Env = Env(
    clock: Clock,
    net: Request -> Reply,
    accounts: string -> AccountReply)

  /** `platform_name` codes that have an adapter. */
  predicate Supported(kind: int)
  {
    1 <= kind <= 4
  }

  /** RentEnergysBot's duration word. */
  function RentType(day: int): (t: string)
    ensures t == "day" <==> day == 1
    ensures t == "3day" <==> day == 3
    ensures t == "hour" <==> day != 1 && day != 3
  {
    if day == 1 then "day" else if day == 3 then "3day" else "hour"
  }

  /** RentEnergysBot's minimum order size. */
  const RENT_MINIMUM: int := 33000

  /** The amount RentEnergysBot is asked for: the request, raised to the supplier's minimum. */
  function RentAmount(amount: int): (r: int)
    ensures r >= amount && r >= RENT_MINIMUM
    ensures r == amount || r == RENT_MINIMUM
  {
    if amount >= RENT_MINIMUM then amount else RENT_MINIMUM
  }

  /** trongas.io's `rentTime`: 72 hours for a three-day package, else one unit. */
  function TrongasRentTime(day: int): (r: int)
    ensures r == 72 <==> day == 3
    ensures r != 72 ==> r == 1
  {
    if day == 1 then day else if day == 3 then 72 else 1
  }

  /** The wallet a supplier order delivers to. */
  function Receiver(req: Request): string
  {
    match req
    case NeeOrder(_, address, _, _, _) => address
    case RentOrder(_, address, _, _) => address
    case StakeOrder(_, _, address, _, _) => address
    case TrongasOrder(_, _, _, _, address) => address
    case AccountQuery(address) => address
    case TrxTransfers(address, _, _) => address
    case UsdtFirstPage(address, _) => address
    case UsdtNextPage(_) => ""
  }

  /** The energy a supplier order asks for (0 for requests that are not orders). */
  function Ordered(req: Request): int
  {
    match req
    case NeeOrder(_, _, amount, _, _) => amount
    case RentOrder(_, _, amount, _) => amount
    case StakeOrder(_, _, _, amount, _) => amount
    case TrongasOrder(_, _, amount, _, _) => amount
    case _ => 0
  }

  predicate IsOrder(req: Request)
  {
    req.NeeOrder? || req.RentOrder? || req.StakeOrder? || req.TrongasOrder?
  }

  /** The request the platform's adapter sends, or nothing for an unsupported kind.
      nee.cc carries the platform uid, the freeze days and the clock's seconds (its MD5
      signature is not modelled); RentEnergysBot the api key and duration word; own stake
      the key, the platform's own address and its permission id; trongas.io uid/key as
      user name and password. */
  function RequestFor(p: Platform, address: string, amount: int, day: int, seconds: int): (r: Option<Request>)
    ensures r.Some? <==> Supported(p.kind)
    ensures r.Some? ==> IsOrder(r.value) && Receiver(r.value) == address
    ensures r.Some? ==> Ordered(r.value) >= amount
    ensures r.Some? && p.kind != 2 ==> Ordered(r.value) == amount
    ensures p.kind == 2 ==> r.value.RentOrder? && r.value.rentType == RentType(day)
    ensures p.kind == 4 ==> r.value.TrongasOrder? && r.value.rentTime == TrongasRentTime(day)
  {
    if p.kind == 1 then Some(NeeOrder(p.uid, address, amount, day, seconds))
    else if p.kind == 2 then Some(RentOrder(p.apiKey, address, RentAmount(amount), RentType(day)))
    else if p.kind == 3 then Some(StakeOrder(p.apiKey, p.uid, address, amount, p.permissionId))
    else if p.kind == 4 then Some(TrongasOrder(p.uid, p.apiKey, amount, TrongasRentTime(day), address))
    else None
  }

  /** The success test of each supplier's reply. */
  predicate Accepted(kind: int, reply: Reply)
  {
    reply.Answer? &&
    (if kind == 1 then reply.status == Some(Num(200))
     else if kind == 2 then reply.status == Some(Str("success"))
     else if kind == 3 then reply.code == Some(Num(200))
     else reply.code == Some(Num(10000)))
  }

  /** The adapter result for a reply.  Only nee.cc reports an `order_no` and only own stake a
      `use_trx`; every other success leaves them at "" and 0. */
  function Classify(kind: int, reply: Reply): (r: AdapterResult)
    requires Supported(kind)
    ensures r.Placed? <==> Accepted(kind, reply)
    ensures reply.NoResponse? ==> r == Failed("API请求失败")
    ensures reply.Unparsable? ==> r == Failed("API响应解析失败")
    ensures r.Placed? && kind != 1 ==> r.orderNo == ""
    ensures r.Placed? && kind != 3 ==> r.useTrx == 0
    ensures r.Failed? && reply.Answer? && kind == 1 ==> r.message == reply.msg.GetOr("下单失败")
    ensures r.Failed? && reply.Answer? && kind == 3 ==> r.message == "质押失败"
    ensures r.Failed? && reply.Answer? && (kind == 2 || kind == 4) ==> r.message == "下单失败"
  {
    match reply
    case NoResponse => Failed("API请求失败")
    case Unparsable => Failed("API响应解析失败")
    case Answer(status, code, msg, orderNo, useTrx) =>
      if !Accepted(kind, reply) then
        if kind == 1 then Failed(msg.GetOr("下单失败"))
        else if kind == 3 then Failed("质押失败")
        else Failed("下单失败")
      else if kind == 1 then Placed(orderNo, 0)
      else if kind == 3 then Placed("", useTrx)
      else Placed("", 0)
  }

  /** One adapter call: its result and the requests it sent (none or one). */
  datatype Attempt = Attempt(result: AdapterResult, sent: seq<Request>)

  const UNSUPPORTED: string := "不支持的平台类型"

  /** `place_energy_order`: an unsupported kind fails without contacting anyone; a supported
      kind sends exactly one order for the wallet and succeeds iff the supplier accepted it. */
  function Place(env: Env, p: Platform, address: string, amount: int, day: int): (a: Attempt)
    ensures !Supported(p.kind) ==> a == Attempt(Failed(UNSUPPORTED), [])
    ensures Supported(p.kind) ==> |a.sent| == 1 && IsOrder(a.sent[0]) && Receiver(a.sent[0]) == address
                                  && Ordered(a.sent[0]) >= amount
    ensures a.result.Placed? <==> Supported(p.kind) && Accepted(p.kind, env.net(a.sent[0]))
  {
    match RequestFor(p, address, amount, day, env.clock.seconds)
    case None => Attempt(Failed(UNSUPPORTED), [])
    case Some(req) => Attempt(Classify(p.kind, env.net(req)), [req])
  }

  /** The address both order tasks hand the HTTP helper for own stake: the name of a setting,
      not a URL. */
  const STAKE_URL_AS_WRITTEN: string := "energy_stake_api_url"

  /** An absolute http(s) URL, the only kind of address the HTTP helper can fetch; for any
      other it fails before sending and answers nothing. */
  predicate HasScheme(url: string)
  {
    (|url| >= 7 && url[..7] == "http://") || (|url| >= 8 && url[..8] == "https://")
  }

  /** The own-stake address as written is no URL. */
  lemma StakeUrlHasNoScheme()
    ensures !HasScheme(STAKE_URL_AS_WRITTEN)
  {
    assert STAKE_URL_AS_WRITTEN[0] == 'e';
  }

  /** `place_energy_order` as written: own stake posts to `STAKE_URL_AS_WRITTEN`, so no request
      leaves and the adapter sees no response; the other kinds are as in `Place`. */
  function PlaceAsWritten(env: Env, p: Platform, address: string, amount: int, day: int): (a: Attempt)
    ensures p.kind != 3 ==> a == Place(env, p, address, amount, day)
    ensures p.kind == 3 ==> a.sent == [] && a.result.Failed?
  {
    StakeUrlHasNoScheme();
    if p.kind == 3 && !HasScheme(STAKE_URL_AS_WRITTEN) then Attempt(Classify(3, NoResponse), [])
    else Place(env, p, address, amount, day)
  }

  /** Own stake never delivers as written, whatever the supplier would answer: it fails with
      "API请求失败" and sends nothing.  With an endpoint that accepts every delegation, the
      adapter with a reachable endpoint places the order. */
  lemma StakeNeverPlaced(clock: Clock, accounts: string -> AccountReply, p: Platform, address: string, amount: int, day: int)
    requires p.kind == 3
    ensures var env := Env(clock, (r: Request) => Answer(None, Some(Num(200)), None, "", 0), accounts);
            PlaceAsWritten(env, p, address, amount, day) == Attempt(Failed("API请求失败"), [])
            && Place(env, p, address, amount, day).result.Placed?
  {
    StakeUrlHasNoScheme();
  }

  /** The attempt each platform of the list makes for one order, in list order. */
  function Attempts(env: Env, ps: seq<Platform>, address: string, amount: int, day: int): (tries: seq<Attempt>)
    ensures |tries| == |ps|
    decreases |ps|
  {
    if ps == [] then [] else [Place(env, ps[0], address, amount, day)] + Attempts(env, ps[1..], address, amount, day)
  }

  /** The attempt at position i is the one platform i makes. */
  lemma {:induction false} AttemptAt(env: Env, ps: seq<Platform>, address: string, amount: int, day: int, i: nat)
    requires i < |ps|
    ensures Attempts(env, ps, address, amount, day)[i] == Place(env, ps[i], address, amount, day)
    decreases i
  {
    if i > 0 {
      AttemptAt(env, ps[1..], address, amount, day, i - 1);
    }
  }

  /** Every request of the attempts is a supplier order for `address` of at least `amount`. */
  predicate OrdersFor(tries: seq<Attempt>, address: string, amount: int)
  {
    forall j, i :: 0 <= j < |tries| && 0 <= i < |tries[j].sent| ==>
      IsOrder(tries[j].sent[i]) && Receiver(tries[j].sent[i]) == address && Ordered(tries[j].sent[i]) >= amount
  }

  /** Whatever the platforms and the suppliers' replies, the attempts only ever order energy
      for the wallet asked about, and never less than asked. */
  lemma AttemptsOrderFor(env: Env, ps: seq<Platform>, address: string, amount: int, day: int)
    ensures OrdersFor(Attempts(env, ps, address, amount, day), address, amount)
  {
    var tries := Attempts(env, ps, address, amount, day);
    forall j | 0 <= j < |tries|
      ensures forall i :: 0 <= i < |tries[j].sent| ==>
                IsOrder(tries[j].sent[i]) && Receiver(tries[j].sent[i]) == address && Ordered(tries[j].sent[i]) >= amount
    {
      AttemptAt(env, ps, address, amount, day, j);
    }
  }
}
