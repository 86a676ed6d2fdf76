/** The database the scheduled tasks share, as one object whose tables they update in place.
    `Snap()` is its abstract value; each write method states the new value in terms of the
    old one through the pure patch functions below, which the specifications also use.

    An `UPDATE ... WHERE rid = %s` rewrites every row carrying that id (at most one when the
    id is a key); an `INSERT` appends a row with the next auto-increment id. */
module Store {
  import opened Common
  import opened Records

  datatype State = State(
    trades: seq<Trade>,
    packages: seq<Package>,
    platforms: seq<Platform>,
    orders: seq<PlatformOrder>,
    trusteeship: seq<StandingOrder>,
    bishu: seq<StandingOrder>,
    bots: seq<Bot>,
    sent: seq<Request>,          // every request sent to a supplier or chain API, in order
    notices: seq<Notice>)       // every notification handed to the message sender, in order

  /** The standing-order table of a kind. */
  function Table(s: State, kind: OrderKind): seq<StandingOrder>
  {
    match kind
    case Trusteeship => s.trusteeship
    case Bishu => s.bishu
  }

  function WithTable(s: State, kind: OrderKind, t: seq<StandingOrder>): (r: State)
    ensures Table(r, kind) == t
    ensures r.(trusteeship := s.trusteeship, bishu := s.bishu) == s
    ensures kind == Trusteeship ==> r.bishu == s.bishu
    ensures kind == Bishu ==> r.trusteeship == s.trusteeship
  {
    match kind
    case Trusteeship => s.(trusteeship := t)
    case Bishu => s.(bishu := t)
  }

  /** `UPDATE energy_wallet_trade_list SET ... WHERE rid = %s` */
  function PatchTrade(table: seq<Trade>, rid: int, f: Trade -> Trade): (r: seq<Trade>)
    ensures |r| == |table|
    ensures forall i :: 0 <= i < |table| ==> r[i] == if table[i].rid == rid then f(table[i]) else table[i]
  {
    seq(|table|, i requires 0 <= i < |table| => if table[i].rid == rid then f(table[i]) else table[i])
  }

  /** `UPDATE energy_ai_trusteeship / energy_ai_bishu SET ... WHERE rid = %s` */
  function PatchOrder(table: seq<StandingOrder>, rid: int, f: StandingOrder -> StandingOrder): (r: seq<StandingOrder>)
    ensures |r| == |table|
    ensures forall i :: 0 <= i < |table| ==> r[i] == if table[i].rid == rid then f(table[i]) else table[i]
  {
    seq(|table|, i requires 0 <= i < |table| => if table[i].rid == rid then f(table[i]) else table[i])
  }

  /** `UPDATE <standing-order table of kind> SET ... WHERE rid = %s` on a state. */
  function Recorded(s: State, kind: OrderKind, rid: int, f: StandingOrder -> StandingOrder): State
  {
    WithTable(s, kind, PatchOrder(Table(s, kind), rid, f))
  }

  /** The auto-increment id of the next trade row: above every stored id. */
  function NextTradeRid(table: seq<Trade>): (r: int)
    ensures forall i :: 0 <= i < |table| ==> table[i].rid < r
    ensures r >= 1
    decreases |table|
  {
    if table == [] then 1
    else
      var rest := NextTradeRid(table[1..]);
      assert forall i :: 1 <= i < |table| ==> table[i] == table[1..][i - 1];
      if table[0].rid + 1 > rest then table[0].rid + 1 else rest
  }

  /** The auto-increment id of the next standing-order row. */
  function NextOrderRid(table: seq<StandingOrder>): (r: int)
    ensures forall i :: 0 <= i < |table| ==> table[i].rid < r
    ensures r >= 1
    decreases |table|
  {
    if table == [] then 1
    else
      var rest := NextOrderRid(table[1..]);
      assert forall i :: 1 <= i < |table| ==> table[i] == table[1..][i - 1];
      if table[0].rid + 1 > rest then table[0].rid + 1 else rest
  }

  class Db {
    var trades: seq<Trade>
    var packages: seq<Package>
    var platforms: seq<Platform>
    var orders: seq<PlatformOrder>
    var trusteeship: seq<StandingOrder>
    var bishu: seq<StandingOrder>
    var bots: seq<Bot>
    var sent: seq<Request>
    var notices: seq<Notice>

    function Snap(): State
      reads this
    {
      State(trades, packages, platforms, orders, trusteeship, bishu, bots, sent, notices)
    }

    constructor (s: State)
      ensures Snap() == s
    {
      trades, packages, platforms, orders := s.trades, s.packages, s.platforms, s.orders;
      trusteeship, bishu, bots := s.trusteeship, s.bishu, s.bots;
      sent, notices := s.sent, s.notices;
    }

    /** `SELECT * FROM <standing-order table>` */
    function OrderTable(kind: OrderKind): (t: seq<StandingOrder>)
      reads this
      ensures t == Table(Snap(), kind)
    {
      match kind
      case Trusteeship => trusteeship
      case Bishu => bishu
    }

    method UpdateTrade(rid: int, f: Trade -> Trade)
      modifies this
      ensures Snap() == old(Snap()).(trades := PatchTrade(old(trades), rid, f))
    {
      trades := PatchTrade(trades, rid, f);
    }

    method InsertTrade(t: Trade)
      modifies this
      ensures Snap() == old(Snap()).(trades := old(trades) + [t])
    {
      trades := trades + [t];
    }

    method UpdateOrder(kind: OrderKind, rid: int, f: StandingOrder -> StandingOrder)
      modifies this
      ensures Snap() == Recorded(old(Snap()), kind, rid, f)
    {
      match kind
      case Trusteeship => trusteeship := PatchOrder(trusteeship, rid, f);
      case Bishu => bishu := PatchOrder(bishu, rid, f);
    }

    method InsertOrder(kind: OrderKind, o: StandingOrder)
      modifies this
      ensures Snap() == WithTable(old(Snap()), kind, Table(old(Snap()), kind) + [o])
    {
      match kind
      case Trusteeship => trusteeship := trusteeship + [o];
      case Bishu => bishu := bishu + [o];
    }

    method InsertPlatformOrder(row: PlatformOrder)
      modifies this
      ensures Snap() == old(Snap()).(orders := old(orders) + [row])
    {
      orders := orders + [row];
    }

    /** Records the requests an outbound call sent. */
    method Send(reqs: seq<Request>)
      modifies this
      ensures Snap() == old(Snap()).(sent := old(sent) + reqs)
    {
      sent := sent + reqs;
    }

    method Notify(n: Notice)
      modifies this
      ensures Snap() == old(Snap()).(notices := old(notices) + [n])
    {
      notices := notices + [n];
    }
  }
}
