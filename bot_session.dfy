/** The Telegram front end's own logic: the TRON address check, the per-user conversation
    state (`user_states`), the wallet-address dialogue with the bishu registration it leads to,
    and the routing of inline-button data to handlers.  Message texts and keyboards are not
    modelled; a reply is the kind of answer the user gets. */
module BotSession {
  import opened Common
  import opened Records
  import opened Queries
  import opened Store
  import opened Utils
  import TrxOrders
  import StandingOrders

  // ---------------------------------------------------------------- addresses and text

  /** `_is_valid_tron_address`: non-empty, starts with 'T', 34 characters, all letters or digits.
      An accepted address is displayed masked to 20 characters starting with 'T'. */
  predicate IsValidTronAddress(a: string)
    ensures IsValidTronAddress(a) ==> |a| == 34 && |FormatAddress(a)| == 20 && FormatAddress(a)[0] == 'T'
  {
    a != [] && a[0] == 'T' && |a| == 34 && forall i :: 0 <= i < |a| ==> IsAsciiAlnum(a[i])
  }

  /** The characters `str.strip()` removes (its ASCII ones). */
  predicate IsSpace(c: char)
  {
    c == ' ' || c == '\t' || c == '\n' || c == '\r' || c == 11 as char || c == 12 as char
  }

  /** The number of white-space characters the text starts with. */
  function LeadingSpaces(s: string): (n: nat)
    ensures n <= |s|
    ensures forall k :: 0 <= k < n ==> IsSpace(s[k])
    ensures n < |s| ==> !IsSpace(s[n])
  {
    if s == [] || !IsSpace(s[0]) then 0
    else
      var n := LeadingSpaces(s[1..]);
      assert forall k :: 1 <= k <= n ==> s[k] == s[1..][k - 1];
      1 + n
  }

  /** The number of white-space characters the text ends with. */
  function TrailingSpaces(s: string): (n: nat)
    ensures n <= |s|
    ensures forall k :: |s| - n <= k < |s| ==> IsSpace(s[k])
    ensures n < |s| ==> !IsSpace(s[|s| - n - 1])
  {
    if s == [] || !IsSpace(s[|s| - 1]) then 0
    else
      var n := TrailingSpaces(s[..|s| - 1]);
      assert forall k :: |s| - 1 - n <= k < |s| - 1 ==> s[k] == s[..|s| - 1][k];
      1 + n
  }

  /** `text.strip()`: the text without its leading and trailing white space; what is left
      starts and ends with a character that is not white space. */
  function Strip(s: string): (r: string)
    ensures |r| <= |s|
    ensures r != [] ==> !IsSpace(r[0]) && !IsSpace(r[|r| - 1])
    ensures (forall k :: 0 <= k < |s| ==> IsSpace(s[k])) ==> r == []
    ensures exists i, j :: 0 <= i <= j <= |s| && r == s[i..j]
                           && (forall k :: 0 <= k < i ==> IsSpace(s[k]))
                           && (forall k :: j <= k < |s| ==> IsSpace(s[k]))
  {
    var a := LeadingSpaces(s);
    var t := s[a..];
    var b := |t| - TrailingSpaces(t);
    assert t[..b] == s[a..a + b];
    assert forall k :: a + b <= k < |s| ==> s[k] == t[k - a];
    t[..b]
  }

  // ---------------------------------------------------------------- conversation state

  const WAITING_ADDRESS := "waiting_wallet_address"
  const BUY_ENERGY := "buy_energy"
  const SETUP_BISHU := "setup_bishu"
  const SETUP_TRUSTEESHIP := "setup_trusteeship"

  /** One entry of `user_states`: what the bot waits for and what it will do with it. */
  datatype UserState = UserState(state: string, action: string)

  /** The answer a user gets. */
  datatype BotReply =
    | InvalidAddress               // the address fails the format check
    | AlreadyRegistered            // the wallet already has a bishu row
    | BishuRegistered(shown: string)
    | PurchaseReceived(shown: string)
    | UnknownActionType            // "❌ 未知操作类型"
    | HandlerMissing               // the action names a handler the bot does not define
    | Ignored                      // a state other than waiting for an address
    | ToMenu(text: string)         // no state: the text goes to the keyboard menus

  // ---------------------------------------------------------------- bishu registration

  /** The row `_setup_bishu` inserts; the columns it leaves out keep their defaults. */
  function RegisteredRow(rid: int, uid: int, address: string, date: string): StandingOrder
  {
    BlankOrder(rid, address).(botRid := 1, tgUid := IntToString(uid), perBishu := 50000, maxBuy := 1000,
                              isBuy := "N", status := 0, currentEnergy := 0, totalBuy := 0,
                              totalBuyUsdt := 0, isNotice := "Y", createTime := date)
  }

  /** Remaining bishu uses, as the status pages show them. */
  function RemainingBishu(o: StandingOrder): int
  {
    o.maxBuy - o.totalBuy
  }

  /** `_setup_bishu` with the lookup answering "not registered" when no row exists: a
      registered wallet is refused and nothing is written; otherwise exactly one idle row with
      1000 uses of 50000 energy is appended to the bishu table and nothing else changes. */
  function SetupBishuSpec(s: State, uid: int, address: string, date: string): (r: (State, BotReply))
    ensures FindByWallet(s.bishu, address).Some? ==> r == (s, AlreadyRegistered)
    ensures FindByWallet(s.bishu, address).None? ==>
              r.1 == BishuRegistered(FormatAddress(address))
              && |r.0.bishu| == |s.bishu| + 1
              && r.0 == s.(bishu := s.bishu + [r.0.bishu[|s.bishu|]])
              && var row := r.0.bishu[|s.bishu|];
                 row.walletAddr == address && row.tgUid == IntToString(uid)
                 && row.isBuy == "N" && row.totalBuy == 0 && row.maxBuy == 1000 && row.perBishu == 50000
                 && RemainingBishu(row) == 1000
                 && forall i :: 0 <= i < |s.bishu| ==> s.bishu[i].rid < row.rid
  {
    match FindByWallet(s.bishu, address)
    case Some(_) => (s, AlreadyRegistered)
    case None =>
      (WithTable(s, Bishu, s.bishu + [RegisteredRow(NextOrderRid(s.bishu), uid, address, date)]),
       BishuRegistered(FormatAddress(address)))
  }

  /** A wallet is registered at most once: after a registration the same address is refused. */
  lemma SetupBishuOnce(s: State, uid: int, uid2: int, address: string, date: string, date2: string)
    requires FindByWallet(s.bishu, address).None?
    ensures var s1 := SetupBishuSpec(s, uid, address, date).0;
            FindByWallet(s1.bishu, address) == Some(s1.bishu[|s.bishu|])
            && SetupBishuSpec(s1, uid2, address, date2) == (s1, AlreadyRegistered)
  {
    var s1 := SetupBishuSpec(s, uid, address, date).0;
    TrxOrders.FindAfterAppend(s.bishu, s1.bishu[|s.bishu|], address);
  }

  /** `_setup_bishu` as written: `get_by_wallet_addr` hands back a row for every address.
      The test is whether a row came back, so every registration is refused. */
  function SetupBishuAsWritten(s: State, uid: int, address: string, date: string): (r: (State, BotReply))
    ensures r == (s, AlreadyRegistered)
  {
    var existing: Option<StandingOrder> := Some(ByWalletAsWritten(s.bishu, address));
    if existing.Some? then (s, AlreadyRegistered)
    else SetupBishuSpec(s, uid, address, date)
  }

  /** With no bishu rows at all, the code as written still refuses a valid address, where the
      lookup without the stand-in lets it register. */
  lemma SetupBishuNeverRegisters(s: State, uid: int, address: string, date: string)
    requires s.bishu == [] && IsValidTronAddress(address)
    ensures SetupBishuAsWritten(s, uid, address, date).1 == AlreadyRegistered
    ensures SetupBishuSpec(s, uid, address, date).1 == BishuRegistered(FormatAddress(address))
    ensures |SetupBishuSpec(s, uid, address, date).0.bishu| == 1
  {
  }

  /** How the remaining count moves: a USDT credit adds the whole USDT paid, a delivered bishu
      purchase takes one. */
  lemma RemainingBishuMoves(w: StandingOrder, amount: int, date: string)
    ensures RemainingBishu(TrxOrders.CreditSetter(w, amount)(w)) == RemainingBishu(w) + TruncDiv(amount, MICRO)
    ensures RemainingBishu(StandingOrders.PurchaseSetter(w, Bishu, date)(w)) == RemainingBishu(w) - 1
  {
  }

  // ---------------------------------------------------------------- text messages

  /** The whole effect of one text message: new states, new store, reply. */
  datatype Outcome = Outcome(states: map<int, UserState>, db: State, reply: BotReply)

  /** `_handle_wallet_address_input`: an invalid address is answered and the state kept; an
      action whose handler does not exist raises before the state is removed; any other
      action is carried out and the state removed.  Only `setup_bishu` writes the store. */
  function AddressInputSpec(states: map<int, UserState>, s: State, uid: int, address: string,
                            action: string, date: string): (o: Outcome)
    ensures !IsValidTronAddress(address) ==> o == Outcome(states, s, InvalidAddress)
    ensures IsValidTronAddress(address) && action != SETUP_TRUSTEESHIP ==>
              o.states == states - {uid}
              && (action == SETUP_BISHU ==> (o.db, o.reply) == SetupBishuSpec(s, uid, address, date))
              && (action == BUY_ENERGY ==> o.db == s && o.reply == PurchaseReceived(FormatAddress(address)))
              && (action != SETUP_BISHU && action != BUY_ENERGY ==> o.db == s && o.reply == UnknownActionType)
    ensures IsValidTronAddress(address) && action == SETUP_TRUSTEESHIP ==> o == Outcome(states, s, HandlerMissing)
    ensures o.states == states || o.states == states - {uid}
    ensures o.db == s.(bishu := o.db.bishu)
  {
    if !IsValidTronAddress(address) then Outcome(states, s, InvalidAddress)
    else if action == SETUP_TRUSTEESHIP then Outcome(states, s, HandlerMissing)
    else
      var done :=
        if action == SETUP_BISHU then SetupBishuSpec(s, uid, address, date)
        else if action == BUY_ENERGY then (s, PurchaseReceived(FormatAddress(address)))
        else (s, UnknownActionType);
      Outcome(states - {uid}, done.0, done.1)
  }

  /** `_handle_text_message`: while a user has a state, the text never reaches the menus; it is
      an address when the state waits for one and is ignored otherwise.  Other users' states
      are never touched, and the store changes only by the bishu table. */
  function TextSpec(states: map<int, UserState>, s: State, uid: int, raw: string, date: string): (o: Outcome)
    ensures uid !in states ==> o == Outcome(states, s, ToMenu(Strip(raw)))
    ensures uid in states ==> !o.reply.ToMenu?
    ensures uid in states && states[uid].state != WAITING_ADDRESS ==> o == Outcome(states, s, Ignored)
    ensures uid in states && states[uid].state == WAITING_ADDRESS ==>
              o == AddressInputSpec(states, s, uid, Strip(raw), states[uid].action, date)
    ensures forall u :: u != uid ==> (u in o.states <==> u in states)
    ensures forall u :: u != uid && u in states ==> o.states[u] == states[u]
    ensures o.db == s.(bishu := o.db.bishu)
  {
    if uid in states then
      if states[uid].state == WAITING_ADDRESS then AddressInputSpec(states, s, uid, Strip(raw), states[uid].action, date)
      else Outcome(states, s, Ignored)
    else Outcome(states, s, ToMenu(Strip(raw)))
  }

  // ---------------------------------------------------------------- inline-button routing

  /** The handler an inline button's data selects. */
  datatype Route = BuyBishu(count: nat) | Handler(key: string) | UnknownOperation

  /** `BISHA_CONFIG['available_packages']` */
  const PACKAGES: seq<nat> := [15, 20, 30, 50, 100, 200, 300, 500]

  /** The fixed keys of the routing table. */
  const NAMED_KEYS: seq<string> :=
    ["check_bishu_status", "contact_admin", "back_to_main", "energy_rent", "bishu_package", "my_status",
     "manual_buy", "cancel", "refresh_status", "admin_stats", "admin_config", "admin_trades", "admin_errors"]

  function BishuKey(n: nat): (k: string)
    ensures |k| >= 10 && k[..4] == "buy_"
  {
    "buy_" + NatToString(n) + "_bishu"
  }

  function PackageRoutes(ns: seq<nat>): (t: seq<(string, Route)>)
    ensures |t| == |ns|
    ensures forall i :: 0 <= i < |ns| ==> t[i] == (BishuKey(ns[i]), BuyBishu(ns[i]))
  {
    seq(|ns|, i requires 0 <= i < |ns| => (BishuKey(ns[i]), BuyBishu(ns[i])))
  }

  function NamedRoutes(ks: seq<string>): (t: seq<(string, Route)>)
    ensures |t| == |ks|
    ensures forall i :: 0 <= i < |ks| ==> t[i] == (ks[i], Handler(ks[i]))
  {
    seq(|ks|, i requires 0 <= i < |ks| => (ks[i], Handler(ks[i])))
  }

  /** `handlers.get(callback_data)`: the route of the first entry with that key, or none. */
  function Lookup(table: seq<(string, Route)>, key: string): (r: Route)
    ensures (forall i :: 0 <= i < |table| ==> table[i].0 != key) ==> r == UnknownOperation
    ensures (exists i :: 0 <= i < |table| && table[i].0 == key) ==>
              exists i :: 0 <= i < |table| && table[i] == (key, r) && forall j :: 0 <= j < i ==> table[j].0 != key
    decreases |table|
  {
    if table == [] then UnknownOperation
    else if table[0].0 == key then table[0].1
    else
      var r := Lookup(table[1..], key);
      assert forall i :: 1 <= i < |table| ==> table[i] == table[1..][i - 1];
      assert (exists i :: 0 <= i < |table| && table[i].0 == key) ==> exists i :: 0 <= i < |table[1..]| && table[1..][i].0 == key by {
        if i :| 0 <= i < |table| && table[i].0 == key {
          assert table[1..][i - 1].0 == key;
        }
      }
      r
  }

  /** The routing table as written: package keys, then the named keys. */
  function RoutingTable(): seq<(string, Route)>
  {
    PackageRoutes(PACKAGES) + NamedRoutes(NAMED_KEYS)
  }

  /** The routing table with the registration button's `setup_bishu` data routed to the
      registration prompt, whose handler exists. */
  function RoutingTableFixed(): seq<(string, Route)>
  {
    RoutingTable() + [(SETUP_BISHU, Handler(SETUP_BISHU))]
  }

  /** Each entry of the table as written pairs a package key with its package, or a named key
      with its own handler. */
  lemma RoutingTableEntries()
    ensures forall i :: 0 <= i < |RoutingTable()| ==> RouteOfKey(RoutingTable()[i].0, RoutingTable()[i].1)
  {
    var t := RoutingTable();
    forall i | 0 <= i < |t|
      ensures RouteOfKey(t[i].0, t[i].1)
    {
      if i < |PACKAGES| {
        assert PACKAGES[i] in PACKAGES;
      } else {
        assert NAMED_KEYS[i - |PACKAGES|] in NAMED_KEYS;
      }
    }
  }

  /** The route a key of the table as written stands for. */
  predicate RouteOfKey(key: string, r: Route)
  {
    (r.BuyBishu? && r.count in PACKAGES && key == BishuKey(r.count))
    || (r.Handler? && r.key == key && key in NAMED_KEYS)
  }

  /** `_handle_callback`: the handler for the button data, by the table as written. Data that
      is no key of the table is an unknown operation; a key gets the route it stands for. */
  function RouteCallbackAsWritten(data: string): (r: Route)
    ensures r == UnknownOperation <==> forall i :: 0 <= i < |RoutingTable()| ==> RoutingTable()[i].0 != data
    ensures r != UnknownOperation ==> RouteOfKey(data, r)
  {
    RoutingTableEntries();
    Lookup(RoutingTable(), data)
  }

  /** The handler for the button data, by the table that also routes `setup_bishu`. */
  function RouteCallback(data: string): (r: Route)
    ensures r == UnknownOperation <==> forall i :: 0 <= i < |RoutingTableFixed()| ==> RoutingTableFixed()[i].0 != data
    ensures r != UnknownOperation ==> RouteOfKey(data, r) || (data == SETUP_BISHU && r == Handler(SETUP_BISHU))
  {
    RoutingTableEntries();
    Lookup(RoutingTableFixed(), data)
  }

  /** No named key looks like a package key. */
  lemma NamedKeyIsNoPackageKey(k: string, n: nat)
    requires k in NAMED_KEYS
    ensures k != BishuKey(n)
  {
    assert |k| < 4 || k[..4] != "buy_" by {
      assert k[1] != 'u';
    }
  }

  /** A table that starts with the package entries followed by the named entries. */
  predicate StartsWithConfigured(t: seq<(string, Route)>)
  {
    |t| >= |PACKAGES| + |NAMED_KEYS|
    && (forall i :: 0 <= i < |PACKAGES| ==> t[i] == (BishuKey(PACKAGES[i]), BuyBishu(PACKAGES[i])))
    && (forall i :: 0 <= i < |NAMED_KEYS| ==> t[|PACKAGES| + i] == (NAMED_KEYS[i], Handler(NAMED_KEYS[i])))
  }

  lemma NamedKeyRoutesIn(t: seq<(string, Route)>, k: string)
    requires StartsWithConfigured(t) && k in NAMED_KEYS
    ensures Lookup(t, k) == Handler(k)
  {
    var i :| 0 <= i < |NAMED_KEYS| && NAMED_KEYS[i] == k;
    assert t[|PACKAGES| + i].0 == k;
    var r := Lookup(t, k);
    var j :| 0 <= j < |t| && t[j] == (k, r) && forall j' :: 0 <= j' < j ==> t[j'].0 != k;
    forall j' | 0 <= j' < |PACKAGES|
      ensures t[j'].0 != k
    {
      NamedKeyIsNoPackageKey(k, PACKAGES[j']);
    }
    assert |PACKAGES| <= j <= |PACKAGES| + i;
    var m := j - |PACKAGES|;
    assert t[|PACKAGES| + m] == (NAMED_KEYS[m], Handler(NAMED_KEYS[m]));
  }

  /** Different counts have different package keys. */
  lemma BishuKeyInjective(m: nat, n: nat)
    requires BishuKey(m) == BishuKey(n)
    ensures m == n
  {
    var km, kn := BishuKey(m), BishuKey(n);
    assert NatToString(m) == km[4..|km| - 6];
    assert NatToString(n) == kn[4..|kn| - 6];
    NatToStringInjective(m, n);
  }

  lemma PackageKeyRoutesIn(t: seq<(string, Route)>, n: nat)
    requires StartsWithConfigured(t) && n in PACKAGES
    ensures Lookup(t, BishuKey(n)) == BuyBishu(n)
  {
    var k := BishuKey(n);
    var i :| 0 <= i < |PACKAGES| && PACKAGES[i] == n;
    assert t[i].0 == k;
    var r := Lookup(t, k);
    var j :| 0 <= j < |t| && t[j] == (k, r) && forall j' :: 0 <= j' < j ==> t[j'].0 != k;
    assert j <= i;
    BishuKeyInjective(PACKAGES[j], n);
  }

  /** Package data routes to the purchase of its own count. */
  lemma PackageKeyRoutes(n: nat)
    requires n in PACKAGES
    ensures RouteCallbackAsWritten(BishuKey(n)) == BuyBishu(n)
    ensures RouteCallback(BishuKey(n)) == BuyBishu(n)
  {
    PackageKeyRoutesIn(RoutingTable(), n);
    PackageKeyRoutesIn(RoutingTableFixed(), n);
  }

  /** A named key routes to its own handler. */
  lemma NamedKeyRoutes(k: string)
    requires k in NAMED_KEYS
    ensures RouteCallbackAsWritten(k) == Handler(k) && RouteCallback(k) == Handler(k)
  {
    NamedKeyRoutesIn(RoutingTable(), k);
    NamedKeyRoutesIn(RoutingTableFixed(), k);
  }

  /** Data that is no key of the table gets '❌ 未知操作'. */
  lemma UnknownDataRejected(data: string)
    requires data !in NAMED_KEYS && data != SETUP_BISHU
    requires forall n :: n in PACKAGES ==> data != BishuKey(n)
    ensures RouteCallbackAsWritten(data) == UnknownOperation && RouteCallback(data) == UnknownOperation
  {
    var t := RoutingTableFixed();
    forall i | 0 <= i < |t|
      ensures t[i].0 != data
    {
      if i < |PACKAGES| {
        assert PACKAGES[i] in PACKAGES;
      } else if i < |PACKAGES| + |NAMED_KEYS| {
        assert NAMED_KEYS[i - |PACKAGES|] in NAMED_KEYS;
      }
    }
    assert forall i :: 0 <= i < |RoutingTable()| ==> RoutingTable()[i] == t[i];
  }

  /** The `/buyenergy` keyboard's registration button sends `setup_bishu`, which the table as
      written does not route; the fixed table routes it to the registration prompt and routes
      every other data exactly as before. */
  lemma SetupBishuButtonRouted(data: string)
    ensures RouteCallbackAsWritten(SETUP_BISHU) == UnknownOperation
    ensures RouteCallback(SETUP_BISHU) == Handler(SETUP_BISHU)
    ensures data != SETUP_BISHU ==> RouteCallback(data) == RouteCallbackAsWritten(data)
  {
    var t := RoutingTable();
    forall i | 0 <= i < |t|
      ensures t[i].0 != SETUP_BISHU
    {
      if i < |PACKAGES| {
        assert t[i].0[..4] == "buy_";
        assert SETUP_BISHU[..4] == "setu";
      } else {
        assert t[i].0 == NAMED_KEYS[i - |PACKAGES|];
      }
    }
    LookupAppendNew(t, SETUP_BISHU, Handler(SETUP_BISHU));
    if data != SETUP_BISHU {
      LookupAppendOld(t, SETUP_BISHU, Handler(SETUP_BISHU), data);
    }
  }

  /** An entry added at the end of a table does not change the route of any other key. */
  lemma {:induction false} LookupAppendOld(t: seq<(string, Route)>, k: string, h: Route, data: string)
    requires data != k
    ensures Lookup(t + [(k, h)], data) == Lookup(t, data)
    decreases |t|
  {
    if t != [] {
      assert (t + [(k, h)])[1..] == t[1..] + [(k, h)];
      LookupAppendOld(t[1..], k, h, data);
    }
  }

  /** An entry added at the end of a table routes its key when no earlier entry has it. */
  lemma {:induction false} LookupAppendNew(t: seq<(string, Route)>, k: string, h: Route)
    requires forall i :: 0 <= i < |t| ==> t[i].0 != k
    ensures Lookup(t + [(k, h)], k) == h
    decreases |t|
  {
    if t != [] {
      assert (t + [(k, h)])[1..] == t[1..] + [(k, h)];
      assert t[0].0 != k;
      LookupAppendNew(t[1..], k, h);
    }
  }

  /** The state change a routed button causes: the registration prompt sets the waiting state,
      cancel removes it, every other handler leaves the states alone. */
  function CallbackStates(states: map<int, UserState>, uid: int, route: Route): (m: map<int, UserState>)
    ensures route == Handler("bishu_package") || route == Handler(SETUP_BISHU) ==>
              m == states[uid := UserState(WAITING_ADDRESS, SETUP_BISHU)]
    ensures route == Handler("cancel") ==> m == states - {uid}
    ensures forall u :: u != uid ==> (u in m <==> u in states) && (u in m ==> m[u] == states[u])
  {
    match route
    case Handler(k) =>
      if k == "bishu_package" || k == SETUP_BISHU then states[uid := UserState(WAITING_ADDRESS, SETUP_BISHU)]
      else if k == "cancel" then states - {uid}
      else states
    case _ => states
  }

  // ---------------------------------------------------------------- the bot object

  /** The bot's per-user dialogue state, updated in place by its handlers. */
  class Session {
    var states: map<int, UserState>

    constructor ()
      ensures states == map[]
    {
      states := map[];
    }

    /** `/buyenergy` */
    method BuyEnergy(uid: int)
      modifies this
      ensures states == old(states)[uid := UserState(WAITING_ADDRESS, BUY_ENERGY)]
    {
      states := states[uid := UserState(WAITING_ADDRESS, BUY_ENERGY)];
    }

    /** `_callback_setup_bishu` and `_callback_setup_bishu_via_message` */
    method SetupBishuPrompt(uid: int)
      modifies this
      ensures states == old(states)[uid := UserState(WAITING_ADDRESS, SETUP_BISHU)]
    {
      states := states[uid := UserState(WAITING_ADDRESS, SETUP_BISHU)];
    }

    /** `_callback_cancel`, `_handle_cancel_setup`, `_handle_cancel_wallet_status_query`: the
        state goes if present; without one nothing changes. */
    method Cancel(uid: int)
      modifies this
      ensures states == old(states) - {uid}
      ensures uid !in old(states) ==> states == old(states)
    {
      if uid in states {
        states := states - {uid};
      }
    }

    /** `_handle_callback` with the fixed routing table. */
    method Callback(uid: int, data: string) returns (route: Route)
      modifies this
      ensures route == RouteCallback(data)
      ensures states == CallbackStates(old(states), uid, route)
    {
      route := RouteCallback(data);
      if route == Handler("bishu_package") || route == Handler(SETUP_BISHU) {
        SetupBishuPrompt(uid);
      } else if route == Handler("cancel") {
        Cancel(uid);
      }
    }

    /** `_setup_bishu` */
    method SetupBishu(db: Db, uid: int, address: string, date: string) returns (reply: BotReply)
      modifies db
      ensures (db.Snap(), reply) == SetupBishuSpec(old(db.Snap()), uid, address, date)
    {
      var existing := FindByWallet(db.bishu, address);
      if existing.Some? {
        return AlreadyRegistered;
      }
      db.InsertOrder(Bishu, RegisteredRow(NextOrderRid(db.bishu), uid, address, date));
      reply := BishuRegistered(FormatAddress(address));
    }

    /** `_handle_wallet_address_input` */
    method AddressInput(db: Db, uid: int, address: string, action: string, date: string) returns (reply: BotReply)
      modifies this, db
      ensures var o := AddressInputSpec(old(states), old(db.Snap()), uid, address, action, date);
              states == o.states && db.Snap() == o.db && reply == o.reply
    {
      if !IsValidTronAddress(address) {
        return InvalidAddress;
      }
      if action == SETUP_TRUSTEESHIP {
        return HandlerMissing;
      } else if action == SETUP_BISHU {
        reply := SetupBishu(db, uid, address, date);
      } else if action == BUY_ENERGY {
        reply := PurchaseReceived(FormatAddress(address));
      } else {
        reply := UnknownActionType;
      }
      if uid in states {
        states := states - {uid};
      }
    }

    /** `_handle_text_message` */
    method HandleText(db: Db, uid: int, raw: string, date: string) returns (reply: BotReply)
      modifies this, db
      ensures var o := TextSpec(old(states), old(db.Snap()), uid, raw, date);
              states == o.states && db.Snap() == o.db && reply == o.reply
    {
      var text := Strip(raw);
      if uid in states {
        var st := states[uid];
        if st.state == WAITING_ADDRESS {
          reply := AddressInput(db, uid, text, st.action, date);
        } else {
          reply := Ignored;
        }
        return;
      }
      reply := ToMenu(text);
    }
  }
}
