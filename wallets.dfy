/** `EnergyWalletServices`: the receiving wallets the order tasks watch, and the shapes of
    `get_id_list`.  A Python dict is its list of items in insertion order: assigning an
    existing key replaces the value in place, a new key goes to the end. */
module Wallets {
  import opened Common
  import opened Records

  predicate UniqueKeys<K(==), V>(d: seq<(K, V)>)
  {
    forall i, j :: 0 <= i < j < |d| ==> d[i].0 != d[j].0
  }

  function Keys<K(==,!new), V(==,!new)>(d: seq<(K, V)>): set<K>
  {
    set kv | kv in d :: kv.0
  }

  function Values<K(==,!new), V(==,!new)>(d: seq<(K, V)>): set<V>
  {
    set kv | kv in d :: kv.1
  }

  /** `d[k] = v` */
  function Put<K(==), V>(d: seq<(K, V)>, k: K, v: V): (r: seq<(K, V)>)
    ensures |r| == |d| || |r| == |d| + 1
    decreases |d|
  {
    if d == [] then [(k, v)]
    else if d[0].0 == k then [(k, v)] + d[1..]
    else [d[0]] + Put(d[1..], k, v)
  }

  lemma {:induction false} PutKeys<K(!new), V(!new)>(d: seq<(K, V)>, k: K, v: V)
    ensures Keys(Put(d, k, v)) == Keys(d) + {k}
    ensures (k, v) in Put(d, k, v)
    decreases |d|
  {
    var r := Put(d, k, v);
    if d != [] {
      assert forall kv :: kv in d <==> kv == d[0] || kv in d[1..];
      assert Keys(d) == {d[0].0} + Keys(d[1..]);
      if d[0].0 == k {
        assert forall kv :: kv in r <==> kv == (k, v) || kv in d[1..];
      } else {
        PutKeys(d[1..], k, v);
        assert forall kv :: kv in r <==> kv == d[0] || kv in Put(d[1..], k, v);
        assert Keys(r) == {d[0].0} + Keys(Put(d[1..], k, v));
      }
    }
  }

  lemma {:induction false} TailUnique<K, V>(d: seq<(K, V)>)
    requires d != [] && UniqueKeys(d)
    ensures UniqueKeys(d[1..])
    ensures forall i :: 0 <= i < |d[1..]| ==> d[1..][i].0 != d[0].0
  {
    forall i, j | 0 <= i < j < |d[1..]| ensures d[1..][i].0 != d[1..][j].0 {
      assert d[1..][i] == d[i + 1] && d[1..][j] == d[j + 1];
    }
    forall i | 0 <= i < |d[1..]| ensures d[1..][i].0 != d[0].0 {
      assert d[1..][i] == d[i + 1];
    }
  }

  /** Assignment keeps a dict's keys distinct; every other entry is an old one under another key. */
  lemma {:induction false} PutEntries<K, V>(d: seq<(K, V)>, k: K, v: V)
    requires UniqueKeys(d)
    ensures UniqueKeys(Put(d, k, v))
    ensures forall i :: 0 <= i < |Put(d, k, v)| ==>
              (Put(d, k, v)[i] == (k, v) || (Put(d, k, v)[i] in d && Put(d, k, v)[i].0 != k))
    decreases |d|
  {
    var r := Put(d, k, v);
    if d != [] {
      TailUnique(d);
      if d[0].0 == k {
        assert forall i :: 1 <= i < |r| ==> r[i] == d[1..][i - 1] && r[i] in d;
      } else {
        PutEntries(d[1..], k, v);
        var rest := Put(d[1..], k, v);
        assert forall i :: 1 <= i < |r| ==> r[i] == rest[i - 1];
        assert forall i :: 0 <= i < |rest| ==> rest[i].0 != d[0].0;
        assert forall kv :: kv in d[1..] ==> kv in d;
      }
    }
  }

  /** `get_list`'s filter: enabled bots with a full-length (34-character) receiving wallet. */
  predicate Watched(b: Bot)
  {
    b.status == 0 && |b.receiveWallet| == 34
  }

  /** The rids of the watched bots among `rows`. */
  function WatchedRids(rows: seq<Bot>): set<int>
  {
    set b | b in rows && Watched(b) :: b.rid
  }

  /** `get_list`: the watched bots keyed by rid; for a repeated rid the last row wins. */
  function ActiveBots(rows: seq<Bot>): (d: seq<(int, Bot)>)
    ensures UniqueKeys(d)
    ensures Keys(d) == WatchedRids(rows)
    ensures forall i :: 0 <= i < |d| ==> d[i].1 in rows && Watched(d[i].1) && d[i].0 == d[i].1.rid
  {
    CollectBots([], rows)
  }

  function CollectBots(acc: seq<(int, Bot)>, rows: seq<Bot>): (d: seq<(int, Bot)>)
    requires UniqueKeys(acc)
    ensures UniqueKeys(d)
    ensures Keys(d) == Keys(acc) + WatchedRids(rows)
    ensures forall i :: 0 <= i < |d| ==> d[i] in acc || (d[i].1 in rows && Watched(d[i].1) && d[i].0 == d[i].1.rid)
    decreases |rows|
  {
    if rows == [] then acc
    else
      var b := rows[0];
      var acc' := if Watched(b) then Put(acc, b.rid, b) else acc;
      PutKeys(acc, b.rid, b);
      PutEntries(acc, b.rid, b);
      assert forall x :: x in rows <==> x == b || x in rows[1..];
      assert WatchedRids(rows) == (if Watched(b) then {b.rid} else {}) + WatchedRids(rows[1..]);
      CollectBots(acc', rows[1..])
  }

  /** The four shapes of `get_id_list(return_type)`. */
  datatype IdList =
    | RidToWallet(byRid: seq<(int, string)>)     // 1
    | WalletToBot(byWallet: seq<(string, Bot)>)  // 2
    | BotList(bots: seq<Bot>)                    // 3
    | RidWalletPairs(pairs: seq<(int, string)>)  // anything else

  /** The wallets of the bots in `d`. */
  function WalletsOf(d: seq<(int, Bot)>): set<string>
  {
    set kv | kv in d :: kv.1.receiveWallet
  }

  /** The bots re-keyed by receiving wallet: for a wallet shared by several
      bots the last one wins, at the position of the first. */
  function ByWallet(d: seq<(int, Bot)>): (r: seq<(string, Bot)>)
    ensures UniqueKeys(r)
    ensures Keys(r) == WalletsOf(d)
    ensures forall i :: 0 <= i < |r| ==> r[i].0 == r[i].1.receiveWallet && r[i].1 in Values(d)
    ensures forall i :: 0 <= i < |r| ==> LastWith(d, r[i].0, r[i].1)
    ensures KeySeq(r) == FirstSeen([], ReceiveWallets(d))
  {
    WalletsFromLast([], d);
    WalletsFromOrder([], d);
    WalletsFrom([], d)
  }

  function WalletsFrom(acc: seq<(string, Bot)>, d: seq<(int, Bot)>): (r: seq<(string, Bot)>)
    requires UniqueKeys(acc)
    ensures UniqueKeys(r)
    ensures Keys(r) == Keys(acc) + WalletsOf(d)
    ensures forall i :: 0 <= i < |r| ==> r[i] in acc || (r[i].0 == r[i].1.receiveWallet && r[i].1 in Values(d))
    decreases |d|
  {
    if d == [] then acc
    else
      var b := d[0].1;
      var acc' := Put(acc, b.receiveWallet, b);
      PutKeys(acc, b.receiveWallet, b);
      PutEntries(acc, b.receiveWallet, b);
      assert forall x :: x in d <==> x == d[0] || x in d[1..];
      assert WalletsOf(d) == {b.receiveWallet} + WalletsOf(d[1..]);
      assert Values(d) == {b} + Values(d[1..]);
      WalletsFrom(acc', d[1..])
  }

  /** `b` is the last bot of `d` receiving at `w`. */
  predicate LastWith(d: seq<(int, Bot)>, w: string, b: Bot)
  {
    b.receiveWallet == w
    && exists j :: 0 <= j < |d| && d[j].1 == b && forall j' :: j < j' < |d| ==> d[j'].1.receiveWallet != w
  }

  /** A dict's keys in its order. */
  function KeySeq<K, V>(d: seq<(K, V)>): (ks: seq<K>)
    ensures |ks| == |d| && forall i :: 0 <= i < |d| ==> ks[i] == d[i].0
  {
    seq(|d|, i requires 0 <= i < |d| => d[i].0)
  }

  /** The receiving wallets of `d`, in order, repeats included. */
  function ReceiveWallets(d: seq<(int, Bot)>): (ws: seq<string>)
    ensures |ws| == |d| && forall i :: 0 <= i < |d| ==> ws[i] == d[i].1.receiveWallet
  {
    seq(|d|, i requires 0 <= i < |d| => d[i].1.receiveWallet)
  }

  /** `seen` followed by the items of `ws` not met before, each at its first appearance. */
  function FirstSeen<T(==)>(seen: seq<T>, ws: seq<T>): seq<T>
    decreases |ws|
  {
    if ws == [] then seen
    else FirstSeen(if ws[0] in seen then seen else seen + [ws[0]], ws[1..])
  }

  /** Assigning an existing key keeps the key order; a new key goes to the end. */
  lemma {:induction false} PutKeySeq<K, V>(d: seq<(K, V)>, k: K, v: V)
    ensures KeySeq(Put(d, k, v)) == if k in KeySeq(d) then KeySeq(d) else KeySeq(d) + [k]
    decreases |d|
  {
    if d != [] {
      assert KeySeq(d) == [d[0].0] + KeySeq(d[1..]);
      if d[0].0 == k {
        assert KeySeq(Put(d, k, v)) == [k] + KeySeq(d[1..]);
      } else {
        PutKeySeq(d[1..], k, v);
        assert KeySeq(Put(d, k, v)) == [d[0].0] + KeySeq(Put(d[1..], k, v));
      }
    }
  }

  /** The wallets are keyed in the order they first appear. */
  lemma {:induction false} WalletsFromOrder(acc: seq<(string, Bot)>, d: seq<(int, Bot)>)
    requires UniqueKeys(acc)
    ensures KeySeq(WalletsFrom(acc, d)) == FirstSeen(KeySeq(acc), ReceiveWallets(d))
    decreases |d|
  {
    if d != [] {
      var b := d[0].1;
      PutKeySeq(acc, b.receiveWallet, b);
      PutEntries(acc, b.receiveWallet, b);
      assert ReceiveWallets(d)[1..] == ReceiveWallets(d[1..]);
      WalletsFromOrder(Put(acc, b.receiveWallet, b), d[1..]);
    }
  }

  /** Each wallet of `d` ends up with the last bot of `d` receiving there; the other entries
      are those of `acc`. */
  lemma {:induction false} WalletsFromLast(acc: seq<(string, Bot)>, d: seq<(int, Bot)>)
    requires UniqueKeys(acc)
    ensures var r := WalletsFrom(acc, d);
            forall i :: 0 <= i < |r| ==>
              (r[i].0 in WalletsOf(d) ==> LastWith(d, r[i].0, r[i].1))
              && (r[i].0 !in WalletsOf(d) ==> r[i] in acc)
    decreases |d|
  {
    if d != [] {
      var b := d[0].1;
      var w := b.receiveWallet;
      var acc' := Put(acc, w, b);
      PutEntries(acc, w, b);
      WalletsFromLast(acc', d[1..]);
      assert forall x :: x in d <==> x == d[0] || x in d[1..];
      assert WalletsOf(d) == {w} + WalletsOf(d[1..]);
      var r := WalletsFrom(acc, d);
      assert r == WalletsFrom(acc', d[1..]);
      forall i | 0 <= i < |r|
        ensures r[i].0 in WalletsOf(d) ==> LastWith(d, r[i].0, r[i].1)
        ensures r[i].0 !in WalletsOf(d) ==> r[i] in acc
      {
        if r[i].0 in WalletsOf(d[1..]) {
          assert LastWith(d[1..], r[i].0, r[i].1);
          var j :| 0 <= j < |d[1..]| && d[1..][j].1 == r[i].1
                   && forall j' :: j < j' < |d[1..]| ==> d[1..][j'].1.receiveWallet != r[i].0;
          assert d[j + 1].1 == r[i].1;
          forall j' | j + 1 < j' < |d| ensures d[j'].1.receiveWallet != r[i].0 {
            assert d[j'] == d[1..][j' - 1];
          }
        } else if r[i].0 == w {
          assert r[i] in acc';
          assert r[i] == (w, b);
          forall j' | 0 < j' < |d| ensures d[j'].1.receiveWallet != w {
            assert d[j'] in d[1..];
          }
        } else {
          assert r[i] in acc';
        }
      }
    }
  }

  /** `get_id_list(return_type)` over the result of `get_list`. */
  function IdListOf(returnType: int, d: seq<(int, Bot)>): (r: IdList)
    ensures returnType == 1 ==> r.RidToWallet? && |r.byRid| == |d|
                                && forall i :: 0 <= i < |d| ==> r.byRid[i] == (d[i].0, d[i].1.receiveWallet)
    ensures returnType == 2 ==> r.WalletToBot? && UniqueKeys(r.byWallet) && Keys(r.byWallet) == WalletsOf(d)
                                && forall i :: 0 <= i < |r.byWallet| ==>
                                     r.byWallet[i].0 == r.byWallet[i].1.receiveWallet && r.byWallet[i].1 in Values(d)
    ensures returnType == 3 ==> r.BotList?
                                && forall b :: b in r.bots <==> b in Values(d) && (b.status == 0 || b.status == 2)
    ensures returnType !in {1, 2, 3} ==>
              r.RidWalletPairs? && |r.pairs| == |d|
              && forall i :: 0 <= i < |d| ==> r.pairs[i] == (d[i].1.rid, d[i].1.receiveWallet)
  {
    if returnType == 1 then RidToWallet(seq(|d|, i requires 0 <= i < |d| => (d[i].0, d[i].1.receiveWallet)))
    else if returnType == 2 then WalletToBot(ByWallet(d))
    else if returnType == 3 then
      var vs := seq(|d|, i requires 0 <= i < |d| => d[i].1);
      assert forall b :: b in vs <==> b in Values(d) by {
        forall b ensures b in vs <==> b in Values(d) {
          if b in vs {
            var i :| 0 <= i < |vs| && vs[i] == b;
            assert d[i] in d;
          }
          if b in Values(d) {
            var kv :| kv in d && kv.1 == b;
            var i :| 0 <= i < |d| && d[i] == kv;
            assert vs[i] == b;
          }
        }
      }
      BotList(Filter(vs, (b: Bot) => b.status == 0 || b.status == 2))
    else RidWalletPairs(seq(|d|, i requires 0 <= i < |d| => (d[i].1.rid, d[i].1.receiveWallet)))
  }

  /** `get_id_list(3)` keeps every bot of `get_list`: its status test can never fail, since
      `get_list` keeps status-0 bots only. */
  lemma {:induction false} ActiveListKeepsAll(rows: seq<Bot>)
    ensures var d := ActiveBots(rows);
            IdListOf(3, d) == BotList(seq(|d|, i requires 0 <= i < |d| => d[i].1))
  {
    var d := ActiveBots(rows);
    var vs := seq(|d|, i requires 0 <= i < |d| => d[i].1);
    assert forall i :: 0 <= i < |vs| ==> d[i] in d && Watched(vs[i]);
    FilterKeepsAll(vs, (b: Bot) => b.status == 0 || b.status == 2);
  }

  lemma {:induction false} FilterKeepsAll<T(!new)>(s: seq<T>, keep: T -> bool)
    requires forall i :: 0 <= i < |s| ==> keep(s[i])
    ensures Filter(s, keep) == s
    decreases |s|
  {
    if s != [] {
      FilterKeepsAll(s[1..], keep);
    }
  }

  /** The receiving wallets the order tasks walk: the keys of `get_id_list(2)`, with the rid
      of the bot behind each. */
  function WatchedWallets(bots: seq<Bot>): (r: seq<(string, int)>)
    ensures forall i, j :: 0 <= i < j < |r| ==> r[i].0 != r[j].0
    ensures forall i :: 0 <= i < |r| ==> |r[i].0| == 34
    ensures forall i :: 0 <= i < |r| ==>
              exists b :: b in bots && Watched(b) && b.rid == r[i].1 && b.receiveWallet == r[i].0
    ensures |r| == |ByWallet(ActiveBots(bots))|
    ensures forall i :: 0 <= i < |r| ==> r[i].0 == ByWallet(ActiveBots(bots))[i].0
    ensures forall i :: 0 <= i < |r| ==> exists b :: LastWith(ActiveBots(bots), r[i].0, b) && b.rid == r[i].1
    ensures KeySeq(r) == FirstSeen([], ReceiveWallets(ActiveBots(bots)))
  {
    WatchedEntries(bots, ByWallet(ActiveBots(bots)));
    RidsOf(ByWallet(ActiveBots(bots)))
  }

  /** The entries of `RidsOf` over the wallet-keyed bots. */
  lemma WatchedEntries(bots: seq<Bot>, m: seq<(string, Bot)>)
    requires m == ByWallet(ActiveBots(bots))
    ensures var r := RidsOf(m);
            (forall i, j :: 0 <= i < j < |r| ==> r[i].0 != r[j].0)
            && (forall i :: 0 <= i < |r| ==> |r[i].0| == 34)
            && (forall i :: 0 <= i < |r| ==>
                  exists b :: b in bots && Watched(b) && b.rid == r[i].1 && b.receiveWallet == r[i].0)
            && (forall i :: 0 <= i < |r| ==> exists b :: LastWith(ActiveBots(bots), r[i].0, b) && b.rid == r[i].1)
            && KeySeq(r) == KeySeq(m)
  {
    ValuesWatched(bots);
    var r := RidsOf(m);
    assert forall i :: 0 <= i < |r| ==> m[i].1 in Values(ActiveBots(bots)) && LastWith(ActiveBots(bots), r[i].0, m[i].1);
  }

  /** Each wallet paired with the rid of the bot filed under it. */
  function RidsOf(m: seq<(string, Bot)>): (r: seq<(string, int)>)
    ensures |r| == |m| && forall i :: 0 <= i < |m| ==> r[i] == (m[i].0, m[i].1.rid)
  {
    seq(|m|, i requires 0 <= i < |m| => (m[i].0, m[i].1.rid))
  }

  /** Every collected bot is an enabled bot of the table. */
  lemma ValuesWatched(bots: seq<Bot>)
    ensures forall b :: b in Values(ActiveBots(bots)) ==> b in bots && Watched(b)
  {
    var d := ActiveBots(bots);
    forall b | b in Values(d) ensures b in bots && Watched(b) {
      var kv :| kv in d && kv.1 == b;
      var i :| 0 <= i < |d| && d[i] == kv;
    }
  }

  /** Rids are the table's primary key, so no two bot rows share one. */
  predicate DistinctRids(bots: seq<Bot>)
  {
    forall i, j :: 0 <= i < j < |bots| ==> bots[i].rid != bots[j].rid
  }

  /** With distinct rids, the row `get_list` keeps for a watched bot's rid is that bot. */
  lemma ActiveBotsKeep(bots: seq<Bot>, b: Bot)
    requires DistinctRids(bots) && b in bots && Watched(b)
    ensures b in Values(ActiveBots(bots))
  {
    var d := ActiveBots(bots);
    assert b.rid in WatchedRids(bots);
    assert b.rid in Keys(d);
    var kv :| kv in d && kv.0 == b.rid;
    var k :| 0 <= k < |d| && d[k] == kv;
    assert kv.1 in bots && kv.1.rid == b.rid;
    var x :| 0 <= x < |bots| && bots[x] == b;
    var y :| 0 <= y < |bots| && bots[y] == kv.1;
    assert x == y;
  }

  /** Every bot kept by `ActiveBots` has its receiving wallet listed. */
  lemma WalletOfKept(d: seq<(int, Bot)>, b: Bot)
    requires b in Values(d)
    ensures exists i :: 0 <= i < |ByWallet(d)| && ByWallet(d)[i].0 == b.receiveWallet
  {
    var kv :| kv in d && kv.1 == b;
    assert b.receiveWallet in WalletsOf(d);
    var m := ByWallet(d);
    assert b.receiveWallet in Keys(m);
    var e :| e in m && e.0 == b.receiveWallet;
    var i :| 0 <= i < |m| && m[i] == e;
  }

  /** With distinct rids, every watched bot's receiving wallet is walked. */
  lemma WatchedWalletsCover(bots: seq<Bot>, b: Bot)
    requires DistinctRids(bots) && b in bots && Watched(b)
    ensures exists i :: 0 <= i < |WatchedWallets(bots)| && WatchedWallets(bots)[i].0 == b.receiveWallet
  {
    ActiveBotsKeep(bots, b);
    WalletOfKept(ActiveBots(bots), b);
    var i :| 0 <= i < |ByWallet(ActiveBots(bots))| && ByWallet(ActiveBots(bots))[i].0 == b.receiveWallet;
    assert WatchedWallets(bots)[i].0 == b.receiveWallet;
  }

}
