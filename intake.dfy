/** `EnergyWalletTradeTrxServices` / `EnergyWalletTradeUsdtServices`: payments to a watched
    wallet are read from the chain explorers page by page; each admissible transfer whose hash
    is not stored yet becomes a pending trade row.

    The explorers are a `Chain`: the reply each page request gets.  The list of stored hashes
    is read once per page, before the page's rows are inserted, as the source does.  Paging is
    bounded by a page budget (`fuel`); see README. */
module Intake {
  import opened Common
  import opened Records
  import opened Queries
  import opened Store

  /** tronscan's page size. */
  const TRX_LIMIT: int := 50
  const AWAITING: string := "待处理"

  /** The fields of a tronscan transfer the intake reads; `amount` in sun. */
  datatype TrxTransfer = TrxTransfer(hash: string, from: string, timestamp: int, amount: int,
                                     contractRet: string, tokenId: string, tokenAbbr: string)

  /** A tronscan page: no body, not JSON, or an object with an optional `total` and its `data`. */
  datatype TrxReply = NoTrxReply | UnparsableTrx | TrxJson(total: Option<int>, data: seq<TrxTransfer>)

  /** The fields of a trongrid TRC-20 transfer the intake reads; `value` in micro-USDT. */
  datatype UsdtTransfer = UsdtTransfer(hash: string, from: string, timestamp: int, value: int, kind: string)

  /** A trongrid page: no body, not JSON, or an object with optional `data` and an optional
      `meta.links.next` link. */
  datatype UsdtReply = NoUsdtReply | UnparsableUsdt | UsdtJson(data: Option<seq<UsdtTransfer>>, next: Option<string>)

  datatype Chain = Chain(trx: Request -> TrxReply, usdt: Request -> UsdtReply)

  /** A transfer as the insert sees it, with the page's verdict on it. */
  datatype Incoming = Incoming(hash: string, from: string, timestamp: int, amount: int, admitted: bool)

  predicate IsAdmitted(x: Incoming)
  {
    x.admitted
  }

  /** `add_wallet_data`: the pending row for a transfer.  Columns the insert does not name
      (bot, poll group, notification flags) take the table defaults, written 0 and "". */
  function NewTrade(rid: int, x: Incoming, coin: string, wallet: string, date: string): Trade
  {
    Trade(rid := rid, txHash := x.hash, fromAddr := x.from, toAddr := wallet, coin := coin,
          amount := x.amount, timestamp := x.timestamp, getTime := date, processStatus := STATUS_PENDING,
          comments := AWAITING, processTime := date, platformRid := None, packageRid := None,
          botRid := 0, pollGroup := "", platformBotRid := 0, noticeReceive := "", noticeSend := "")
  }

  /** The insert loop of `handle_wallet_data`: each admitted transfer, in page order, gets the
      next row id. */
  function AddAdmitted(trades: seq<Trade>, xs: seq<Incoming>, coin: string, wallet: string, date: string): seq<Trade>
    decreases |xs|
  {
    if xs == [] then trades
    else if xs[0].admitted then
      AddAdmitted(trades + [NewTrade(NextTradeRid(trades), xs[0], coin, wallet, date)], xs[1..], coin, wallet, date)
    else AddAdmitted(trades, xs[1..], coin, wallet, date)
  }

  /** The insert loop appends exactly the admitted transfers, in page order, each as a pending
      row under the next auto-increment id, and keeps every stored row. */
  lemma {:induction false} AddAdmittedRows(trades: seq<Trade>, xs: seq<Incoming>, coin: string, wallet: string, date: string)
    ensures var r := AddAdmitted(trades, xs, coin, wallet, date);
            var adm := Filter(xs, IsAdmitted);
            |r| == |trades| + |adm| && r[..|trades|] == trades
            && forall j :: 0 <= j < |adm| ==>
                 r[|trades| + j] == NewTrade(NextTradeRid(r[..|trades| + j]), adm[j], coin, wallet, date)
    decreases |xs|
  {
    if xs != [] {
      var r := AddAdmitted(trades, xs, coin, wallet, date);
      if xs[0].admitted {
        var row := NewTrade(NextTradeRid(trades), xs[0], coin, wallet, date);
        var t1 := trades + [row];
        AddAdmittedRows(t1, xs[1..], coin, wallet, date);
        var adm := Filter(xs, IsAdmitted);
        var rest := Filter(xs[1..], IsAdmitted);
        assert adm == [xs[0]] + rest;
        assert r[..|trades|] == r[..|t1|][..|trades|];
        assert r[..|trades|] == trades;
        forall j | 0 <= j < |adm|
          ensures r[|trades| + j] == NewTrade(NextTradeRid(r[..|trades| + j]), adm[j], coin, wallet, date)
        {
          if j == 0 {
            assert r[|trades|] == r[..|t1|][|trades|] == row;
          } else {
            assert adm[j] == rest[j - 1];
            assert |t1| + (j - 1) == |trades| + j;
          }
        }
      } else {
        AddAdmittedRows(trades, xs[1..], coin, wallet, date);
      }
    }
  }

  /** Every admitted transfer ends up stored. */
  lemma {:induction false} AddAdmittedCovers(trades: seq<Trade>, xs: seq<Incoming>, coin: string, wallet: string, date: string)
    ensures var r := AddAdmitted(trades, xs, coin, wallet, date);
            StoredHashes(trades) <= StoredHashes(r)
            && forall i :: 0 <= i < |xs| && xs[i].admitted ==> xs[i].hash in StoredHashes(r)
    decreases |xs|
  {
    if xs != [] {
      var t1 := if xs[0].admitted then trades + [NewTrade(NextTradeRid(trades), xs[0], coin, wallet, date)] else trades;
      assert forall t :: t in trades ==> t in t1;
      assert xs[0].admitted ==> t1[|trades|] in t1;
      AddAdmittedCovers(t1, xs[1..], coin, wallet, date);
      assert forall i :: 1 <= i < |xs| ==> xs[i] == xs[1..][i - 1];
    }
  }

  /** Every row the insert loop adds is a pending row of the coin for the wallet, made from an
      admitted transfer of the page. */
  lemma AddAdmittedNew(trades: seq<Trade>, xs: seq<Incoming>, coin: string, wallet: string, date: string)
    ensures var r := AddAdmitted(trades, xs, coin, wallet, date);
            |trades| <= |r| && r[..|trades|] == trades
            && forall j :: |trades| <= j < |r| ==>
                 r[j].processStatus == STATUS_PENDING && r[j].coin == coin && r[j].toAddr == wallet
                 && exists i :: 0 <= i < |xs| && xs[i].admitted && r[j].txHash == xs[i].hash && r[j].amount == xs[i].amount
  {
    AddAdmittedRows(trades, xs, coin, wallet, date);
    var r := AddAdmitted(trades, xs, coin, wallet, date);
    var adm := Filter(xs, IsAdmitted);
    forall j | |trades| <= j < |r|
      ensures r[j].processStatus == STATUS_PENDING && r[j].coin == coin && r[j].toAddr == wallet
      ensures exists i :: 0 <= i < |xs| && xs[i].admitted && r[j].txHash == xs[i].hash && r[j].amount == xs[i].amount
    {
      var x := adm[j - |trades|];
      assert r[|trades| + (j - |trades|)] == NewTrade(NextTradeRid(r[..j]), x, coin, wallet, date);
      assert x in xs && x.admitted;
      var i :| 0 <= i < |xs| && xs[i] == x;
    }
  }

  /** No two stored rows carry the same hash. */
  predicate UniqueHashes(trades: seq<Trade>)
  {
    forall i, j :: 0 <= i < j < |trades| ==> trades[i].txHash != trades[j].txHash
  }

  /** No two transfers of a page carry the same hash. */
  predicate DistinctHashes(xs: seq<Incoming>)
  {
    forall i, j :: 0 <= i < j < |xs| ==> xs[i].hash != xs[j].hash
  }

  /** The insert loop keeps hashes unique when the page lists each transfer once and nothing it
      admits is stored already. */
  lemma {:induction false} AddAdmittedUnique(trades: seq<Trade>, xs: seq<Incoming>, coin: string, wallet: string, date: string)
    requires UniqueHashes(trades) && DistinctHashes(xs)
    requires forall i :: 0 <= i < |xs| && xs[i].admitted ==> xs[i].hash !in StoredHashes(trades)
    ensures UniqueHashes(AddAdmitted(trades, xs, coin, wallet, date))
    decreases |xs|
  {
    if xs != [] {
      assert forall i :: 1 <= i < |xs| ==> xs[i] == xs[1..][i - 1];
      if xs[0].admitted {
        var row := NewTrade(NextTradeRid(trades), xs[0], coin, wallet, date);
        var t1 := trades + [row];
        assert forall i :: 0 <= i < |trades| ==> trades[i] in trades;
        assert UniqueHashes(t1);
        assert StoredHashes(t1) == StoredHashes(trades) + {row.txHash} by {
          assert forall t :: t in t1 <==> t in trades || t == row;
        }
        AddAdmittedUnique(t1, xs[1..], coin, wallet, date);
      } else {
        AddAdmittedUnique(trades, xs[1..], coin, wallet, date);
      }
    }
  }

  // ---------------------------------------------------------------- TRX

  /** The admission test of a tronscan transfer: hash not stored, contract succeeded, at least
      1 TRX, and the token is TRX itself. */
  predicate TrxAdmissible(tx: TrxTransfer, existing: seq<string>)
  {
    tx.hash !in existing && tx.contractRet == "SUCCESS" && tx.amount >= MICRO
    && tx.tokenId == "_" && tx.tokenAbbr == "trx"
  }

  function TrxItems(data: seq<TrxTransfer>, existing: seq<string>): (xs: seq<Incoming>)
    ensures |xs| == |data|
    ensures forall i :: 0 <= i < |data| ==>
              xs[i].hash == data[i].hash && xs[i].amount == data[i].amount
              && (xs[i].admitted <==> TrxAdmissible(data[i], existing))
    decreases |data|
  {
    if data == [] then []
    else
      assert forall i :: 1 <= i < |data| ==> data[i] == data[1..][i - 1];
      [Incoming(data[0].hash, data[0].from, data[0].timestamp, data[0].amount, TrxAdmissible(data[0], existing))]
      + TrxItems(data[1..], existing)
  }

  function TrxHashes(data: seq<TrxTransfer>): (hs: seq<string>)
    ensures |hs| == |data| && forall i :: 0 <= i < |data| ==> hs[i] == data[i].hash
    decreases |data|
  {
    if data == [] then []
    else
      assert forall i :: 1 <= i < |data| ==> data[i] == data[1..][i - 1];
      [data[0].hash] + TrxHashes(data[1..])
  }

  /** The page request: offset `page * 50`, 50 transfers. */
  function TrxRequest(wallet: string, page: int): Request
  {
    TrxTransfers(wallet, page * TRX_LIMIT, TRX_LIMIT)
  }

  /** The transfers a reply hands to `handle_wallet_data`: only a JSON body with a `total`
      and a non-empty `data` list is handled. */
  function TrxPageData(reply: TrxReply): seq<TrxTransfer>
  {
    if reply.TrxJson? && reply.total.Some? then reply.data else []
  }

  /** Whether the next page is fetched after this one: the total promises more and this page
      was full. */
  predicate MoreTrx(reply: TrxReply, page: int)
  {
    reply.TrxJson? && reply.total.Some? && reply.data != []
    && reply.total.value > (page + 1) * TRX_LIMIT && |reply.data| == TRX_LIMIT
  }

  /** `get_list` + `handle_wallet_data` for one page. */
  function TrxPageSpec(s: State, chain: Chain, wallet: string, date: string, page: int): State
  {
    var req := TrxRequest(wallet, page);
    var data := TrxPageData(chain.trx(req));
    var existing := ExistingHashes(s.trades, TrxHashes(data));
    s.(sent := s.sent + [req], trades := AddAdmitted(s.trades, TrxItems(data, existing), "trx", wallet, date))
  }

  /** One TRX page adds only new pending TRX rows for the wallet: at least 1 TRX each, and none
      carrying a hash that was stored before. */
  lemma TrxPageRows(s: State, chain: Chain, wallet: string, date: string, page: int)
    ensures var r := TrxPageSpec(s, chain, wallet, date, page);
            r == s.(sent := s.sent + [TrxRequest(wallet, page)], trades := r.trades)
            && |s.trades| <= |r.trades| && r.trades[..|s.trades|] == s.trades
            && forall j :: |s.trades| <= j < |r.trades| ==>
                 r.trades[j].processStatus == STATUS_PENDING && r.trades[j].coin == "trx"
                 && r.trades[j].toAddr == wallet && r.trades[j].amount >= MICRO
                 && r.trades[j].txHash !in StoredHashes(s.trades)
  {
    var data := TrxPageData(chain.trx(TrxRequest(wallet, page)));
    var existing := ExistingHashes(s.trades, TrxHashes(data));
    ExistingHashesMembers(s.trades, TrxHashes(data));
    var xs := TrxItems(data, existing);
    AddAdmittedNew(s.trades, xs, "trx", wallet, date);
    var r := AddAdmitted(s.trades, xs, "trx", wallet, date);
    forall j | |s.trades| <= j < |r| ensures r[j].amount >= MICRO && r[j].txHash !in StoredHashes(s.trades) {
      var i :| 0 <= i < |xs| && xs[i].admitted && r[j].txHash == xs[i].hash && r[j].amount == xs[i].amount;
      assert TrxHashes(data)[i] == data[i].hash;
    }
  }

  /** After a TRX page every admissible transfer of the page is stored. */
  lemma TrxPageCovers(s: State, chain: Chain, wallet: string, date: string, page: int)
    ensures var r := TrxPageSpec(s, chain, wallet, date, page);
            var data := TrxPageData(chain.trx(TrxRequest(wallet, page)));
            forall i :: 0 <= i < |data| && TrxAdmissible(data[i], ExistingHashes(s.trades, TrxHashes(data))) ==>
              data[i].hash in StoredHashes(r.trades)
  {
    var data := TrxPageData(chain.trx(TrxRequest(wallet, page)));
    AddAdmittedCovers(s.trades, TrxItems(data, ExistingHashes(s.trades, TrxHashes(data))), "trx", wallet, date);
  }

  /** A TRX page keeps the stored hashes unique when it lists each transfer once. */
  lemma TrxPageUnique(s: State, chain: Chain, wallet: string, date: string, page: int)
    requires UniqueHashes(s.trades)
    requires DistinctHashes(TrxItems(TrxPageData(chain.trx(TrxRequest(wallet, page))), []))
    ensures UniqueHashes(TrxPageSpec(s, chain, wallet, date, page).trades)
  {
    var data := TrxPageData(chain.trx(TrxRequest(wallet, page)));
    var existing := ExistingHashes(s.trades, TrxHashes(data));
    ExistingHashesMembers(s.trades, TrxHashes(data));
    var xs := TrxItems(data, existing);
    forall i | 0 <= i < |xs| && xs[i].admitted ensures xs[i].hash !in StoredHashes(s.trades) {
      assert TrxHashes(data)[i] == data[i].hash;
    }
    assert DistinctHashes(xs) by {
      assert forall i :: 0 <= i < |xs| ==> xs[i].hash == TrxItems(data, [])[i].hash;
    }
    AddAdmittedUnique(s.trades, xs, "trx", wallet, date);
  }

  /** Page `page` of the wallet says there is another page after it. */
  predicate FullPage(chain: Chain, wallet: string, page: int)
  {
    MoreTrx(chain.trx(TrxRequest(wallet, page)), page)
  }

  /** The number of pages read from `page` on within a budget of `fuel` pages. */
  function TrxPageCount(chain: Chain, wallet: string, page: int, fuel: nat): (n: nat)
    ensures n <= fuel && (fuel > 0 ==> n >= 1)
    decreases fuel
  {
    if fuel == 0 then 0
    else if FullPage(chain, wallet, page) then 1 + TrxPageCount(chain, wallet, page + 1, fuel - 1)
    else 1
  }

  /** Each page but the last one counted was full, and the last one read before the budget
      ran out was not. */
  lemma {:induction false} TrxPageCountFull(chain: Chain, wallet: string, page: int, fuel: nat)
    ensures var n := TrxPageCount(chain, wallet, page, fuel);
            (forall q :: page <= q < page + n - 1 ==> FullPage(chain, wallet, q))
            && (0 < n < fuel ==> !FullPage(chain, wallet, page + n - 1))
    decreases fuel
  {
    if fuel > 0 && FullPage(chain, wallet, page) {
      TrxPageCountFull(chain, wallet, page + 1, fuel - 1);
    }
  }

  /** The requests for `n` consecutive pages from `page` on. */
  function TrxRequests(wallet: string, page: int, n: nat): (r: seq<Request>)
    ensures |r| == n
    decreases n
  {
    if n == 0 then [] else [TrxRequest(wallet, page)] + TrxRequests(wallet, page + 1, n - 1)
  }

  /** Request k of the run asks for 50 transfers from offset `(page + k) * 50`. */
  lemma {:induction false} TrxRequestsAt(wallet: string, page: int, n: nat, k: nat)
    requires k < n
    ensures TrxRequests(wallet, page, n)[k] == TrxTransfers(wallet, (page + k) * TRX_LIMIT, TRX_LIMIT)
    decreases n
  {
    if k > 0 {
      TrxRequestsAt(wallet, page + 1, n - 1, k - 1);
    }
  }

  /** The TRX intake of one wallet from `page` on, within a budget of `fuel` pages. */
  function IngestTrxSpec(s: State, chain: Chain, wallet: string, date: string, page: int, fuel: nat): State
    decreases fuel
  {
    if fuel == 0 then s
    else
      var s1 := TrxPageSpec(s, chain, wallet, date, page);
      if FullPage(chain, wallet, page) then IngestTrxSpec(s1, chain, wallet, date, page + 1, fuel - 1)
      else s1
  }

  /** `n` consecutive TRX pages from `page` on. */
  function ApplyTrxPages(s: State, chain: Chain, wallet: string, date: string, page: int, n: nat): State
    decreases n
  {
    if n == 0 then s else ApplyTrxPages(TrxPageSpec(s, chain, wallet, date, page), chain, wallet, date, page + 1, n - 1)
  }

  /** The intake reads exactly `TrxPageCount` pages. */
  lemma {:induction false} IngestTrxPages(s: State, chain: Chain, wallet: string, date: string, page: int, fuel: nat)
    ensures IngestTrxSpec(s, chain, wallet, date, page, fuel)
         == ApplyTrxPages(s, chain, wallet, date, page, TrxPageCount(chain, wallet, page, fuel))
    decreases fuel
  {
    if fuel > 0 {
      var s1 := TrxPageSpec(s, chain, wallet, date, page);
      IngestTrxUnfold(s, chain, wallet, date, page, fuel);
      if FullPage(chain, wallet, page) {
        IngestTrxPages(s1, chain, wallet, date, page + 1, fuel - 1);
      }
    }
  }

  /** One page of the intake and of the page count, unfolded together. */
  lemma IngestTrxUnfold(s: State, chain: Chain, wallet: string, date: string, page: int, fuel: nat)
    requires fuel > 0
    ensures var s1 := TrxPageSpec(s, chain, wallet, date, page);
            var n := TrxPageCount(chain, wallet, page, fuel);
            if FullPage(chain, wallet, page) then
              IngestTrxSpec(s, chain, wallet, date, page, fuel) == IngestTrxSpec(s1, chain, wallet, date, page + 1, fuel - 1)
              && ApplyTrxPages(s, chain, wallet, date, page, n)
                 == ApplyTrxPages(s1, chain, wallet, date, page + 1, TrxPageCount(chain, wallet, page + 1, fuel - 1))
            else
              IngestTrxSpec(s, chain, wallet, date, page, fuel) == s1 && ApplyTrxPages(s, chain, wallet, date, page, n) == s1
  {
  }

  /** `n` pages send one request each, at consecutive offsets. */
  lemma {:induction false} ApplyTrxPagesSent(s: State, chain: Chain, wallet: string, date: string, page: int, n: nat)
    ensures ApplyTrxPages(s, chain, wallet, date, page, n).sent == s.sent + TrxRequests(wallet, page, n)
    decreases n
  {
    if n > 0 {
      var s1 := TrxPageSpec(s, chain, wallet, date, page);
      ApplyTrxPagesSent(s1, chain, wallet, date, page + 1, n - 1);
      AppendAssoc(s.sent, [TrxRequest(wallet, page)], TrxRequests(wallet, page + 1, n - 1));
    }
  }

  /** The pages are requested at consecutive offsets of 50, one request each, as many as
      `TrxPageCount` says: a page is requested after another only when that one was full and
      its total promised more. */
  lemma IngestTrxRequests(s: State, chain: Chain, wallet: string, date: string, page: int, fuel: nat)
    ensures IngestTrxSpec(s, chain, wallet, date, page, fuel).sent
         == s.sent + TrxRequests(wallet, page, TrxPageCount(chain, wallet, page, fuel))
  {
    IngestTrxPages(s, chain, wallet, date, page, fuel);
    ApplyTrxPagesSent(s, chain, wallet, date, page, TrxPageCount(chain, wallet, page, fuel));
  }

  /** One TRX page, step by step: request, read the stored hashes once, insert admitted
      transfers in page order; the result says whether to read the next page. */
  method HandleTrxPage(db: Db, chain: Chain, wallet: string, date: string, page: int) returns (more: bool)
    modifies db
    ensures db.Snap() == TrxPageSpec(old(db.Snap()), chain, wallet, date, page)
    ensures more == MoreTrx(chain.trx(TrxRequest(wallet, page)), page)
  {
    var req := TrxRequest(wallet, page);
    db.Send([req]);
    var reply := chain.trx(req);
    var data := TrxPageData(reply);
    var existing := ExistingHashes(db.trades, TrxHashes(data));
    var xs := TrxItems(data, existing);
    ghost var mid := db.Snap();
    var i := 0;
    while i < |data|
      invariant 0 <= i <= |data|
      invariant AddAdmitted(db.trades, xs[i..], "trx", wallet, date) == AddAdmitted(mid.trades, xs, "trx", wallet, date)
      invariant db.Snap() == mid.(trades := db.trades)
    {
      assert xs[i..][1..] == xs[i + 1..];
      if TrxAdmissible(data[i], existing) {
        db.InsertTrade(NewTrade(NextTradeRid(db.trades), xs[i], "trx", wallet, date));
      }
      i := i + 1;
    }
    more := MoreTrx(reply, page);
  }

  /** The TRX intake of one wallet: page 0, then each following page while the last one says
      there is more, within `maxPages` pages. */
  method IngestTrx(db: Db, chain: Chain, wallet: string, date: string, maxPages: nat)
    modifies db
    ensures db.Snap() == IngestTrxSpec(old(db.Snap()), chain, wallet, date, 0, maxPages)
  {
    var page := 0;
    var fuel := maxPages;
    while fuel > 0
      invariant IngestTrxSpec(db.Snap(), chain, wallet, date, page, fuel) == IngestTrxSpec(old(db.Snap()), chain, wallet, date, 0, maxPages)
      decreases fuel
    {
      var more := HandleTrxPage(db, chain, wallet, date, page);
      if !more {
        return;
      }
      page, fuel := page + 1, fuel - 1;
    }
  }

  // ---------------------------------------------------------------- USDT

  /** The admission test of a trongrid transfer: hash not stored and a plain `Transfer`. */
  predicate UsdtAdmissible(tx: UsdtTransfer, existing: seq<string>)
  {
    tx.hash !in existing && tx.kind == "Transfer"
  }

  function UsdtItems(data: seq<UsdtTransfer>, existing: seq<string>): (xs: seq<Incoming>)
    ensures |xs| == |data|
    ensures forall i :: 0 <= i < |data| ==>
              xs[i].hash == data[i].hash && xs[i].amount == data[i].value
              && (xs[i].admitted <==> UsdtAdmissible(data[i], existing))
    decreases |data|
  {
    if data == [] then []
    else
      assert forall i :: 1 <= i < |data| ==> data[i] == data[1..][i - 1];
      [Incoming(data[0].hash, data[0].from, data[0].timestamp, data[0].value, UsdtAdmissible(data[0], existing))]
      + UsdtItems(data[1..], existing)
  }

  function UsdtHashes(data: seq<UsdtTransfer>): (hs: seq<string>)
    ensures |hs| == |data| && forall i :: 0 <= i < |data| ==> hs[i] == data[i].hash
    decreases |data|
  {
    if data == [] then []
    else
      assert forall i :: 1 <= i < |data| ==> data[i] == data[1..][i - 1];
      [data[0].hash] + UsdtHashes(data[1..])
  }

  /** The page request: the next link when one is given, otherwise (`"0"`, the default) the
      first page of TRC-20 transfers since `minTimestamp`. */
  function UsdtRequest(wallet: string, minTimestamp: int, next: string): (r: Request)
    ensures next != "0" ==> r == UsdtNextPage(next)
    ensures next == "0" ==> r == UsdtFirstPage(wallet, minTimestamp)
  {
    if next != "0" then UsdtNextPage(next) else UsdtFirstPage(wallet, minTimestamp)
  }

  function UsdtPageData(reply: UsdtReply): seq<UsdtTransfer>
  {
    if reply.UsdtJson? && reply.data.Some? then reply.data.value else []
  }

  /** The link followed after a page: only a page with transfers looks for one. */
  function UsdtFollow(reply: UsdtReply): Option<string>
  {
    if reply.UsdtJson? && reply.data.Some? && reply.data.value != [] then reply.next else None
  }

  function UsdtPageSpec(s: State, chain: Chain, wallet: string, date: string, req: Request): State
  {
    var data := UsdtPageData(chain.usdt(req));
    var existing := ExistingHashes(s.trades, UsdtHashes(data));
    s.(sent := s.sent + [req], trades := AddAdmitted(s.trades, UsdtItems(data, existing), "usdt", wallet, date))
  }

  /** One USDT page adds only new pending USDT rows for the wallet, none carrying a hash that
      was stored before. */
  lemma UsdtPageRows(s: State, chain: Chain, wallet: string, date: string, req: Request)
    ensures var r := UsdtPageSpec(s, chain, wallet, date, req);
            r == s.(sent := s.sent + [req], trades := r.trades)
            && |s.trades| <= |r.trades| && r.trades[..|s.trades|] == s.trades
            && forall j :: |s.trades| <= j < |r.trades| ==>
                 r.trades[j].processStatus == STATUS_PENDING && r.trades[j].coin == "usdt"
                 && r.trades[j].toAddr == wallet && r.trades[j].txHash !in StoredHashes(s.trades)
  {
    var data := UsdtPageData(chain.usdt(req));
    var existing := ExistingHashes(s.trades, UsdtHashes(data));
    ExistingHashesMembers(s.trades, UsdtHashes(data));
    var xs := UsdtItems(data, existing);
    AddAdmittedNew(s.trades, xs, "usdt", wallet, date);
    var r := AddAdmitted(s.trades, xs, "usdt", wallet, date);
    forall j | |s.trades| <= j < |r| ensures r[j].txHash !in StoredHashes(s.trades) {
      var i :| 0 <= i < |xs| && xs[i].admitted && r[j].txHash == xs[i].hash && r[j].amount == xs[i].amount;
      assert UsdtHashes(data)[i] == data[i].hash;
    }
  }

  /** After a USDT page every admissible transfer of the page is stored. */
  lemma UsdtPageCovers(s: State, chain: Chain, wallet: string, date: string, req: Request)
    ensures var r := UsdtPageSpec(s, chain, wallet, date, req);
            var data := UsdtPageData(chain.usdt(req));
            forall i :: 0 <= i < |data| && UsdtAdmissible(data[i], ExistingHashes(s.trades, UsdtHashes(data))) ==>
              data[i].hash in StoredHashes(r.trades)
  {
    var data := UsdtPageData(chain.usdt(req));
    AddAdmittedCovers(s.trades, UsdtItems(data, ExistingHashes(s.trades, UsdtHashes(data))), "usdt", wallet, date);
  }

  /** The USDT intake of one wallet: the first page since `minTimestamp`, then each `next`
      link (read with a minimum timestamp of 0), within a budget of `fuel` pages. */
  function IngestUsdtSpec(s: State, chain: Chain, wallet: string, date: string, minTimestamp: int, next: string, fuel: nat): State
    decreases fuel
  {
    if fuel == 0 then s
    else
      var req := UsdtRequest(wallet, minTimestamp, next);
      var s1 := UsdtPageSpec(s, chain, wallet, date, req);
      var follow := UsdtFollow(chain.usdt(req));
      if follow.Some? then IngestUsdtSpec(s1, chain, wallet, date, 0, follow.value, fuel - 1) else s1
  }

  /** A table that only grew stores every hash it stored before. */
  lemma StoredHashesGrow(a: seq<Trade>, b: seq<Trade>)
    requires |a| <= |b| && b[..|a|] == a
    ensures StoredHashes(a) <= StoredHashes(b)
  {
    forall h | h in StoredHashes(a) ensures h in StoredHashes(b) {
      var t :| t in a && t.txHash == h;
      var i :| 0 <= i < |a| && a[i] == t;
      assert b[i] == b[..|a|][i];
    }
  }

  /** `after` is `before` with only new rows added: pending rows of the coin for the wallet,
      none carrying a hash `before` stored. */
  predicate GrewWithNew(before: seq<Trade>, after: seq<Trade>, coin: string, wallet: string)
  {
    |before| <= |after| && after[..|before|] == before
    && forall j :: |before| <= j < |after| ==>
         after[j].processStatus == STATUS_PENDING && after[j].coin == coin
         && after[j].toAddr == wallet && after[j].txHash !in StoredHashes(before)
  }

  /** Growing with new rows twice is growing with new rows once. */
  lemma GrewWithNewTrans(a: seq<Trade>, b: seq<Trade>, c: seq<Trade>, coin: string, wallet: string)
    requires GrewWithNew(a, b, coin, wallet) && GrewWithNew(b, c, coin, wallet)
    ensures GrewWithNew(a, c, coin, wallet)
  {
    assert c[..|a|] == c[..|b|][..|a|];
    StoredHashesGrow(a, b);
    forall j | |a| <= j < |b| ensures c[j] == b[j] {
      assert c[j] == c[..|b|][j];
    }
  }

  /** The TRX intake only ever adds pending TRX rows for the wallet, and never one whose hash
      was stored when it began: each page checks against the table as the pages before it
      left it. */
  lemma {:induction false} IngestTrxAddsNew(s: State, chain: Chain, wallet: string, date: string, page: int, fuel: nat)
    ensures GrewWithNew(s.trades, IngestTrxSpec(s, chain, wallet, date, page, fuel).trades, "trx", wallet)
    decreases fuel
  {
    if fuel > 0 {
      var s1 := TrxPageSpec(s, chain, wallet, date, page);
      TrxPageRows(s, chain, wallet, date, page);
      assert GrewWithNew(s.trades, s1.trades, "trx", wallet);
      if FullPage(chain, wallet, page) {
        IngestTrxAddsNew(s1, chain, wallet, date, page + 1, fuel - 1);
        GrewWithNewTrans(s.trades, s1.trades, IngestTrxSpec(s1, chain, wallet, date, page + 1, fuel - 1).trades,
                         "trx", wallet);
      }
    }
  }

  /** A page reads the stored hashes once, before its inserts, so a transfer the reply lists
      twice is inserted twice, under two ids. */
  lemma RepeatedTransferInsertedTwice(trades: seq<Trade>, x: Incoming, coin: string, wallet: string, date: string)
    requires x.admitted
    ensures var r := AddAdmitted(trades, [x, x], coin, wallet, date);
            |r| == |trades| + 2 && r[..|trades|] == trades
            && r[|trades|].txHash == x.hash && r[|trades| + 1].txHash == x.hash
            && r[|trades|].rid != r[|trades| + 1].rid
  {
    var t1 := trades + [NewTrade(NextTradeRid(trades), x, coin, wallet, date)];
    assert [x, x][1..] == [x];
    assert AddAdmitted(trades, [x, x], coin, wallet, date) == AddAdmitted(t1, [x], coin, wallet, date);
  }

  /** The USDT intake only ever adds pending USDT rows for the wallet, and never one whose
      hash was stored when it began. */
  lemma {:induction false} IngestUsdtAddsNew(s: State, chain: Chain, wallet: string, date: string, minTimestamp: int, next: string, fuel: nat)
    ensures GrewWithNew(s.trades, IngestUsdtSpec(s, chain, wallet, date, minTimestamp, next, fuel).trades, "usdt", wallet)
    decreases fuel
  {
    if fuel > 0 {
      var req := UsdtRequest(wallet, minTimestamp, next);
      var s1 := UsdtPageSpec(s, chain, wallet, date, req);
      UsdtPageRows(s, chain, wallet, date, req);
      assert GrewWithNew(s.trades, s1.trades, "usdt", wallet);
      var follow := UsdtFollow(chain.usdt(req));
      if follow.Some? {
        IngestUsdtAddsNew(s1, chain, wallet, date, 0, follow.value, fuel - 1);
        GrewWithNewTrans(s.trades, s1.trades, IngestUsdtSpec(s1, chain, wallet, date, 0, follow.value, fuel - 1).trades,
                         "usdt", wallet);
      }
    }
  }

  method HandleUsdtPage(db: Db, chain: Chain, wallet: string, date: string, req: Request) returns (follow: Option<string>)
    modifies db
    ensures db.Snap() == UsdtPageSpec(old(db.Snap()), chain, wallet, date, req)
    ensures follow == UsdtFollow(chain.usdt(req))
  {
    db.Send([req]);
    var reply := chain.usdt(req);
    var data := UsdtPageData(reply);
    var existing := ExistingHashes(db.trades, UsdtHashes(data));
    var xs := UsdtItems(data, existing);
    ghost var mid := db.Snap();
    var i := 0;
    while i < |data|
      invariant 0 <= i <= |data|
      invariant AddAdmitted(db.trades, xs[i..], "usdt", wallet, date) == AddAdmitted(mid.trades, xs, "usdt", wallet, date)
      invariant db.Snap() == mid.(trades := db.trades)
    {
      assert xs[i..][1..] == xs[i + 1..];
      if UsdtAdmissible(data[i], existing) {
        db.InsertTrade(NewTrade(NextTradeRid(db.trades), xs[i], "usdt", wallet, date));
      }
      i := i + 1;
    }
    follow := UsdtFollow(reply);
  }

  /** One page of `IngestUsdt`: `follow` is the link to read next, if any; without one the
      intake is over, otherwise the rest of it is still to run. */
  method UsdtStep(db: Db, chain: Chain, wallet: string, date: string, since: int, next: string, fuel: nat)
    returns (follow: Option<string>)
    requires fuel > 0
    modifies db
    ensures follow.None? ==> db.Snap() == IngestUsdtSpec(old(db.Snap()), chain, wallet, date, since, next, fuel)
    ensures follow.Some? ==> IngestUsdtSpec(db.Snap(), chain, wallet, date, 0, follow.value, fuel - 1)
                             == IngestUsdtSpec(old(db.Snap()), chain, wallet, date, since, next, fuel)
  {
    ghost var req := UsdtRequest(wallet, since, next);
    assert IngestUsdtSpec(db.Snap(), chain, wallet, date, since, next, fuel)
           == var s1 := UsdtPageSpec(db.Snap(), chain, wallet, date, req);
              var f := UsdtFollow(chain.usdt(req));
              if f.Some? then IngestUsdtSpec(s1, chain, wallet, date, 0, f.value, fuel - 1) else s1;
    follow := HandleUsdtPage(db, chain, wallet, date, UsdtRequest(wallet, since, next));
  }

  method IngestUsdt(db: Db, chain: Chain, wallet: string, date: string, minTimestamp: int, maxPages: nat)
    modifies db
    ensures db.Snap() == IngestUsdtSpec(old(db.Snap()), chain, wallet, date, minTimestamp, "0", maxPages)
  {
    ghost var goal := IngestUsdtSpec(db.Snap(), chain, wallet, date, minTimestamp, "0", maxPages);
    var since, next, fuel := minTimestamp, "0", maxPages;
    while fuel > 0
      invariant IngestUsdtSpec(db.Snap(), chain, wallet, date, since, next, fuel) == goal
      decreases fuel
    {
      var follow := UsdtStep(db, chain, wallet, date, since, next, fuel);
      if follow.None? {
        return;
      }
      since, next, fuel := 0, follow.value, fuel - 1;
    }
  }
}
