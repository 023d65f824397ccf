/** gather_transactions_batch_multi: one four-part key, chunked into transactions. */
module Chunks {
  import opened Prelude
  import opened Bytes
  import opened Contracts
  import opened Ledger
  import opened Orders

  /** What became of a batch: the ledger, the groups as held in memory, and the first error if any. */
  datatype BatchOutcome = BatchOutcome(s: State, orders: seq<Order>, error: Option<PaymentError>)

  function LinkRowList(rows: seq<Transfer>, tx: nat): (r: seq<Transfer>)
    ensures |r| == |rows|
    ensures forall i :: 0 <= i < |rows| ==> r[i] == LinkRow(rows[i], tx)
  {
    if rows == [] then [] else [LinkRow(rows[0], tx)] + LinkRowList(rows[1..], tx)
  }

  function LinkOrders(orders: seq<Order>, tx: nat): (r: seq<Order>)
    ensures |r| == |orders|
  {
    if orders == [] then []
    else [orders[0].(rows := LinkRowList(orders[0].rows, tx))] + LinkOrders(orders[1..], tx)
  }

  /** Chunk by chunk: build the transaction, commit it, go on; stop at the first chunk that cannot be encoded. */
  function BatchRun(setup: PaymentSetup, chain: ChainSetup, key: MultiKey, s: State, orders: seq<Order>): BatchOutcome
    requires key.token.Some? && chain.maxAtOnce > 0
    decreases |orders|
  {
    if orders == [] then BatchOutcome(s, [], None)
    else
      var n := Min(chain.maxAtOnce, |orders|);
      var chunk := orders[..n];
      match ChunkTx(setup, chain, key, chunk)
      case Err(e) => BatchOutcome(s, orders, Some(e))
      case Ok(tx) =>
        var rest := BatchRun(setup, chain, key, Commit(s, tx, AllRows(chunk)), orders[n..]);
        BatchOutcome(rest.s, LinkOrders(chunk, |s.txs|) + rest.orders, rest.error)
  }

  // ---- facts about one batch ----

  /** x' is x, linked to a transaction numbered lo..hi-1. */
  predicate NewlyLinked(x: Transfer, x': Transfer, lo: nat, hi: nat) {
    x'.txId.Some? && lo <= x'.txId.value < hi && x' == LinkRow(x, x'.txId.value)
  }

  lemma {:induction false} LinkOrdersRows(orders: seq<Order>, tx: nat)
    ensures AllRows(LinkOrders(orders, tx)) == LinkRowList(AllRows(orders), tx)
  {
    if orders != [] {
      LinkOrdersRows(orders[1..], tx);
      assert LinkOrders(orders, tx)[1..] == LinkOrders(orders[1..], tx);
    }
  }

  lemma {:induction false} LinkRowListIds(rows: seq<Transfer>, tx: nat)
    ensures Ids(LinkRowList(rows, tx)) == Ids(rows)
    ensures DistinctIds(LinkRowList(rows, tx)) <==> DistinctIds(rows)
  {
    if rows != [] {
      var l, rest := LinkRowList(rows, tx), rows[1..];
      assert l[1..] == LinkRowList(rest, tx);
      LinkRowListIds(rest, tx);
      IdsCons(l);
      IdsCons(rows);
    }
  }

  /** Rows whose ids the commit does not touch stay fresh. */
  lemma FreshFrame(s: State, s': State, orders: seq<Order>)
    requires OrdersOk(s.transfers, orders) && |s'.transfers| == |s.transfers|
    requires forall i | i in Ids(AllRows(orders)) :: i < |s.transfers| ==> s'.transfers[i] == s.transfers[i]
    ensures OrdersOk(s'.transfers, orders)
  {
    forall row | row in AllRows(orders)
      ensures s'.transfers[row.id] == row
    {
      assert row.id in Ids(AllRows(orders));
    }
  }

  /** What a batch may have done between two ledgers: changed only rows of `orders`, appended transactions. */
  ghost predicate Touches(s: State, s': State, ids: set<nat>) {
    && |s'.transfers| == |s.transfers|
    && s.txs <= s'.txs
    && forall i | 0 <= i < |s.transfers| && i !in ids :: s'.transfers[i] == s.transfers[i]
  }

  /** Every row of the list is either untouched or linked to one of the new transactions. */
  ghost predicate Progress(s: State, s': State, rows: seq<Transfer>)
  {
    forall row | row in rows :: row.id < |s'.transfers| && (
      s'.transfers[row.id] == row || NewlyLinked(row, s'.transfers[row.id], |s.txs|, |s'.txs|))
  }

  ghost predicate AllLinked(s: State, s': State, rows: seq<Transfer>)
  {
    forall row | row in rows :: row.id < |s'.transfers| &&
      NewlyLinked(row, s'.transfers[row.id], |s.txs|, |s'.txs|)
  }

  /** Rows of one group end up in the same transaction, or all in none. */
  ghost predicate Together(s': State, rows: seq<Transfer>) {
    forall x, y | x in rows && y in rows && x.KeyOf() == y.KeyOf() ::
      x.id < |s'.transfers| && y.id < |s'.transfers| && s'.transfers[x.id].txId == s'.transfers[y.id].txId
  }

  lemma TogetherStep(ts: seq<Transfer>, s1: State, s2: State, t: nat, orders: seq<Order>, n: nat)
    requires OrdersOk(ts, orders) && n <= |orders| && |s1.transfers| == |ts|
    requires forall row | row in AllRows(orders[..n]) :: row.id < |s1.transfers| && s1.transfers[row.id].txId == Some(t)
    requires Touches(s1, s2, Ids(AllRows(orders[n..]))) && Together(s2, AllRows(orders[n..]))
    ensures Together(s2, AllRows(orders))
  {
    hide OrdersOk, AllRows;
    OrdersSplit(ts, orders, n);
    var a, b := AllRows(orders[..n]), AllRows(orders[n..]);
    assert Together(s2, a) by {
      forall row | row in a ensures s2.transfers[row.id].txId == Some(t) { assert row.id in Ids(a); }
    }
    forall x, y | x in a && y in b ensures x.KeyOf() != y.KeyOf() {
      KeysDiffer(ts, orders, n, x, y);
    }
  }

  lemma KeysDiffer(ts: seq<Transfer>, orders: seq<Order>, n: nat, x: Transfer, y: Transfer)
    requires OrdersOk(ts, orders) && n <= |orders| && x in AllRows(orders[..n]) && y in AllRows(orders[n..])
    ensures x.KeyOf() != y.KeyOf()
  {
    hide AllRows, HasText, DistinctTexts, OrderOk, Fresh, DistinctIds;
    assert orders[..n] + orders[n..] == orders;
    PartsDiffer(orders[..n], orders[n..], x);
    RowHasText(orders[n..], y);
  }

  /** One committed chunk, and what it leaves for the rest of the batch. */
  lemma ChunkStep(s: State, orders: seq<Order>, n: nat, tx: Tx, key: MultiKey)
    requires WellFormed(s) && OrdersOk(s.transfers, orders) && OfKey(orders, key)
    requires 0 < n <= |orders|
    ensures var chunk, s' := orders[..n], Commit(s, tx, AllRows(orders[..n]));
            && WellFormed(s') && OrdersOk(s.transfers, chunk) && OfKey(chunk, key)
            && Touches(s, s', Ids(AllRows(chunk)))
            && AllLinked(s, s', AllRows(chunk))
            && (forall row | row in AllRows(chunk) :: s'.transfers[row.id] == LinkRow(row, |s.txs|))
            && InSync(s'.transfers, AllRows(LinkOrders(chunk, |s.txs|)))
            && OrdersOk(s'.transfers, orders[n..]) && OfKey(orders[n..], key)
  {
    hide AllRows, LinkOrders;
    var chunk, rest := orders[..n], orders[n..];
    OrdersSplit(s.transfers, orders, n);
    CommitLinks(s, tx, AllRows(chunk));
    var s' := Commit(s, tx, AllRows(chunk));
    FreshFrame(s, s', rest);
    LinkOrdersRows(chunk, |s.txs|);
  }

  /** What a batch did, seen from its rows: it touches only them, splits no group, and its copies in memory
      agree with the table, so writing them back loses no update. */
  ghost predicate BatchResult(s: State, out: BatchOutcome, rows: seq<Transfer>) {
    && WellFormed(out.s)
    && Touches(s, out.s, Ids(rows)) && Progress(s, out.s, rows) && Together(out.s, rows)
    && (out.error.None? ==> AllLinked(s, out.s, rows))
    && InSync(out.s.transfers, AllRows(out.orders))
    && DistinctIds(AllRows(out.orders)) && Ids(AllRows(out.orders)) == Ids(rows)
  }

  lemma {:induction false} BatchFacts(setup: PaymentSetup, chain: ChainSetup, key: MultiKey, s: State,
                                      orders: seq<Order>)
    requires WellFormed(s) && OrdersOk(s.transfers, orders) && OfKey(orders, key)
    requires key.token.Some? && chain.maxAtOnce > 0
    ensures BatchResult(s, BatchRun(setup, chain, key, s, orders), AllRows(orders))
    decreases |orders|
  {
    if orders != [] {
      var n := Min(chain.maxAtOnce, |orders|);
      var chunk, rest := orders[..n], orders[n..];
      match ChunkTx(setup, chain, key, chunk)
      case Err(_) =>
      case Ok(tx) =>
        var s1 := Commit(s, tx, AllRows(chunk));
        ChunkStep(s, orders, n, tx, key);
        OrdersSplit(s.transfers, orders, n);
        BatchFacts(setup, chain, key, s1, rest);
        var out := BatchRun(setup, chain, key, s1, rest);
        ChunkThenRest(s, s1, out.s, AllRows(chunk), AllRows(rest));
        MemoryAfterChunk(s, s1, out.s, chunk, out.orders, rest);
        TogetherStep(s.transfers, s1, out.s, |s.txs|, orders, n);
    }
  }

  /** A batch keeps the ledger invariant. */
  lemma {:induction false} BatchKeepsInv(setup: PaymentSetup, chain: ChainSetup, key: MultiKey, s: State,
                                         orders: seq<Order>)
    requires Inv(s) && OrdersOk(s.transfers, orders) && OfKey(orders, key)
    requires key.token.Some? && chain.maxAtOnce > 0
    ensures Inv(BatchRun(setup, chain, key, s, orders).s)
    decreases |orders|
  {
    if orders != [] {
      var n := Min(chain.maxAtOnce, |orders|);
      match ChunkTx(setup, chain, key, orders[..n])
      case Err(_) =>
      case Ok(tx) =>
        ChunkStep(s, orders, n, tx, key);
        ChunkTxSettles(setup, chain, key, orders[..n]);
        CommitKeepsInv(s, tx, orders[..n]);
        BatchKeepsInv(setup, chain, key, Commit(s, tx, AllRows(orders[..n])), orders[n..]);
    }
  }

  lemma ChunkThenRest(s: State, s1: State, s2: State, chunk: seq<Transfer>, rest: seq<Transfer>)
    requires Fresh(s.transfers, chunk + rest) && Fresh(s1.transfers, rest) && Ids(chunk) !! Ids(rest)
    requires Touches(s, s1, Ids(chunk)) && AllLinked(s, s1, chunk)
    requires Touches(s1, s2, Ids(rest)) && Progress(s1, s2, rest)
    ensures Touches(s, s2, Ids(chunk + rest))
    ensures Progress(s, s2, chunk + rest)
    ensures AllLinked(s1, s2, rest) ==> AllLinked(s, s2, chunk + rest)
  {
    assert Ids(chunk + rest) == Ids(chunk) + Ids(rest);
    forall row | row in chunk ensures s2.transfers[row.id] == s1.transfers[row.id] {
      assert row.id in Ids(chunk);
    }
  }

  lemma MemoryAfterChunk(s: State, s1: State, s2: State, chunk: seq<Order>, restOut: seq<Order>, rest: seq<Order>)
    requires |s1.transfers| == |s2.transfers|
    requires InSync(s1.transfers, AllRows(LinkOrders(chunk, |s.txs|)))
    requires Touches(s1, s2, Ids(AllRows(rest))) && Ids(AllRows(chunk)) !! Ids(AllRows(rest))
    requires DistinctIds(AllRows(chunk))
    requires InSync(s2.transfers, AllRows(restOut)) && DistinctIds(AllRows(restOut))
    requires Ids(AllRows(restOut)) == Ids(AllRows(rest))
    ensures var all := AllRows(LinkOrders(chunk, |s.txs|) + restOut);
            && InSync(s2.transfers, all) && DistinctIds(all)
            && Ids(all) == Ids(AllRows(chunk)) + Ids(AllRows(rest))
  {
    var linked := LinkOrders(chunk, |s.txs|);
    LinkOrdersRows(chunk, |s.txs|);
    LinkRowListIds(AllRows(chunk), |s.txs|);
    AllRowsConcat(linked, restOut);
    DistinctConcat(AllRows(linked), AllRows(restOut));
    forall row | row in AllRows(linked) ensures row.id < |s2.transfers| && s2.transfers[row.id] == row {
      assert row.id in Ids(AllRows(linked));
    }
    assert Ids(AllRows(linked) + AllRows(restOut)) == Ids(AllRows(linked)) + Ids(AllRows(restOut));
  }

  // ---- how many transactions, and which rows each of them carries ----

  function ChunkCount(groups: nat, max: nat): nat
    requires max > 0
  {
    if groups == 0 then 0 else 1 + ChunkCount(groups - Min(max, groups), max)
  }

  lemma {:induction false} ChunkCountIsCeiling(groups: nat, max: nat)
    requires max > 0
    ensures ChunkCount(groups, max) == (groups + max - 1) / max
    decreases groups
  {
    if groups >= max {
      ChunkCountIsCeiling(groups - max, max);
      RemainderUnique(groups + max - 1, max, (groups - 1) / max + 1, (groups - 1) % max);
    } else {
      RemainderUnique(groups + max - 1, max, if groups == 0 then 0 else 1, if groups == 0 then max - 1 else groups - 1);
      if groups > 0 { assert ChunkCount(0, max) == 0; }
    }
  }

  /** The k-th chunk of at most max elements. */
  function ChunkAt(orders: seq<Order>, max: nat, k: nat): (chunk: seq<Order>)
    requires max > 0 && k < ChunkCount(|orders|, max)
    ensures 1 <= |chunk| <= max
  {
    var n := Min(max, |orders|);
    if k == 0 then orders[..n] else ChunkAt(orders[n..], max, k - 1)
  }

  lemma ChunkUnroll(orders: seq<Order>, max: nat, k: nat, n: nat)
    requires max > 0 && k < ChunkCount(|orders|, max) && n == Min(max, |orders|)
    ensures orders != []
    ensures k == 0 ==> ChunkAt(orders, max, k) == orders[..n]
    ensures k > 0 ==>
              k - 1 < ChunkCount(|orders[n..]|, max) &&
              ChunkAt(orders, max, k) == ChunkAt(orders[n..], max, k - 1)
  {
    assert |orders[n..]| == |orders| - n;
  }

  /** How many chunks are encoded before the first that cannot be. */
  function OkChunks(setup: PaymentSetup, chain: ChainSetup, key: MultiKey, orders: seq<Order>): nat
    requires key.token.Some? && chain.maxAtOnce > 0
    decreases |orders|
  {
    if orders == [] then 0
    else
      var n := Min(chain.maxAtOnce, |orders|);
      match ChunkTx(setup, chain, key, orders[..n])
      case Err(_) => 0
      case Ok(_) => 1 + OkChunks(setup, chain, key, orders[n..])
  }

  /** The error of the first chunk that cannot be encoded. */
  function ChunkError(setup: PaymentSetup, chain: ChainSetup, key: MultiKey, orders: seq<Order>): Option<PaymentError>
    requires key.token.Some? && chain.maxAtOnce > 0
    decreases |orders|
  {
    if orders == [] then None
    else
      var n := Min(chain.maxAtOnce, |orders|);
      match ChunkTx(setup, chain, key, orders[..n])
      case Err(e) => Some(e)
      case Ok(_) => ChunkError(setup, chain, key, orders[n..])
  }

  predicate Encodes(setup: PaymentSetup, chain: ChainSetup, key: MultiKey, chunk: seq<Order>) {
    chunk != [] && key.token.Some? && ChunkTx(setup, chain, key, chunk).Ok?
  }

  lemma CountUnroll(orders: seq<Order>, max: nat, n: nat)
    requires max > 0 && orders != [] && n == Min(max, |orders|)
    ensures ChunkCount(|orders|, max) == 1 + ChunkCount(|orders[n..]|, max)
  {
    assert |orders[n..]| == |orders| - n;
  }

  lemma {:induction false} OkChunksBound(setup: PaymentSetup, chain: ChainSetup, key: MultiKey, orders: seq<Order>)
    requires key.token.Some? && chain.maxAtOnce > 0
    ensures var ok, all := OkChunks(setup, chain, key, orders), ChunkCount(|orders|, chain.maxAtOnce);
            ok <= all && (ChunkError(setup, chain, key, orders).None? <==> ok == all)
    decreases |orders|
  {
    if orders != [] {
      var max, n := chain.maxAtOnce, Min(chain.maxAtOnce, |orders|);
      var tx := ChunkTx(setup, chain, key, orders[..n]);
      hide ChunkTx;
      OkChunksBound(setup, chain, key, orders[n..]);
      CountUnroll(orders, max, n);
      assert tx.Ok? ==> OkChunks(setup, chain, key, orders) == 1 + OkChunks(setup, chain, key, orders[n..]);
      hide ChunkCount, OkChunks;
    }
  }

  lemma {:induction false} OkChunkAt(setup: PaymentSetup, chain: ChainSetup, key: MultiKey, orders: seq<Order>, k: nat)
    requires key.token.Some? && chain.maxAtOnce > 0 && k < ChunkCount(|orders|, chain.maxAtOnce)
    ensures k < OkChunks(setup, chain, key, orders) ==> Encodes(setup, chain, key, ChunkAt(orders, chain.maxAtOnce, k))
    ensures k == OkChunks(setup, chain, key, orders) ==>
            !Encodes(setup, chain, key, ChunkAt(orders, chain.maxAtOnce, k))
    decreases k
  {
    hide ChunkTx;
    var n := Min(chain.maxAtOnce, |orders|);
    ChunkUnroll(orders, chain.maxAtOnce, k, n);
    if k > 0 { OkChunkAt(setup, chain, key, orders[n..], k - 1); }
  }

  /** The committed chunks are exactly those before the first that cannot be encoded. */
  lemma OkChunksIff(setup: PaymentSetup, chain: ChainSetup, key: MultiKey, orders: seq<Order>)
    requires key.token.Some? && chain.maxAtOnce > 0
    ensures var ok, all := OkChunks(setup, chain, key, orders), ChunkCount(|orders|, chain.maxAtOnce);
            && ok <= all
            && (forall k | 0 <= k < ok :: Encodes(setup, chain, key, ChunkAt(orders, chain.maxAtOnce, k)))
            && (ok < all ==> !Encodes(setup, chain, key, ChunkAt(orders, chain.maxAtOnce, ok)))
            && (ChunkError(setup, chain, key, orders).None? <==> ok == all)
  {
    hide Encodes, OkChunks, ChunkError, ChunkAt;
    OkChunksBound(setup, chain, key, orders);
    forall k | 0 <= k <= OkChunks(setup, chain, key, orders) && k < ChunkCount(|orders|, chain.maxAtOnce)
      ensures Encodes(setup, chain, key, ChunkAt(orders, chain.maxAtOnce, k)) <==>
              k < OkChunks(setup, chain, key, orders)
    {
      OkChunkAt(setup, chain, key, orders, k);
    }
  }

  /** A batch inserts one transaction for each committed chunk, and fails exactly when a chunk is left. */
  lemma {:induction false} BatchCount(setup: PaymentSetup, chain: ChainSetup, key: MultiKey, s: State,
                                      orders: seq<Order>)
    requires key.token.Some? && chain.maxAtOnce > 0
    ensures var out := BatchRun(setup, chain, key, s, orders);
            && |out.s.txs| == |s.txs| + OkChunks(setup, chain, key, orders)
            && out.error == ChunkError(setup, chain, key, orders)
            && (out.error.None? <==>
                  OkChunks(setup, chain, key, orders) == ChunkCount(|orders|, chain.maxAtOnce))
    decreases |orders|
  {
    hide ChunkTx;
    OkChunksBound(setup, chain, key, orders);
    if orders != [] {
      var n := Min(chain.maxAtOnce, |orders|);
      match ChunkTx(setup, chain, key, orders[..n])
      case Err(_) =>
      case Ok(tx) => BatchCount(setup, chain, key, Commit(s, tx, AllRows(orders[..n])), orders[n..]);
    }
  }

  /** Transaction t was built from this chunk, and exactly the chunk's rows are linked to it. */
  ghost predicate CarriesChunk(setup: PaymentSetup, chain: ChainSetup, key: MultiKey, s: State, t: nat,
                               chunk: seq<Order>)
    requires key.token.Some?
  {
    && 1 <= |chunk| <= chain.maxAtOnce
    && t < |s.txs| && ChunkTx(setup, chain, key, chunk) == Ok(s.txs[t])
    && forall i :: Linked(s.transfers, i, t) <==> i in Ids(AllRows(chunk))
  }

  /** Transaction number k of a batch, whether the batch fails later or not, carries the k-th chunk. */
  lemma {:induction false} BatchLinkage(setup: PaymentSetup, chain: ChainSetup, key: MultiKey, s: State,
                                        orders: seq<Order>, k: nat, after: State, t: nat, chunk: seq<Order>)
    requires WellFormed(s) && OrdersOk(s.transfers, orders) && OfKey(orders, key)
    requires key.token.Some? && chain.maxAtOnce > 0 && k < OkChunks(setup, chain, key, orders)
    requires k < ChunkCount(|orders|, chain.maxAtOnce)
    requires after == BatchRun(setup, chain, key, s, orders).s
    requires t == |s.txs| + k && chunk == ChunkAt(orders, chain.maxAtOnce, k)
    ensures CarriesChunk(setup, chain, key, after, t, chunk)
    decreases |orders|
  {
    hide BatchRun, ChunkTx, OrdersOk, OfKey, WellFormed, CarriesChunk;
    var n := Min(chain.maxAtOnce, |orders|);
    ChunkUnroll(orders, chain.maxAtOnce, k, n);
    var s1 := BatchUnroll(setup, chain, key, s, orders, n);
    if k > 0 {
      BatchLinkage(setup, chain, key, s1, orders[n..], k - 1, after, t, chunk);
    }
  }

  /** A batch whose first chunk can be encoded carries it and goes on with the rest. */
  lemma BatchUnroll(setup: PaymentSetup, chain: ChainSetup, key: MultiKey, s: State, orders: seq<Order>, n: nat)
    returns (s1: State)
    requires WellFormed(s) && OrdersOk(s.transfers, orders) && OfKey(orders, key) && orders != []
    requires key.token.Some? && chain.maxAtOnce > 0 && n == Min(chain.maxAtOnce, |orders|)
    requires OkChunks(setup, chain, key, orders) > 0
    ensures WellFormed(s1) && OrdersOk(s1.transfers, orders[n..]) && OfKey(orders[n..], key)
    ensures |s1.txs| == |s.txs| + 1 && |orders[n..]| == |orders| - n
    ensures OkChunks(setup, chain, key, orders) == OkChunks(setup, chain, key, orders[n..]) + 1
    ensures BatchRun(setup, chain, key, s1, orders[n..]).s == BatchRun(setup, chain, key, s, orders).s
    ensures CarriesChunk(setup, chain, key, BatchRun(setup, chain, key, s, orders).s, |s.txs|, orders[..n])
    ensures Touches(s, s1, Ids(AllRows(orders[..n])))
  {
    hide ChunkTx, WellFormed, OrdersOk, OfKey, BatchRun, BatchResult, Touches, AllRows, OkChunks, Commit;
    var tx := UnrollOnce(setup, chain, key, s, orders, n);
    s1 := Commit(s, tx, AllRows(orders[..n]));
    ChunkReady(s, orders, n, tx, key);
    BatchFacts(setup, chain, key, s1, orders[n..]);
    ChunkStays(s, orders, n, tx, s1, BatchRun(setup, chain, key, s1, orders[n..]));
  }

  lemma ChunkReady(s: State, orders: seq<Order>, n: nat, tx: Tx, key: MultiKey)
    requires WellFormed(s) && OrdersOk(s.transfers, orders) && OfKey(orders, key) && 0 < n <= |orders|
    ensures var s1 := Commit(s, tx, AllRows(orders[..n]));
            && WellFormed(s1) && OrdersOk(s1.transfers, orders[n..]) && OfKey(orders[n..], key)
            && Touches(s, s1, Ids(AllRows(orders[..n]))) && |s1.txs| == |s.txs| + 1
  {
    hide WellFormed, OrdersOk, OfKey, Touches, AllRows, Ids;
    ChunkStep(s, orders, n, tx, key);
  }

  lemma UnrollOnce(setup: PaymentSetup, chain: ChainSetup, key: MultiKey, s: State, orders: seq<Order>, n: nat)
    returns (tx: Tx)
    requires orders != [] && key.token.Some? && chain.maxAtOnce > 0 && n == Min(chain.maxAtOnce, |orders|)
    requires OkChunks(setup, chain, key, orders) > 0
    ensures ChunkTx(setup, chain, key, orders[..n]) == Ok(tx)
    ensures OkChunks(setup, chain, key, orders) == OkChunks(setup, chain, key, orders[n..]) + 1
    ensures BatchRun(setup, chain, key, Commit(s, tx, AllRows(orders[..n])), orders[n..]).s ==
            BatchRun(setup, chain, key, s, orders).s
  {
    hide ChunkTx;
    tx := ChunkTx(setup, chain, key, orders[..n]).value;
  }

  lemma ChunkStays(s: State, orders: seq<Order>, n: nat, tx: Tx, s1: State, out: BatchOutcome)
    requires WellFormed(s) && OrdersOk(s.transfers, orders) && n <= |orders|
    requires s1 == Commit(s, tx, AllRows(orders[..n])) && OrdersOk(s1.transfers, orders[n..])
    requires BatchResult(s1, out, AllRows(orders[n..]))
    ensures |s.txs| < |out.s.txs| && out.s.txs[|s.txs|] == tx
    ensures forall i :: Linked(out.s.transfers, i, |s.txs|) <==> i in Ids(AllRows(orders[..n]))
  {
    hide AllRows;
    OrdersSplit(s.transfers, orders, n);
    FirstChunkStays(s, s1, out.s, tx, AllRows(orders[..n]), AllRows(orders[n..]));
  }

  lemma FirstChunkStays(s: State, s1: State, s2: State, tx: Tx, chunk: seq<Transfer>, rest: seq<Transfer>)
    requires WellFormed(s) && Fresh(s.transfers, chunk) && DistinctIds(chunk) && s1 == Commit(s, tx, chunk)
    requires Fresh(s1.transfers, rest) && Ids(chunk) !! Ids(rest) && |s1.transfers| == |s2.transfers|
    requires Touches(s1, s2, Ids(rest)) && Progress(s1, s2, rest)
    ensures forall i :: Linked(s2.transfers, i, |s.txs|) <==> i in Ids(chunk)
  {
    CommitLinks(s, tx, chunk);
    forall i ensures Linked(s2.transfers, i, |s.txs|) <==> Linked(s1.transfers, i, |s.txs|) {
      if i in Ids(rest) { var row :| row in rest && row.id == i; }
    }
  }

  /** The rows of chunks that are not committed are left as they were. */
  lemma {:induction false} LaterUntouched(setup: PaymentSetup, chain: ChainSetup, key: MultiKey, s: State,
                                          orders: seq<Order>, k: nat, row: Transfer)
    requires WellFormed(s) && OrdersOk(s.transfers, orders) && OfKey(orders, key)
    requires key.token.Some? && chain.maxAtOnce > 0 && k >= OkChunks(setup, chain, key, orders)
    requires k < ChunkCount(|orders|, chain.maxAtOnce) && row in AllRows(ChunkAt(orders, chain.maxAtOnce, k))
    ensures row in AllRows(orders) && row.id < |s.transfers|
    ensures var s' := BatchRun(setup, chain, key, s, orders).s;
            row.id < |s'.transfers| && s'.transfers[row.id] == row
    decreases |orders|
  {
    hide ChunkTx, OrdersOk, OfKey, WellFormed, CarriesChunk, BatchRun, OkChunks, ChunkAt, ChunkCount, Touches, AllRows;
    var n := Min(chain.maxAtOnce, |orders|);
    ChunkUnroll(orders, chain.maxAtOnce, k, n);
    if OkChunks(setup, chain, key, orders) == 0 {
      ChunkRowIn(orders, chain.maxAtOnce, k, row);
      NoChunkCommitted(setup, chain, key, s, orders);
      FreshRow(s.transfers, orders, row);
    } else {
      var s1 := BatchUnroll(setup, chain, key, s, orders, n);
      LaterUntouched(setup, chain, key, s1, orders[n..], k - 1, row);
      ChunkRowIn(orders, chain.maxAtOnce, k, row);
      FreshRow(s.transfers, orders, row);
    }
  }

  lemma NoChunkCommitted(setup: PaymentSetup, chain: ChainSetup, key: MultiKey, s: State, orders: seq<Order>)
    requires key.token.Some? && chain.maxAtOnce > 0 && OkChunks(setup, chain, key, orders) == 0
    ensures BatchRun(setup, chain, key, s, orders).s == s
  {
    hide ChunkTx;
  }

  lemma FreshRow(ts: seq<Transfer>, orders: seq<Order>, row: Transfer)
    requires OrdersOk(ts, orders) && row in AllRows(orders)
    ensures row.id < |ts| && ts[row.id] == row
  {
  }

  lemma {:induction false} ChunkRowIn(orders: seq<Order>, max: nat, k: nat, row: Transfer)
    requires max > 0 && k < ChunkCount(|orders|, max) && row in AllRows(ChunkAt(orders, max, k))
    ensures row in AllRows(orders)
    decreases k
  {
    var n := Min(max, |orders|);
    ChunkUnroll(orders, max, k, n);
    assert orders == orders[..n] + orders[n..];
    AllRowsConcat(orders[..n], orders[n..]);
    if k > 0 { ChunkRowIn(orders[n..], max, k - 1, row); }
  }

  /** Every row of a batch is in one of its chunks. */
  lemma {:induction false} RowInChunk(orders: seq<Order>, max: nat, row: Transfer) returns (k: nat)
    requires max > 0 && row in AllRows(orders)
    ensures k < ChunkCount(|orders|, max) && row in AllRows(ChunkAt(orders, max, k))
    decreases |orders|
  {
    var n := Min(max, |orders|);
    assert orders == orders[..n] + orders[n..];
    AllRowsConcat(orders[..n], orders[n..]);
    if row in AllRows(orders[..n]) {
      k := 0;
    } else {
      var j := RowInChunk(orders[n..], max, row);
      k := j + 1;
    }
  }

  /** The size of the chunk that holds the i-th of g receivers. */
  function SizeAround(g: nat, max: nat, i: nat): (size: nat)
    requires max > 0 && i < g
    ensures 1 <= size <= max
    decreases i
  {
    if i < Min(max, g) then Min(max, g) else SizeAround(g - max, max, i - max)
  }

  /** Full chunks, then what is left. */
  lemma {:induction false} SizeAroundIs(g: nat, max: nat, i: nat)
    requires max > 0 && i < g
    ensures SizeAround(g, max, i) == Min(max, g - (i / max) * max)
    decreases i
  {
    if i < max {
      RemainderUnique(i, max, 0, i);
    } else {
      SizeAroundIs(g - max, max, i - max);
      NextQuotient(i, max);
    }
  }

  lemma NextQuotient(i: nat, max: nat)
    requires 0 < max <= i
    ensures (i / max) * max == ((i - max) / max) * max + max
  {
    var q, r := (i - max) / max, (i - max) % max;
    assert i - max == q * max + r;
    assert i == (q + 1) * max + r;
    RemainderUnique(i, max, q + 1, r);
  }

  /** Where the i-th group is. */
  lemma {:induction false} ChunkOfOrder(orders: seq<Order>, max: nat, i: nat) returns (k: nat)
    requires max > 0 && i < |orders|
    ensures k < ChunkCount(|orders|, max) && orders[i] in ChunkAt(orders, max, k)
    ensures |ChunkAt(orders, max, k)| == SizeAround(|orders|, max, i)
    decreases i
  {
    hide AllRows, ChunkAt, ChunkCount;
    var n := Min(max, |orders|);
    CountUnroll(orders, max, n);
    if i < n {
      k := 0;
      ChunkUnroll(orders, max, 0, n);
      assert orders[..n][i] == orders[i];
    } else {
      assert orders[n..][i - n] == orders[i];
      var j := ChunkOfOrder(orders[n..], max, i - n);
      k := j + 1;
      ChunkUnroll(orders, max, k, n);
    }
  }

  lemma {:induction false} RowInSomeOrder(orders: seq<Order>, row: Transfer) returns (i: nat)
    requires row in AllRows(orders)
    ensures i < |orders| && row in orders[i].rows
  {
    if row in orders[0].rows {
      i := 0;
    } else {
      var j := RowInSomeOrder(orders[1..], row);
      i := j + 1;
    }
  }

  /** Where a row of the k-th chunk is. */
  lemma {:induction false} ChunkRowAt(orders: seq<Order>, max: nat, k: nat, row: Transfer) returns (i: nat)
    requires max > 0 && k < ChunkCount(|orders|, max) && row in AllRows(ChunkAt(orders, max, k))
    ensures i < |orders| && row in orders[i].rows && |ChunkAt(orders, max, k)| == SizeAround(|orders|, max, i)
    decreases k
  {
    hide AllRows, ChunkAt, ChunkCount;
    var n := Min(max, |orders|);
    ChunkUnroll(orders, max, k, n);
    if k == 0 {
      i := RowInSomeOrder(orders[..n], row);
    } else {
      var j := ChunkRowAt(orders[n..], max, k - 1, row);
      i := j + n;
      assert orders[n..][j] == orders[i];
    }
  }

  // ---- exactly which batches can be encoded ----

  predicate OrderFits(setup: PaymentSetup, chain: ChainSetup, key: MultiKey, size: nat, o: Order) {
    AllParse(o.rows) && Fits(setup, chain, key, size, RowsSum(o.rows))
  }

  lemma ChunkFits(setup: PaymentSetup, chain: ChainSetup, key: MultiKey, chunk: seq<Order>)
    requires chunk != [] && key.token.Some?
    ensures ChunkTx(setup, chain, key, chunk).Ok? <==>
            forall i | 0 <= i < |chunk| :: OrderFits(setup, chain, key, |chunk|, chunk[i])
  {
    hide EncodeChunk, Fits, RowsSum;
    if AllParse(AllRows(chunk)) {
      EncodesIff(setup, chain, key, Receivers(chunk), Sums(chunk), AnyFinish(AllRows(chunk)));
    }
    RowsParse(chunk);
  }

  lemma {:induction false} RowsParse(orders: seq<Order>)
    ensures AllParse(AllRows(orders)) <==> forall i | 0 <= i < |orders| :: AllParse(orders[i].rows)
  {
    if orders != [] {
      RowsParse(orders[1..]);
      assert orders == [orders[0]] + orders[1..];
    }
  }

  /** Every receiver's group is readable and fits the chunk around it. */
  predicate AllFit(setup: PaymentSetup, chain: ChainSetup, key: MultiKey, orders: seq<Order>)
    requires chain.maxAtOnce > 0
  {
    forall i | 0 <= i < |orders| :: OrderFits(setup, chain, key, SizeAround(|orders|, chain.maxAtOnce, i), orders[i])
  }

  lemma AllFitSplit(setup: PaymentSetup, chain: ChainSetup, key: MultiKey, orders: seq<Order>, n: nat)
    requires chain.maxAtOnce > 0 && orders != [] && n == Min(chain.maxAtOnce, |orders|)
    ensures AllFit(setup, chain, key, orders) <==>
            (forall i | 0 <= i < n :: OrderFits(setup, chain, key, n, orders[..n][i])) &&
            AllFit(setup, chain, key, orders[n..])
  {
    hide OrderFits;
    var rest, max := orders[n..], chain.maxAtOnce;
    if AllFit(setup, chain, key, orders) {
      forall i | 0 <= i < |rest| ensures OrderFits(setup, chain, key, SizeAround(|rest|, max, i), rest[i]) {
        assert orders[n + i] == rest[i] && SizeAround(|orders|, max, n + i) == SizeAround(|rest|, max, i);
      }
      forall i | 0 <= i < n ensures OrderFits(setup, chain, key, n, orders[..n][i]) {
        assert orders[i] == orders[..n][i] && SizeAround(|orders|, max, i) == n;
      }
    } else {
      var i :| 0 <= i < |orders| && !OrderFits(setup, chain, key, SizeAround(|orders|, max, i), orders[i]);
      if i < n {
        assert orders[i] == orders[..n][i] && SizeAround(|orders|, max, i) == n;
      } else {
        assert orders[i] == rest[i - n] && SizeAround(|orders|, max, i) == SizeAround(|rest|, max, i - n);
      }
    }
  }

  /** A batch fails in no chunk exactly when every group fits. */
  lemma {:induction false} BatchFits(setup: PaymentSetup, chain: ChainSetup, key: MultiKey, orders: seq<Order>)
    requires key.token.Some? && chain.maxAtOnce > 0
    ensures ChunkError(setup, chain, key, orders).None? <==> AllFit(setup, chain, key, orders)
    decreases |orders|
  {
    if orders != [] {
      hide ChunkTx, OrderFits, AllFit;
      var n := Min(chain.maxAtOnce, |orders|);
      ChunkFits(setup, chain, key, orders[..n]);
      BatchFits(setup, chain, key, orders[n..]);
      AllFitSplit(setup, chain, key, orders, n);
    }
  }
}
