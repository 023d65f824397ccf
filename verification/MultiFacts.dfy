/** What MultiRun does to every row, for any order of the four-part keys. */
module MultiFacts {
  import opened Prelude
  import opened Contracts
  import opened Ledger
  import opened Orders
  import opened Chunks
  import opened Gathering
  import opened GatherFacts
  import opened PostFacts

  /** The row carries the failure text, and is otherwise untouched or already linked. */
  predicate Marked(x: Transfer, x': Transfer, lo: nat, hi: nat) {
    && x'.error == Some(GATHER_ERROR)
    && (x'.(error := None) == x || NewlyLinked(x, x'.(error := None), lo, hi))
  }

  ghost predicate AllMarked(s: State, s': State, rows: seq<Transfer>) {
    forall row | row in rows :: row.id < |s'.transfers| && Marked(row, s'.transfers[row.id], |s.txs|, |s'.txs|)
  }

  /** The ledger after one batch: as it left it, or with its rows marked when it failed. */
  function AfterBatch(out: BatchOutcome): State {
    match out.error
    case Some(Custom(_)) => out.s.(transfers := MarkRows(out.s.transfers, AllRows(out.orders), GATHER_ERROR))
    case _ => out.s
  }

  /** A batch refused before its first chunk has changed nothing. */
  lemma NotStarted(s: State, orders: seq<Order>)
    requires Inv(s) && OrdersOk(s.transfers, orders)
    ensures forall e :: BatchResult(s, BatchOutcome(s, orders, Some(e)), AllRows(orders))
  {
  }

  lemma BatchMultiFacts(setup: PaymentSetup, allowances: Allowances, key: MultiKey, s: State, orders: seq<Order>)
    requires ValidSetup(setup) && Inv(s) && OrdersOk(s.transfers, orders) && OfKey(orders, key) && key.token.Some?
    ensures var out, rows := BatchMulti(setup, allowances, key, s, orders), AllRows(orders);
            Inv(out.s) && BatchResult(s, out, rows)
  {
    hide BatchRun, CheckAllowance, Inv, BatchResult;
    WellFormedLedger(s);
    NotStarted(s, orders);
    if key.chainId in setup.chains {
      BatchFacts(setup, setup.chains[key.chainId], key, s, orders);
      BatchKeepsInv(setup, setup.chains[key.chainId], key, s, orders);
    }
  }

  /** Marking the rows of a failed batch from their copies in memory only adds the error text. */
  lemma MarkFacts(s: State, rows: seq<Transfer>)
    requires Inv(s) && InSync(s.transfers, rows) && DistinctIds(rows)
    ensures var s' := s.(transfers := MarkRows(s.transfers, rows, GATHER_ERROR));
            && Inv(s') && |s'.transfers| == |s.transfers|
            && (forall i | 0 <= i < |s.transfers| ::
                  s'.transfers[i] == if i in Ids(rows) then s.transfers[i].(error := Some(GATHER_ERROR))
                                     else s.transfers[i])
  {
    MarkRowsTable(s.transfers, rows, GATHER_ERROR);
    var ts' := MarkRows(s.transfers, rows, GATHER_ERROR);
    forall i | 0 <= i < |s.transfers|
      ensures ts'[i] == if i in Ids(rows) then s.transfers[i].(error := Some(GATHER_ERROR)) else s.transfers[i]
    {
      if i in Ids(rows) { var row :| row in rows && row.id == i; }
    }
    ErrorsKeepInv(s, ts');
  }

  /** The rows of a failed batch after marking. */
  lemma MarkedRows(s: State, b: State, ts': seq<Transfer>, rows: seq<Transfer>)
    requires Fresh(s.transfers, rows) && Progress(s, b, rows) && Together(b, rows)
    requires |ts'| == |b.transfers|
    requires forall i | 0 <= i < |ts'| ::
               ts'[i] == if i in Ids(rows) then b.transfers[i].(error := Some(GATHER_ERROR)) else b.transfers[i]
    ensures AllMarked(s, b.(transfers := ts'), rows) && Together(b.(transfers := ts'), rows)
  {
    forall row | row in rows
      ensures ts'[row.id] == b.transfers[row.id].(error := Some(GATHER_ERROR))
      ensures Marked(row, ts'[row.id], |s.txs|, |b.txs|)
    {
      assert row.id in Ids(rows) && row.error.None?;
    }
  }

  lemma ErrorsEvolve(s: State, s': State)
    requires s'.txs == s.txs && |s'.transfers| == |s.transfers|
    requires forall i | 0 <= i < |s.transfers| ::
               s'.transfers[i] == s.transfers[i] || s'.transfers[i] == s.transfers[i].(error := Some(GATHER_ERROR))
    ensures Evolves(s, s')
  {
  }

  /** Marking a failed batch's rows keeps their links. */
  lemma MarkStep(s: State, b: State, s1: State, memory: seq<Transfer>, rows: seq<Transfer>)
    requires Fresh(s.transfers, rows) && Touches(s, b, Ids(rows)) && Progress(s, b, rows) && Together(b, rows)
    requires Inv(b) && InSync(b.transfers, memory) && DistinctIds(memory) && Ids(memory) == Ids(rows)
    requires s1 == b.(transfers := MarkRows(b.transfers, memory, GATHER_ERROR))
    ensures Inv(s1) && Touches(s, s1, Ids(rows)) && Evolves(b, s1) && AllMarked(s, s1, rows) && Together(s1, rows)
  {
    hide Inv, MarkRows;
    MarkFacts(b, memory);
    ErrorsEvolve(b, s1);
    MarkedRows(s, b, s1.transfers, rows);
  }

  /** One key of the loop. */
  lemma MultiStep(setup: PaymentSetup, allowances: Allowances, key: MultiKey, s: State, orders: seq<Order>)
    requires ValidSetup(setup) && Inv(s) && OrdersOk(s.transfers, orders) && OfKey(orders, key) && key.token.Some?
    ensures var out, rows := BatchMulti(setup, allowances, key, s, orders), AllRows(orders);
            var s1 := AfterBatch(out);
            && Inv(s1) && Grows(s, s1, Ids(rows)) && Together(s1, rows)
            && (out.error.None? ==> AllLinked(s, s1, rows))
            && (out.error.Some? && out.error.value.Custom? ==> AllMarked(s, s1, rows))
            && (out.error.Some? && out.error.value.NoAllowanceFound? ==> Progress(s, s1, rows))
  {
    var out, rows := BatchMulti(setup, allowances, key, s, orders), AllRows(orders);
    BatchMultiFacts(setup, allowances, key, s, orders);
    KeptFromFresh(s, out.s, rows);
    if out.error.Some? && out.error.value.Custom? {
      MarkStep(s, out.s, AfterBatch(out), AllRows(out.orders), rows);
      GrowsLinks(s, out.s, AfterBatch(out));
    }
  }

  ghost predicate MultiReady(s: State, multi: MultiMap, order: seq<MultiKey>) {
    && Inv(s) && NoRepeats(order)
    && forall k | k in order :: k in multi && k.token.Some? && OrdersOk(s.transfers, multi[k]) && OfKey(multi[k], k)
  }

  ghost predicate OrderRow(multi: MultiMap, order: seq<MultiKey>, row: Transfer) {
    row.Multi() in order && InMulti(multi, row)
  }

  ghost predicate MultiFrame(s: State, s': State, multi: MultiMap, order: seq<MultiKey>) {
    && |s'.transfers| == |s.transfers| && s.txs <= s'.txs && Evolves(s, s')
    && forall i | 0 <= i < |s.transfers| && !OrderRow(multi, order, s.transfers[i]) ::
         s'.transfers[i] == s.transfers[i]
  }

  /** Without an allowance error, every batch either linked all its rows or marked all of them, and none
      split a receiver's group over two transactions. */
  ghost predicate MultiRows(s: State, out: MultiOutcome, multi: MultiMap, order: seq<MultiKey>) {
    forall k | k in order && k in multi ::
      && (if k in out.failed then AllMarked(s, out.s, AllRows(multi[k])) else AllLinked(s, out.s, AllRows(multi[k])))
      && Together(out.s, AllRows(multi[k]))
  }

  lemma MultiStepReady(s: State, s1: State, multi: MultiMap, order: seq<MultiKey>)
    requires MultiReady(s, multi, order) && order != [] && Inv(s1)
    requires Touches(s, s1, Ids(AllRows(multi[order[0]])))
    ensures MultiReady(s1, multi, order[1..]) && order[0] !in order[1..]
  {
    var key, rest := order[0], order[1..];
    assert key in order;
    forall k | k in rest ensures OrdersOk(s1.transfers, multi[k]) {
      assert k in order && k != key;
      forall x, y | x in AllRows(multi[key]) && y in AllRows(multi[k]) ensures x.id != y.id {
        assert s.transfers[x.id] == x && s.transfers[y.id] == y && x.Multi() == key && y.Multi() == k;
      }
      FreshFrame(s, s1, multi[k]);
    }
  }

  lemma MultiFrameStep(s: State, s1: State, s2: State, multi: MultiMap, order: seq<MultiKey>)
    requires order != [] && order[0] in multi && Fresh(s.transfers, AllRows(multi[order[0]]))
    requires OfKey(multi[order[0]], order[0])
    requires Grows(s, s1, Ids(AllRows(multi[order[0]]))) && MultiFrame(s1, s2, multi, order[1..])
    ensures MultiFrame(s, s2, multi, order)
  {
    forall row | row in AllRows(multi[order[0]]) ensures OrderRow(multi, order, s.transfers[row.id]) {
      assert s.transfers[row.id] == row && row.Multi() == order[0];
    }
    forall i | 0 <= i < |s.transfers| && !OrderRow(multi, order, s.transfers[i])
      ensures s2.transfers[i] == s.transfers[i]
    {
      assert i !in Ids(AllRows(multi[order[0]]));
      assert !OrderRow(multi, order[1..], s.transfers[i]);
    }
    GrowsLinks(s, s1, s2);
  }

  /** The rows of the first key keep what their batch did to them. */
  lemma FirstKeyStays(s: State, s1: State, s2: State, multi: MultiMap, order: seq<MultiKey>, row: Transfer)
    requires order != [] && order[0] in multi && order[0] !in order[1..]
    requires row in AllRows(multi[order[0]]) && OfKey(multi[order[0]], order[0])
    requires row.id < |s1.transfers| && s1.transfers[row.id].Multi() == row.Multi()
    requires MultiFrame(s1, s2, multi, order[1..])
    ensures s2.transfers[row.id] == s1.transfers[row.id]
  {
    assert row.Multi() == order[0];
    assert !OrderRow(multi, order[1..], s1.transfers[row.id]);
  }

  lemma MultiRowsStep(s: State, s1: State, out: MultiOutcome, multi: MultiMap, order: seq<MultiKey>)
    requires order != [] && order[0] in multi && order[0] !in order[1..] && OfKey(multi[order[0]], order[0])
    requires |s.txs| <= |s1.txs| && |s1.transfers| == |s.transfers|
    requires if order[0] in out.failed then AllMarked(s, s1, AllRows(multi[order[0]]))
             else AllLinked(s, s1, AllRows(multi[order[0]]))
    requires Together(s1, AllRows(multi[order[0]]))
    requires MultiFrame(s1, out.s, multi, order[1..]) && MultiRows(s1, out, multi, order[1..])
    ensures MultiRows(s, out, multi, order)
  {
    var rows := AllRows(multi[order[0]]);
    forall row | row in rows ensures row.id < |s1.transfers| && out.s.transfers[row.id] == s1.transfers[row.id] {
      FirstKeyStays(s, s1, out.s, multi, order, row);
    }
    forall k | k in order && k in multi
      ensures if k in out.failed then AllMarked(s, out.s, AllRows(multi[k])) else AllLinked(s, out.s, AllRows(multi[k]))
      ensures Together(out.s, AllRows(multi[k]))
    {
      if k != order[0] { assert k in order[1..]; }
    }
  }

  /** The batches keep the ledger invariant and touch only their own rows. If no allowance is missing,
      every row ends up linked, or marked with the failure text when its batch failed. */
  lemma {:induction false} MultiRunFacts(setup: PaymentSetup, allowances: Allowances, s: State, multi: MultiMap,
                                         order: seq<MultiKey>, failed: set<MultiKey>, out: MultiOutcome)
    requires ValidSetup(setup) && MultiReady(s, multi, order) && forall k | k in order :: k !in failed
    requires out == MultiRun(setup, allowances, s, multi, order, failed)
    ensures Inv(out.s) && MultiFrame(s, out.s, multi, order)
    ensures out.error.None? ==> MultiRows(s, out, multi, order)
    ensures failed <= out.failed && forall k | k in out.failed :: k in failed || k in order
    decreases |order|
  {
    if order != [] {
      var key, rest := order[0], order[1..];
      assert key in order;
      var b := BatchMulti(setup, allowances, key, s, multi[key]);
      var s1 := AfterBatch(b);
      MultiStep(setup, allowances, key, s, multi[key]);
      MultiStepReady(s, s1, multi, order);
      if b.error.Some? && b.error.value.NoAllowanceFound? {
        assert out == MultiOutcome(b.s, failed, b.error);
        MultiFrameStep(s, s1, s1, multi, order);
      } else {
        var failed1 := if b.error.None? then failed else failed + {key};
        assert out == MultiRun(setup, allowances, s1, multi, rest, failed1);
        forall k | k in rest ensures k in order && k !in failed1 {}
        MultiRunFacts(setup, allowances, s1, multi, rest, failed1, out);
        MultiFrameStep(s, s1, out.s, multi, order);
        if out.error.None? { MultiRowsStep(s, s1, out, multi, order); }
      }
    }
  }
}
