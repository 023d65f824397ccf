/** The allowance check of a gather: what a token payment through the multi contract needs, and when it is refused. */
module Approvals {
  import opened Prelude
  import opened Text
  import opened Contracts
  import opened Ledger
  import opened Orders
  import opened Chunks
  import opened Gathering
  import opened GatherFacts
  import opened PostFacts
  import opened MultiFacts
  import opened GatherTheorems
  import opened Overlays
  import opened Plan
  import opened PlanFacts
  import opened GatherPlan
  import opened Closings

  // ---- nothing else refuses for want of an allowance ----

  lemma EncodingIsCustom(setup: PaymentSetup, chain: ChainSetup, key: MultiKey, chunk: seq<Order>)
    requires chunk != [] && key.token.Some? && ChunkTx(setup, chain, key, chunk).Err?
    ensures ChunkTx(setup, chain, key, chunk).error.Custom?
  {
    hide ParseAddress, ParseU256;
  }

  lemma {:induction false} ChunkErrorIsCustom(setup: PaymentSetup, chain: ChainSetup, key: MultiKey,
                                              orders: seq<Order>)
    requires key.token.Some? && chain.maxAtOnce > 0 && ChunkError(setup, chain, key, orders).Some?
    ensures ChunkError(setup, chain, key, orders).value.Custom?
    decreases |orders|
  {
    hide ChunkTx;
    var n := Min(chain.maxAtOnce, |orders|);
    match ChunkTx(setup, chain, key, orders[..n])
    case Err(_) => EncodingIsCustom(setup, chain, key, orders[..n]);
    case Ok(_) => ChunkErrorIsCustom(setup, chain, key, orders[n..]);
  }

  /** A batch is refused for want of an allowance exactly when it lacks one. */
  lemma RefusedIffLacks(setup: PaymentSetup, allowances: Allowances, key: MultiKey, orders: seq<Order>)
    requires ValidSetup(setup)
    ensures var e := BatchError(setup, allowances, key, orders);
            && (e.Some? && e.value.NoAllowanceFound? <==> Lacks(setup, allowances, key))
            && (Lacks(setup, allowances, key) ==> RequestFor(setup, key, e.value))
  {
    hide CheckAllowance, ChunkError, RequestFor;
    if key.chainId in setup.chains && key.token.Some? {
      hide Lacks, Approved, Checked;
      Gate(setup, allowances, key);
      var chain := setup.chains[key.chainId];
      if CheckAllowance(setup, chain, allowances, key).None? && ChunkError(setup, chain, key, orders).Some? {
        ChunkErrorIsCustom(setup, chain, key, orders);
      }
    }
  }

  // ---- gathers that stop ----

  /** A pending token payment lacks its allowance. */
  ghost predicate SomeLack(setup: PaymentSetup, allowances: Allowances, rows: seq<Transfer>) {
    exists row :: row in rows && Classify(setup, row).Grouped? && Lacks(setup, allowances, row.Multi())
  }

  /** A close marker whose deposit id is unreadable, or whose chain or lock contract is not configured. */
  ghost predicate BadMarker(setup: PaymentSetup, row: Transfer) {
    && NamesAccount(row.fromAddr) && IsCloseMarker(row)
    && (ParseU256(row.depositId.value).None? || row.chainId !in setup.chains ||
        setup.chains[row.chainId].lockContract.None?)
  }

  lemma StopIffBadMarker(setup: PaymentSetup, row: Transfer)
    ensures Classify(setup, row).Stop? <==> BadMarker(setup, row)
    ensures Classify(setup, row).Stop? ==> Classify(setup, row).e.Custom?
  {
    hide ParseAddress, ParseAmount, ParseU256;
  }

  lemma LackIffUnmet(setup: PaymentSetup, allowances: Allowances, rows: seq<Transfer>)
    requires ValidSetup(setup)
    ensures AllowancesMet(setup, allowances, rows) <==> !SomeLack(setup, allowances, rows)
  {
    hide Classify, BatchError, PlanOrders, PayKeys, Lacks, RequestFor;
    PayKeysFacts(setup, rows);
    forall key | key in PayKeys(setup, rows) && key.token.Some?
      ensures PlanError(setup, allowances, rows, key.Multi()).Some? &&
              PlanError(setup, allowances, rows, key.Multi()).value.NoAllowanceFound? <==>
              Lacks(setup, allowances, key.Multi())
    {
      RefusedIffLacks(setup, allowances, key.Multi(), PlanOrders(setup, rows, key.Multi()));
    }
    if row :| row in rows && Classify(setup, row).Grouped? && Lacks(setup, allowances, row.Multi()) {
      LackingHasToken(setup, allowances, row.Multi());
      assert Pays(setup, rows, row.KeyOf());
    }
    if key :| key in PayKeys(setup, rows) && key.token.Some? && Lacks(setup, allowances, key.Multi()) {
      assert Pays(setup, rows, key);
      var row :| row in rows && Classify(setup, row).Grouped? && row.KeyOf() == key;
      assert row.Multi() == key.Multi();
    }
  }

  lemma LackingHasToken(setup: PaymentSetup, allowances: Allowances, key: MultiKey)
    requires Lacks(setup, allowances, key)
    ensures key.token.Some?
  {
  }

  lemma NoBatches(setup: PaymentSetup, allowances: Allowances, s: State, multi: MultiMap, order: seq<MultiKey>,
                  failed: set<MultiKey>)
    requires ValidSetup(setup) && order == []
    ensures MultiRun(setup, allowances, s, multi, order, failed) == MultiOutcome(s, failed, None)
  {
  }

  /** A run over batches that stops has met one that lacks its allowance, and asks for that one. */
  lemma {:induction false} MultiStops(setup: PaymentSetup, allowances: Allowances, s: State, multi: MultiMap,
                                      order: seq<MultiKey>, failed: set<MultiKey>) returns (key: MultiKey)
    requires ValidSetup(setup) && forall k | k in order :: k in multi && k.token.Some?
    requires MultiRun(setup, allowances, s, multi, order, failed).error.Some?
    ensures key in order && Lacks(setup, allowances, key)
    ensures RequestFor(setup, key, MultiRun(setup, allowances, s, multi, order, failed).error.value)
    decreases |order|
  {
    hide BatchMulti, AfterBatch, MultiRun, Lacks, RequestFor;
    if order == [] {
      NoBatches(setup, allowances, s, multi, order, failed);
    } else {
      key := order[0];
      assert key in order;
      RunUnfolds(setup, allowances, s, multi, order, failed);
      BatchErrorIs(setup, allowances, key, s, multi[key]);
      RefusedIffLacks(setup, allowances, key, multi[key]);
      var b := BatchMulti(setup, allowances, key, s, multi[key]);
      if !(b.error.Some? && b.error.value.NoAllowanceFound?) {
        key := MultiStops(setup, allowances, AfterBatch(b), multi, order[1..],
                          if b.error.None? then failed else failed + {key});
      }
    }
  }

  lemma BatchErrorIs(setup: PaymentSetup, allowances: Allowances, key: MultiKey, s: State, orders: seq<Order>)
    requires ValidSetup(setup)
    ensures BatchMulti(setup, allowances, key, s, orders).error == BatchError(setup, allowances, key, orders)
  {
    hide BatchRun, ChunkError, CheckAllowance, OkChunks;
    if key.chainId in setup.chains && key.token.Some? {
      BatchCount(setup, setup.chains[key.chainId], key, s, orders);
    }
  }

  /** Exactly when a gather returns an error: for a bad close marker, or for a token payment that lacks its allowance;
      and an error that asks for an allowance asks for one that a pending payment lacks. */
  lemma StopsExactlyWhen(setup: PaymentSetup, allowances: Allowances, account: Address, chainId: int, s: State,
                         g: Gather)
    requires ValidSetup(setup) && Inv(s) && IsGather(setup, allowances, account, chainId, s, g)
    ensures var rows := Pending(s.transfers, account, chainId);
            var bad := exists row | row in rows :: BadMarker(setup, row);
            && (g.Error().None? <==> !bad && !SomeLack(setup, allowances, rows))
            && (g.Error().Some? ==> (g.Error().value.NoAllowanceFound? <==> !bad))
            && (g.Error().Some? && g.Error().value.NoAllowanceFound? ==>
                  exists row :: row in rows && Classify(setup, row).Grouped? &&
                    Lacks(setup, allowances, row.Multi()) && RequestFor(setup, row.Multi(), g.Error().value))
  {
    hide Inv, IsGather, Pending, Classify, Lacks, RequestFor, BadMarker, AllowancesMet, Stops, Gather.Error, SomeLack;
    var rows := Pending(s.transfers, account, chainId);
    StopsIffBadMarker(setup, rows);
    LackIffUnmet(setup, allowances, rows);
    NoErrorIff(setup, allowances, account, chainId, s, g);
    if g.Error().Some? { ErrorKind(setup, allowances, account, chainId, s, g); }
  }

  lemma NoErrorIff(setup: PaymentSetup, allowances: Allowances, account: Address, chainId: int, s: State, g: Gather)
    requires ValidSetup(setup) && Inv(s) && IsGather(setup, allowances, account, chainId, s, g)
    ensures var rows := Pending(s.transfers, account, chainId);
            g.Error().None? <==> !Stops(setup, rows) && AllowancesMet(setup, allowances, rows)
  {
    hide Inv, IsGather, Pending, AllowancesMet, Stops;
    GatherErrors(setup, allowances, account, chainId, s, g);
  }

  lemma ErrorKind(setup: PaymentSetup, allowances: Allowances, account: Address, chainId: int, s: State, g: Gather)
    requires ValidSetup(setup) && Inv(s) && IsGather(setup, allowances, account, chainId, s, g) && g.Error().Some?
    ensures var rows := Pending(s.transfers, account, chainId);
            && (g.Error().value.NoAllowanceFound? <==> !Stops(setup, rows))
            && (g.Error().value.NoAllowanceFound? ==>
                  exists row :: row in rows && Classify(setup, row).Grouped? &&
                    Lacks(setup, allowances, row.Multi()) && RequestFor(setup, row.Multi(), g.Error().value))
  {
    hide Inv, PreRun, SortedPass, MultiRun, Pending, Classify, Lacks, RequestFor, Stops, PassOfPlan, PlanGroups;
    hide PayKeys;
    var rows := Pending(s.transfers, account, chainId);
    PreAsPlanned(setup, allowances, account, chainId, s, g);
    if g.pre.error.Some? {
      PreStopsCustom(setup, s, map[], rows);
    } else {
      PassAsPlan(setup, allowances, account, chainId, s, g);
      NoPassError(setup, rows, g.pre.s, g.pass);
      var row := RowThatLacks(setup, allowances, rows, g);
      RequestIsForAllowance(setup, row.Multi(), g.multi.error.value);
    }
  }

  lemma RequestIsForAllowance(setup: PaymentSetup, key: MultiKey, e: PaymentError)
    requires RequestFor(setup, key, e)
    ensures e.NoAllowanceFound?
  {
  }

  lemma StopsIffBadMarker(setup: PaymentSetup, rows: seq<Transfer>)
    ensures Stops(setup, rows) <==> exists row | row in rows :: BadMarker(setup, row)
  {
    hide Classify, BadMarker;
    forall row ensures Classify(setup, row).Stop? <==> BadMarker(setup, row) { StopIffBadMarker(setup, row); }
  }

  /** A pending row behind the batch that stopped the second stage. */
  lemma RowThatLacks(setup: PaymentSetup, allowances: Allowances, rows: seq<Transfer>, g: Gather)
    returns (row: Transfer)
    requires ValidSetup(setup) && PassOfPlan(setup, rows, g.pre.s, g.pass)
    requires Enumerates(g.order, g.pass.multi.Keys)
    requires g.multi == MultiRun(setup, allowances, g.pass.s, g.pass.multi, g.order, {}) && g.multi.error.Some?
    ensures row in rows && Classify(setup, row).Grouped? && Lacks(setup, allowances, row.Multi())
    ensures RequestFor(setup, row.Multi(), g.multi.error.value)
  {
    hide MultiRun, Classify, PlanOrders, PayKeys, Lacks, RequestFor, NativeFails, NativeCount;
    forall k | k in g.order ensures k in g.pass.multi && k.token.Some? { assert PaysToken(setup, rows, k); }
    var key := MultiStops(setup, allowances, g.pass.s, g.pass.multi, g.order, {});
    assert PaysToken(setup, rows, key);
    var k5 :| k5 in PayKeys(setup, rows) && k5.token.Some? && k5.Multi() == key;
    PayKeysFacts(setup, rows);
    assert Pays(setup, rows, k5);
    row :| row in rows && Classify(setup, row).Grouped? && row.KeyOf() == k5;
    assert row.Multi() == key;
  }

  lemma {:induction false} PreStopsCustom(setup: PaymentSetup, s: State, groups: Groups, rows: seq<Transfer>)
    requires PreRun(setup, s, groups, rows).error.Some?
    ensures PreRun(setup, s, groups, rows).error.value.Custom?
    decreases |rows|
  {
    hide Classify, Push, Put, Commit;
    var row, rest := rows[0], rows[1..];
    match Classify(setup, row)
    case Rejected(e) => PreStopsCustom(setup, s.(transfers := Put(s.transfers, row.(error := Some(e)))), groups, rest);
    case Stop(_) => StopIffBadMarker(setup, row);
    case Closing(tx) => PreStopsCustom(setup, Commit(s, tx, [row]), groups, rest);
    case Grouped => PreStopsCustom(setup, s, Push(groups, row), rest);
  }

  // ---- payments that go through ----

  /** A batch that is refused links none of its rows. */
  lemma RefusedLinksNothing(setup: PaymentSetup, allowances: Allowances, key: MultiKey, s: State, orders: seq<Order>,
                            i: nat)
    requires ValidSetup(setup) && Inv(s) && OrdersOk(s.transfers, orders) && key.token.Some?
    requires i < |s.transfers| && s.transfers[i].txId.None?
    requires key.chainId !in setup.chains || (Checked(setup, key) && !Approved(setup, allowances, key))
    ensures var s1 := AfterBatch(BatchMulti(setup, allowances, key, s, orders));
            i < |s1.transfers| && s1.transfers[i].txId.None?
  {
    hide CheckAllowance, Checked, Approved, Inv, OrdersOk, BatchRun, Lacks, RequestFor;
    if key.chainId in setup.chains { Gate(setup, allowances, key); }
    var b := BatchMulti(setup, allowances, key, s, orders);
    assert b.s == s && b.orders == orders;
    OrdersInSync(s.transfers, orders);
    MarkFacts(s, AllRows(orders));
  }

  lemma OrdersInSync(ts: seq<Transfer>, orders: seq<Order>)
    requires OrdersOk(ts, orders)
    ensures InSync(ts, AllRows(orders)) && DistinctIds(AllRows(orders))
  {
  }

  lemma {:induction false} MultiLinksApproved(setup: PaymentSetup, allowances: Allowances, s: State, multi: MultiMap,
                                              order: seq<MultiKey>, failed: set<MultiKey>, i: nat)
    requires ValidSetup(setup) && MultiReady(s, multi, order)
    requires i < |s.transfers| && s.transfers[i].txId.None?
    requires var s' := MultiRun(setup, allowances, s, multi, order, failed).s;
             i < |s'.transfers| && s'.transfers[i].txId.Some?
    ensures var key := s.transfers[i].Multi();
            key.chainId in setup.chains && (Checked(setup, key) ==> Approved(setup, allowances, key))
    decreases |order|
  {
    hide MultiRun, BatchMulti, AfterBatch, Checked, Approved, Inv, OrdersOk, Together, Progress, AllLinked, AllMarked;
    if order == [] {
      NoBatches(setup, allowances, s, multi, order, failed);
    } else {
      var key, rest := order[0], order[1..];
      assert key in order;
      var b := BatchMulti(setup, allowances, key, s, multi[key]);
      var s1 := AfterBatch(b);
      RunUnfolds(setup, allowances, s, multi, order, failed);
      MultiStep(setup, allowances, key, s, multi[key]);
      MultiStepReady(s, s1, multi, order);
      EvolvedTo(s, s1, i);
      if s1.transfers[i].txId.Some? {
        LinkedHasKey(s, s1, multi[key], key, i);
        if key.chainId !in setup.chains || (Checked(setup, key) && !Approved(setup, allowances, key)) {
          RefusedLinksNothing(setup, allowances, key, s, multi[key], i);
        }
      } else if !(b.error.Some? && b.error.value.NoAllowanceFound?) {
        MultiLinksApproved(setup, allowances, s1, multi, rest, if b.error.None? then failed else failed + {key}, i);
      } else {
        assert s1 == b.s by { AfterRefusal(b); }
      }
    }
  }

  lemma LinkedHasKey(s: State, s1: State, orders: seq<Order>, key: MultiKey, i: nat)
    requires OrdersOk(s.transfers, orders) && OfKey(orders, key) && Touches(s, s1, Ids(AllRows(orders)))
    requires i < |s.transfers| && s1.transfers[i] != s.transfers[i]
    ensures s.transfers[i].Multi() == key
  {
    var row :| row in AllRows(orders) && row.id == i;
  }

  /** Whatever else goes wrong in a gather: a token payment outside any deposit gets a transaction only if, where the
      check applies, its payer has a confirmed allowance of at least 2^255 - 1 for the multi contract of its chain. */
  lemma PaidIsApproved(setup: PaymentSetup, allowances: Allowances, account: Address, chainId: int, s: State, g: Gather,
                       i: nat)
    requires ValidSetup(setup) && Inv(s) && IsGather(setup, allowances, account, chainId, s, g) && i < |s.transfers|
    requires i < |g.multi.s.transfers| && s.transfers[i].txId.None? && g.multi.s.transfers[i].txId.Some?
    ensures Checked(setup, s.transfers[i].Multi()) ==> Approved(setup, allowances, s.transfers[i].Multi())
  {
    hide Inv, PreRun, SortedPass, MultiRun, Pending, SortedKeys, Classify, IsPending, Evolves, Approved;
    var rows, row := Pending(s.transfers, account, chainId), s.transfers[i];
    if Checked(setup, row.Multi()) {
      WellFormedLedger(s);
      PendingSound(s.transfers, account, chainId);
      RowAfterGather(setup, allowances, account, chainId, s, g, i);
      NotClosing(setup, row);
      PreRunRow(setup, s, map[], rows, i);
      PreStage(setup, s, account, chainId, g.pre);
      assert g.pre.s.transfers[i] == row;
      if g.pre.error.None? {
        PassStage(setup, g.pre, g.keys, g.pass);
        assert g.pass.s.transfers[i] == row by { assert !NativeRow(g.pre.groups, g.keys, row); }
        ReadyForMulti(g.pass, g.order);
        MultiLinksApproved(setup, allowances, g.pass.s, g.pass.multi, g.order, {}, i);
      }
    }
  }

  lemma NotClosing(setup: PaymentSetup, row: Transfer)
    requires row.depositId.None?
    ensures !Classify(setup, row).Closing?
  {
  }
}
