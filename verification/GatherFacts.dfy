/** What one gather does to every row: proofs about the stages of Gathering. */
module GatherFacts {
  import opened Prelude
  import opened Bytes
  import opened Text
  import opened Contracts
  import opened Ledger
  import opened Orders
  import opened Chunks
  import opened Gathering

  // ---- pending rows ----

  lemma AppendDistinct(rows: seq<Transfer>, row: Transfer)
    requires DistinctIds(rows) && row.id !in Ids(rows)
    ensures DistinctIds(rows + [row])
  {
    DistinctConcat(rows, [row]);
    OneRow(row, 0);
  }

  lemma {:induction false} PendingSound(ts: seq<Transfer>, account: Address, chainId: int)
    requires forall i | 0 <= i < |ts| :: ts[i].id == i
    ensures var p := Pending(ts, account, chainId);
            forall row | row in p :: row.id < |ts| && ts[row.id] == row && IsPending(row, account, chainId)
  {
    if ts != [] { PendingSound(ts[..|ts| - 1], account, chainId); }
  }

  lemma {:induction false} PendingComplete(ts: seq<Transfer>, account: Address, chainId: int, i: nat)
    requires i < |ts| && IsPending(ts[i], account, chainId)
    ensures ts[i] in Pending(ts, account, chainId)
  {
    if i < |ts| - 1 { PendingComplete(ts[..|ts| - 1], account, chainId, i); }
  }

  /** The selection, said outright: the rows of the account and chain without transaction and without error. */
  lemma PendingIff(ts: seq<Transfer>, account: Address, chainId: int, row: Transfer)
    requires forall i | 0 <= i < |ts| :: ts[i].id == i
    ensures row in Pending(ts, account, chainId) <==>
            && row in ts && row.txId.None? && row.error.None?
            && row.fromAddr == PrintAddress(account) && row.chainId == chainId
  {
    hide PrintAddress;
    PendingSound(ts, account, chainId);
    if row in ts && IsPending(row, account, chainId) {
      var i :| 0 <= i < |ts| && ts[i] == row;
      PendingComplete(ts, account, chainId, i);
    }
  }

  /** Why a row is rejected: by its sender first, then by its receiver; a close marker has no receiver to be rejected
      for. */
  lemma RejectedWhy(setup: PaymentSetup, row: Transfer)
    ensures Classify(setup, row).Rejected? <==>
            || ParseAddress(row.fromAddr).None? || ParseAddress(row.fromAddr).value == 0
            || (!IsCloseMarker(row) && (ParseAddress(row.receiverAddr).None? ||
                                        ParseAddress(row.receiverAddr).value == 0))
    ensures Classify(setup, row).Rejected? ==>
              Classify(setup, row).error ==
              if ParseAddress(row.fromAddr).None? then "Invalid from address"
              else if ParseAddress(row.fromAddr).value == 0 then "from_addr is zero"
              else if ParseAddress(row.receiverAddr).None? then "Invalid receiver address"
              else "receiver_addr is zero"
  {
    hide ParseAddress, ParseAmount, ParseU256;
  }

  lemma {:induction false} PendingDistinct(ts: seq<Transfer>, account: Address, chainId: int)
    requires forall i | 0 <= i < |ts| :: ts[i].id == i
    ensures DistinctIds(Pending(ts, account, chainId))
  {
    if ts != [] {
      var front := ts[..|ts| - 1];
      PendingDistinct(front, account, chainId);
      PendingSound(front, account, chainId);
      if IsPending(ts[|ts| - 1], account, chainId) {
        AppendDistinct(Pending(front, account, chainId), ts[|ts| - 1]);
      } else {
        assert Pending(ts, account, chainId) == Pending(front, account, chainId);
      }
    }
  }

  // ---- single steps ----

  /** Changing only error texts keeps the ledger invariant. */
  lemma ErrorsKeepInv(s: State, ts': seq<Transfer>)
    requires Inv(s) && |ts'| == |s.transfers|
    requires forall i | 0 <= i < |ts'| :: SamePayment(s.transfers[i], ts'[i])
    ensures Inv(s.(transfers := ts'))
  {
    var s' := s.(transfers := ts');
    assert WellFormed(s') by {
      forall i | 0 <= i < |ts'| ensures ts'[i].id == i && ts'[i].txId == s.transfers[i].txId {
        assert SamePayment(s.transfers[i], ts'[i]);
      }
    }
    forall t | 0 <= t < |s'.txs| ensures TxOk(ts', t, s'.txs[t]) {
      assert TxOk(s.transfers, t, s.txs[t]);
      TxOkFrame(s.transfers, ts', t, s.txs[t]);
    }
  }

  lemma OneRow(row: Transfer, receiver: Address)
    ensures AllRows([Order(receiver, [row])]) == [row]
    ensures Ids([row]) == {row.id} && DistinctIds([row])
  {
    assert [row][1..] == [];
    assert AllRows([Order(receiver, [row])][1..]) == [];
  }

  /** A close marker's transaction settles the marker. */
  lemma ClosingSettles(setup: PaymentSetup, row: Transfer)
    requires Classify(setup, row).Closing?
    ensures Settles(Classify(setup, row).tx, [Order(0, [row])])
  {
    OneRow(row, 0);
    var orders := [Order(0, [row])];
    var tx := Classify(setup, row).tx;
    assert RowsSum([row]) == 0 by { assert [row][1..] == []; }
    assert Receivers(orders) == [0] && Sums(orders) == [0];
    ZipSingle(0, 0);
    forall a: Address ensures Paid(Payouts(tx), a) == Paid([Payment(0, 0)], a) {}
    assert row in AllRows(orders);
  }

  lemma ClosingStep(setup: PaymentSetup, s: State, row: Transfer)
    requires Inv(s) && Fresh(s.transfers, [row]) && Classify(setup, row).Closing?
    ensures Inv(Commit(s, Classify(setup, row).tx, [row]))
  {
    var orders := [Order(0, [row])];
    OneRow(row, 0);
    ClosingSettles(setup, row);
    assert OrdersOk(s.transfers, orders) by {
      assert OrderOk(orders[0]);
      assert orders[1..] == [];
    }
    CommitKeepsInv(s, Classify(setup, row).tx, orders);
  }

  /** A native group's transaction settles the group. */
  lemma NativeSettles(setup: PaymentSetup, key: Key, rows: seq<Transfer>, receiver: Address)
    requires NativeTx(setup, key, rows).Ok? && key.token.None? && ParseAddress(key.receiver) == Some(receiver)
    requires forall row | row in rows :: row.KeyOf() == key
    ensures Settles(NativeTx(setup, key, rows).value, [Order(receiver, rows)])
  {
    var orders := [Order(receiver, rows)];
    assert AllRows(orders) == rows by { assert AllRows(orders[1..]) == []; }
    assert Receivers(orders) == [receiver] && Sums(orders) == [RowsSum(rows)];
    ZipSingle(receiver, RowsSum(rows));
    forall row | row in rows ensures Agrees(row, NativeTx(setup, key, rows).value) {
      assert row.KeyOf() == key;
    }
    forall x, y | x in rows && y in rows ensures x.Multi() == y.Multi() {
      assert x.KeyOf() == key && y.KeyOf() == key;
    }
  }

  // ---- gather_transactions_pre ----

  /** Same row up to its link and error text. */
  predicate SameTransfer(x: Transfer, y: Transfer) {
    x.(txId := None, error := None) == y.(txId := None, error := None)
  }

  /** Every row keeps everything but its link and error text, and transactions that existed before keep
      exactly the rows they had. */
  ghost predicate Evolves(s: State, s': State) {
    && |s.transfers| == |s'.transfers|
    && (forall i | 0 <= i < |s.transfers| :: SameTransfer(s.transfers[i], s'.transfers[i]))
    && forall t, i | 0 <= t < |s.txs| :: Linked(s.transfers, i, t) <==> Linked(s'.transfers, i, t)
  }

  ghost predicate Grows(s: State, s': State, ids: set<nat>) {
    Touches(s, s', ids) && Evolves(s, s')
  }

  ghost predicate GroupsOk(setup: PaymentSetup, ts: seq<Transfer>, groups: Groups) {
    forall k | k in groups ::
      && groups[k] != [] && Fresh(ts, groups[k]) && DistinctIds(groups[k])
      && forall row | row in groups[k] :: row.KeyOf() == k && Classify(setup, row).Grouped?
  }

  ghost predicate InGroups(groups: Groups, row: Transfer) {
    row.KeyOf() in groups && row in groups[row.KeyOf()]
  }

  /** What the first stage has done with a row it has seen. */
  ghost predicate PreDone(setup: PaymentSetup, s: State, s': State, groups: Groups, row: Transfer) {
    && row.id < |s'.transfers|
    && var row' := s'.transfers[row.id];
       match Classify(setup, row)
       case Rejected(e) => row' == row.(error := Some(e))
       case Stop(_) => false
       case Closing(tx) =>
         && NewlyLinked(row, row', |s.txs|, |s'.txs|)
         && s'.txs[row'.txId.value] == tx
         && forall i :: Linked(s'.transfers, i, row'.txId.value) ==> i == row.id
       case Grouped => row' == row && InGroups(groups, row)
  }

  /** Ledger and groups after one row that does not stop the stage. */
  function PreStep(setup: PaymentSetup, s: State, groups: Groups, row: Transfer): (State, Groups) {
    match Classify(setup, row)
    case Rejected(e) => (s.(transfers := Put(s.transfers, row.(error := Some(e)))), groups)
    case Stop(_) => (s, groups)
    case Closing(tx) => (Commit(s, tx, [row]), groups)
    case Grouped => (s, Push(groups, row))
  }

  ghost predicate PreReady(setup: PaymentSetup, s: State, groups: Groups, rows: seq<Transfer>) {
    && Inv(s) && GroupsOk(setup, s.transfers, groups) && Fresh(s.transfers, rows) && DistinctIds(rows)
    && forall row | row in rows :: !InGroups(groups, row)
  }

  lemma RejectStep(setup: PaymentSetup, s: State, row: Transfer)
    requires Inv(s) && Fresh(s.transfers, [row]) && Classify(setup, row).Rejected?
    ensures var s1 := PreStep(setup, s, map[], row).0; Inv(s1) && Grows(s, s1, {row.id})
  {
    assert row in [row];
    var s1 := PreStep(setup, s, map[], row).0;
    ErrorsKeepInv(s, s1.transfers);
  }

  lemma CloseStep(setup: PaymentSetup, s: State, row: Transfer)
    requires Inv(s) && Fresh(s.transfers, [row]) && Classify(setup, row).Closing?
    ensures var s1 := PreStep(setup, s, map[], row).0;
            Inv(s1) && Grows(s, s1, {row.id}) && PreDone(setup, s, s1, map[], row)
  {
    var tx := Classify(setup, row).tx;
    OneRow(row, 0);
    ClosingStep(setup, s, row);
    CommitLinks(s, tx, [row]);
    assert row in [row];
    var s1 := Commit(s, tx, [row]);
    forall t, i | 0 <= t < |s.txs| ensures Linked(s.transfers, i, t) <==> Linked(s1.transfers, i, t) {
      if i == row.id { assert s1.transfers[i] == LinkRow(row, |s.txs|); }
    }
  }

  lemma PushKeepsGroups(setup: PaymentSetup, ts: seq<Transfer>, groups: Groups, row: Transfer)
    requires GroupsOk(setup, ts, groups) && Fresh(ts, [row]) && !InGroups(groups, row)
    requires Classify(setup, row).Grouped?
    ensures GroupsOk(setup, ts, Push(groups, row)) && InGroups(Push(groups, row), row)
    ensures forall k | k in groups :: k in Push(groups, row) && groups[k] <= Push(groups, row)[k]
    ensures forall x | InGroups(Push(groups, row), x) :: x == row || InGroups(groups, x)
  {
    var key := row.KeyOf();
    assert row in [row];
    OneRow(row, 0);
    if key in groups {
      var had := groups[key];
      assert row.id !in Ids(had) by {
        if x :| x in had && x.id == row.id { assert ts[x.id] == x; }
      }
      AppendDistinct(had, row);
    }
  }

  /** Groups whose rows are untouched stay as they are. */
  lemma GroupsFrame(setup: PaymentSetup, s: State, s': State, groups: Groups, ids: set<nat>)
    requires GroupsOk(setup, s.transfers, groups) && Touches(s, s', ids)
    requires forall k, row | k in groups && row in groups[k] :: row.id !in ids
    ensures GroupsOk(setup, s'.transfers, groups)
  {
    forall k | k in groups ensures Fresh(s'.transfers, groups[k]) {
      forall row | row in groups[k] ensures s'.transfers[row.id] == row { assert row.id !in ids; }
    }
  }

  lemma PreStepFacts(setup: PaymentSetup, s: State, groups: Groups, rows: seq<Transfer>)
    requires PreReady(setup, s, groups, rows) && rows != [] && !Classify(setup, rows[0]).Stop?
    ensures var (s1, groups1) := PreStep(setup, s, groups, rows[0]);
            && PreReady(setup, s1, groups1, rows[1..])
            && Grows(s, s1, {rows[0].id})
            && PreDone(setup, s, s1, groups1, rows[0])
            && (forall k | k in groups :: k in groups1 && groups[k] <= groups1[k])
            && (forall x | InGroups(groups1, x) :: x == rows[0] || InGroups(groups, x))
  {
    var row, rest := rows[0], rows[1..];
    var (s1, groups1) := PreStep(setup, s, groups, row);
    assert row in rows && Fresh(s.transfers, [row]);
    IdsCons(rows);
    match Classify(setup, row) {
      case Rejected(_) => RejectStep(setup, s, row);
      case Closing(_) => CloseStep(setup, s, row);
      case Grouped => PushKeepsGroups(setup, s.transfers, groups, row);
    }
    forall k, x | k in groups && x in groups[k] ensures x.id != row.id {
      assert s.transfers[x.id] == x && x.KeyOf() == k;
    }
    if !Classify(setup, row).Grouped? { GroupsFrame(setup, s, s1, groups, {row.id}); }
    forall x | x in rest ensures x.id != row.id && s1.transfers[x.id] == x && x in rows {
      assert x.id in Ids(rest);
    }
    forall x | x in rest ensures !InGroups(groups1, x) {
      assert x in rows;
    }
  }

  lemma GrowsTransitive(s: State, s1: State, s2: State, a: set<nat>, b: set<nat>)
    requires Grows(s, s1, a) && Grows(s1, s2, b)
    ensures Grows(s, s2, a + b)
  {
    forall t, i | 0 <= t < |s.txs| ensures Linked(s.transfers, i, t) <==> Linked(s2.transfers, i, t) {
      assert Linked(s.transfers, i, t) <==> Linked(s1.transfers, i, t);
    }
  }

  /** A row's fate in the first stage is settled when it is met. */
  lemma PreDoneStays(setup: PaymentSetup, s: State, s1: State, s2: State, groups1: Groups, groups2: Groups,
                     row: Transfer, ids: set<nat>)
    requires PreDone(setup, s, s1, groups1, row) && Grows(s1, s2, ids) && row.id !in ids
    requires forall k | k in groups1 :: k in groups2 && groups1[k] <= groups2[k]
    ensures PreDone(setup, s, s2, groups2, row)
  {
    assert s2.transfers[row.id] == s1.transfers[row.id];
    if Classify(setup, row).Grouped? { assert row in groups2[row.KeyOf()]; }
    if Classify(setup, row).Closing? {
      var t := s1.transfers[row.id].txId.value;
      forall i | Linked(s2.transfers, i, t) ensures i == row.id { assert Linked(s1.transfers, i, t); }
    }
  }

  /** The first stage settles every row it sees: rejected rows carry their reason, close markers are
      linked to their own closing transaction, and all others are queued under their key, unchanged. */
  lemma {:induction false} PreFacts(setup: PaymentSetup, s: State, groups: Groups, rows: seq<Transfer>)
    requires PreReady(setup, s, groups, rows)
    ensures var out := PreRun(setup, s, groups, rows);
            && Inv(out.s) && GroupsOk(setup, out.s.transfers, out.groups)
            && Grows(s, out.s, Ids(rows))
            && (forall k | k in groups :: k in out.groups && groups[k] <= out.groups[k])
            && (forall x | InGroups(out.groups, x) :: x in rows || InGroups(groups, x))
            && (out.error.None? ==> forall row | row in rows :: PreDone(setup, s, out.s, out.groups, row))
    decreases |rows|
  {
    if rows != [] && !Classify(setup, rows[0]).Stop? {
      var row, rest := rows[0], rows[1..];
      var (s1, groups1) := PreStep(setup, s, groups, row);
      PreStepFacts(setup, s, groups, rows);
      PreFacts(setup, s1, groups1, rest);
      var out := PreRun(setup, s1, groups1, rest);
      assert PreRun(setup, s, groups, rows) == out;
      IdsCons(rows);
      GrowsTransitive(s, s1, out.s, {row.id}, Ids(rest));
      PreDoneStays(setup, s, s1, out.s, groups1, out.groups, row, Ids(rest));
      PreDoneAll(setup, s, s1, out, rows);
    }
  }

  lemma PreDoneAll(setup: PaymentSetup, s: State, s1: State, out: PreOutcome, rows: seq<Transfer>)
    requires rows != [] && |s.txs| <= |s1.txs|
    requires PreDone(setup, s, out.s, out.groups, rows[0])
    requires out.error.None? ==> forall row | row in rows[1..] :: PreDone(setup, s1, out.s, out.groups, row)
    ensures out.error.None? ==> forall row | row in rows :: PreDone(setup, s, out.s, out.groups, row)
  {
    assert rows == [rows[0]] + rows[1..];
  }
}
