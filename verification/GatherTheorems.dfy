/** Main results about one gather: the invariant, the fate of every row, and conservation of money. */
module GatherTheorems {
  import opened Prelude
  import opened Text
  import opened Contracts
  import opened Ledger
  import opened Orders
  import opened Chunks
  import opened Gathering
  import opened GatherFacts
  import opened PostFacts
  import opened MultiFacts

  // ---- the three stages ----

  lemma PreStage(setup: PaymentSetup, s: State, account: Address, chainId: int, out: PreOutcome)
    requires Inv(s) && out == PreRun(setup, s, map[], Pending(s.transfers, account, chainId))
    ensures var rows := Pending(s.transfers, account, chainId);
            && Inv(out.s) && GroupsOk(setup, out.s.transfers, out.groups)
            && Grows(s, out.s, Ids(rows)) && Fresh(s.transfers, rows)
            && (forall x | InGroups(out.groups, x) :: x in rows)
            && (out.error.None? ==> forall row | row in rows :: PreDone(setup, s, out.s, out.groups, row))
  {
    var rows := Pending(s.transfers, account, chainId);
    PendingSound(s.transfers, account, chainId);
    PendingDistinct(s.transfers, account, chainId);
    PreFacts(setup, s, map[], rows);
  }

  lemma PassStage(setup: PaymentSetup, pre: PreOutcome, keys: seq<Key>, out: PassOutcome)
    requires Inv(pre.s) && GroupsOk(setup, pre.s.transfers, pre.groups) && SortedKeys(pre.groups, keys)
    requires out == SortedPass(setup, pre.s, pre.groups, keys, map[], {})
    ensures PassSound(out) && PassSpread(pre.s, out, pre.groups, keys, map[], {})
  {
    forall k | k in keys ensures GroupOk(setup, pre.s.transfers, k, pre.groups[k]) {}
    PassFacts(setup, pre.s, pre.groups, keys, map[], {}, out);
  }

  lemma MultiStage(setup: PaymentSetup, allowances: Allowances, pass: PassOutcome, order: seq<MultiKey>,
                   out: MultiOutcome)
    requires ValidSetup(setup) && PassSound(pass) && Enumerates(order, pass.multi.Keys)
    requires out == MultiRun(setup, allowances, pass.s, pass.multi, order, {})
    ensures Inv(out.s) && MultiFrame(pass.s, out.s, pass.multi, order)
    ensures out.error.None? ==> MultiRows(pass.s, out, pass.multi, order)
  {
    MultiRunFacts(setup, allowances, pass.s, pass.multi, order, {}, out);
  }

  /** Whatever fails on the way, a gather keeps the ledger invariant, only appends transactions, and leaves
      every older transaction exactly the rows it had. */
  lemma GatherKeepsInv(setup: PaymentSetup, allowances: Allowances, account: Address, chainId: int, s: State, g: Gather)
    requires ValidSetup(setup) && Inv(s) && IsGather(setup, allowances, account, chainId, s, g)
    ensures var s' := g.multi.s;
            Inv(s') && |s'.transfers| == |s.transfers| && s.txs <= s'.txs && Evolves(s, s')
  {
    hide Inv, PreRun, SortedPass, MultiRun, Pending, SortedKeys;
    PreStage(setup, s, account, chainId, g.pre);
    if g.pre.error.None? {
      PassStage(setup, g.pre, g.keys, g.pass);
      MultiStage(setup, allowances, g.pass, g.order, g.multi);
      GrowsLinks(s, g.pre.s, g.pass.s);
      GrowsLinks(s, g.pass.s, g.multi.s);
    }
  }

  // ---- the fate of every row ----

  /** What an error-free gather does with a pending row, given which groups and batches failed. */
  ghost predicate Fate(setup: PaymentSetup, s: State, g: Gather, row: Transfer, row': Transfer) {
    var s' := g.multi.s;
    match Classify(setup, row)
    case Rejected(e) => row' == row.(error := Some(e))
    case Stop(_) => false
    case Closing(tx) =>
      && NewlyLinked(row, row', |s.txs|, |s'.txs|) && s'.txs[row'.txId.value] == tx
      && forall i :: Linked(s'.transfers, i, row'.txId.value) ==> i == row.id
    case Grouped =>
      if row.tokenAddr.None? then
        if row.KeyOf() in g.pass.failed then row' == row else NewlyLinked(row, row', |s.txs|, |s'.txs|)
      else
        if row.Multi() in g.multi.failed then Marked(row, row', |s.txs|, |s'.txs|)
        else NewlyLinked(row, row', |s.txs|, |s'.txs|)
  }

  /** A row outside all groups is not among the rows collected for the batches. */
  lemma NotCollected(pass: PassOutcome, groups: Groups, keys: seq<Key>, row: Transfer)
    requires Collected(map[], pass.multi, groups, keys) && !InGroups(groups, row)
    ensures !InMulti(pass.multi, row)
  {
  }

  /** After the first stage, a row outside all groups does not change any more. */
  lemma OutsideStays(pre: State, groups: Groups, keys: seq<Key>, pass: PassOutcome, order: seq<MultiKey>, s': State,
                     i: nat)
    requires PassFrame(pre, pass.s, groups, keys) && Collected(map[], pass.multi, groups, keys)
    requires MultiFrame(pass.s, s', pass.multi, order)
    requires i < |pre.transfers| && !InGroups(groups, pre.transfers[i])
    ensures i < |s'.transfers| && s'.transfers[i] == pre.transfers[i]
  {
    assert !NativeRow(groups, keys, pre.transfers[i]);
    NotCollected(pass, groups, keys, pre.transfers[i]);
    assert !OrderRow(pass.multi, order, pass.s.transfers[i]);
  }

  lemma GroupedFate(setup: PaymentSetup, s: State, g: Gather, row: Transfer)
    requires GroupsOk(setup, g.pre.s.transfers, g.pre.groups) && InGroups(g.pre.groups, row) && |s.txs| <= |g.pre.s.txs|
    requires SortedKeys(g.pre.groups, g.keys) && Enumerates(g.order, g.pass.multi.Keys)
    requires PassSound(g.pass) && PassSpread(g.pre.s, g.pass, g.pre.groups, g.keys, map[], {})
    requires MultiFrame(g.pass.s, g.multi.s, g.pass.multi, g.order)
    requires MultiRows(g.pass.s, g.multi, g.pass.multi, g.order)
    ensures row.id < |g.multi.s.transfers| && Fate(setup, s, g, row, g.multi.s.transfers[row.id])
  {
    assert PassDone(g.pre.s, g.pass.s, g.pass.multi, g.pass.failed, row);
    assert row.id < |g.pre.s.transfers|;
    if row.tokenAddr.None? {
      var row1 := g.pass.s.transfers[row.id];
      assert row1.tokenAddr.None?;
      assert row1.Multi().token.None? && !OrderRow(g.pass.multi, g.order, row1);
      assert g.multi.s.transfers[row.id] == row1;
    } else {
      assert row in AllRows(g.pass.multi[row.Multi()]);
    }
  }

  /** Every row has the fate its contents and the failures decide; rows that are not pending do not change. Which
      groups and batches fail is told from the pending rows in GatherPlan. */
  lemma GatherFates(setup: PaymentSetup, allowances: Allowances, account: Address, chainId: int, s: State, g: Gather,
                    i: nat)
    requires ValidSetup(setup) && Inv(s) && IsGather(setup, allowances, account, chainId, s, g)
    requires g.Error().None? && i < |s.transfers|
    ensures i < |g.multi.s.transfers|
    ensures if IsPending(s.transfers[i], account, chainId) then Fate(setup, s, g, s.transfers[i],
            g.multi.s.transfers[i])
            else g.multi.s.transfers[i] == s.transfers[i]
  {
    hide Inv, PreRun, SortedPass, MultiRun, Pending, SortedKeys;
    var rows, row := Pending(s.transfers, account, chainId), s.transfers[i];
    assert WellFormed(s) by { WellFormedLedger(s); }
    PreStage(setup, s, account, chainId, g.pre);
    PassStage(setup, g.pre, g.keys, g.pass);
    MultiStage(setup, allowances, g.pass, g.order, g.multi);
    PendingSound(s.transfers, account, chainId);
    if !IsPending(row, account, chainId) {
      assert i !in Ids(rows);
      assert row !in rows;
      OutsideStays(g.pre.s, g.pre.groups, g.keys, g.pass, g.order, g.multi.s, i);
    } else {
      PendingComplete(s.transfers, account, chainId, i);
      assert PreDone(setup, s, g.pre.s, g.pre.groups, row);
      if Classify(setup, row).Grouped? {
        GroupedFate(setup, s, g, row);
      } else {
        SettledFate(setup, s, g, row);
      }
    }
  }

  lemma SettledFate(setup: PaymentSetup, s: State, g: Gather, row: Transfer)
    requires !Classify(setup, row).Grouped? && PreDone(setup, s, g.pre.s, g.pre.groups, row)
    requires row.txId.None? && row.error.None?
    requires g.pre.error.None? && GroupsOk(setup, g.pre.s.transfers, g.pre.groups)
    requires PassSound(g.pass) && PassSpread(g.pre.s, g.pass, g.pre.groups, g.keys, map[], {})
    requires MultiFrame(g.pass.s, g.multi.s, g.pass.multi, g.order)
    ensures row.id < |g.multi.s.transfers| && Fate(setup, s, g, row, g.multi.s.transfers[row.id])
  {
    var row1 := g.pre.s.transfers[row.id];
    assert row1.txId.Some? || row1.error.Some?;
    assert !InGroups(g.pre.groups, row1);
    OutsideStays(g.pre.s, g.pre.groups, g.keys, g.pass, g.order, g.multi.s, row.id);
    if Classify(setup, row).Closing? {
      var t := row1.txId.value;
      forall i | Linked(g.multi.s.transfers, i, t) ensures i == row.id {
        assert Linked(g.pass.s.transfers, i, t);
        assert Linked(g.pre.s.transfers, i, t);
      }
    }
  }

  /** The three outcomes of a pending row. */
  predicate RowRejected(row': Transfer) {
    row'.txId.None? && row'.error.Some?
  }

  predicate RowClosed(s': State, lo: nat, row': Transfer) {
    row'.error.None? && row'.txId.Some? && lo <= row'.txId.value < |s'.txs| &&
    s'.txs[row'.txId.value].call.CloseDeposit?
  }

  predicate RowPaid(s': State, lo: nat, row': Transfer) {
    row'.error.None? && row'.txId.Some? && lo <= row'.txId.value < |s'.txs| &&
    !s'.txs[row'.txId.value].call.CloseDeposit?
  }

  /** After a clean gather each pending row is rejected, or linked to a new transaction that closes its deposit,
      or linked to one new payment, and its contents decide which; so it is no longer pending. */
  lemma ExactlyOneOutcome(setup: PaymentSetup, allowances: Allowances, account: Address, chainId: int, s: State,
                          g: Gather, row: Transfer)
    requires ValidSetup(setup) && Inv(s) && IsGather(setup, allowances, account, chainId, s, g) && g.Clean()
    requires row in s.transfers && IsPending(row, account, chainId)
    ensures row.id < |g.multi.s.transfers|
    ensures RowRejected(g.multi.s.transfers[row.id]) <==> Classify(setup, row).Rejected?
    ensures RowClosed(g.multi.s, |s.txs|, g.multi.s.transfers[row.id]) <==> Classify(setup, row).Closing?
    ensures RowPaid(g.multi.s, |s.txs|, g.multi.s.transfers[row.id]) <==> Classify(setup, row).Grouped?
    ensures !Classify(setup, row).Stop?
  {
    var i :| 0 <= i < |s.transfers| && s.transfers[i] == row;
    GatherFates(setup, allowances, account, chainId, s, g, i);
    GatherKeepsInv(setup, allowances, account, chainId, s, g);
    OutcomeFromFate(setup, s, g, row, g.multi.s.transfers[i]);
  }

  predicate NamesAccount(text: string) {
    ParseAddress(text).Some? && ParseAddress(text).value != 0
  }

  /** The same outcome said without the program's branches: a row is paid exactly when both of its addresses name
      accounts, closed exactly when it is the marker of a close request, and rejected otherwise. */
  lemma OutcomeByContents(setup: PaymentSetup, allowances: Allowances, account: Address, chainId: int, s: State,
                          g: Gather, row: Transfer)
    requires ValidSetup(setup) && Inv(s) && IsGather(setup, allowances, account, chainId, s, g) && g.Clean()
    requires row in s.transfers && IsPending(row, account, chainId)
    ensures row.id < |g.multi.s.transfers|
    ensures var s', row' := g.multi.s, g.multi.s.transfers[row.id];
            && (RowPaid(s', |s.txs|, row') <==> NamesAccount(row.fromAddr) && NamesAccount(row.receiverAddr))
            && (RowClosed(s', |s.txs|, row') <==> NamesAccount(row.fromAddr) && IsCloseMarker(row))
            && (RowRejected(row') <==>
                  !NamesAccount(row.fromAddr) || !(NamesAccount(row.receiverAddr) || IsCloseMarker(row)))
  {
    hide Inv, IsGather, RowPaid, RowClosed, RowRejected;
    ExactlyOneOutcome(setup, allowances, account, chainId, s, g, row);
  }

  lemma OutcomeFromFate(setup: PaymentSetup, s: State, g: Gather, row: Transfer, row': Transfer)
    requires Fate(setup, s, g, row, row') && row.txId.None? && row.error.None?
    requires Inv(g.multi.s) && row.id < |g.multi.s.transfers| && row' == g.multi.s.transfers[row.id]
    requires g.pass.failed == {} && g.multi.failed == {}
    ensures RowRejected(row') <==> Classify(setup, row).Rejected?
    ensures RowClosed(g.multi.s, |s.txs|, row') <==> Classify(setup, row).Closing?
    ensures RowPaid(g.multi.s, |s.txs|, row') <==> Classify(setup, row).Grouped?
  {
    if Classify(setup, row).Grouped? {
      var t := row'.txId.value;
      assert Linked(g.multi.s.transfers, row.id, t) && TxOk(g.multi.s.transfers, t, g.multi.s.txs[t]);
      assert Agrees(row', g.multi.s.txs[t]);
    }
  }
}
