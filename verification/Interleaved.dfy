/** A close request granted between the two stages of a gather: when it survives, and when it is overwritten. */
module Interleaved {
  import opened Prelude
  import opened Text
  import opened Contracts
  import opened Ledger
  import opened Orders
  import opened Chunks
  import opened Gathering
  import opened GatherFacts
  import opened GatherTheorems
  import opened Overlays
  import opened Deposits
  import opened Plan
  import opened PlanFacts
  import opened GatherPlan

  // ---- which rows the second stage writes ----

  /** The first stage has copied the row into a group, and the second writes the copy back: in a token group always, in
      a group of the chain's own currency when it can be paid. */
  ghost predicate PlanWrites(setup: PaymentSetup, rows: seq<Transfer>, id: nat) {
    exists row :: row in rows && Classify(setup, row).Grouped? && row.id == id &&
                  (row.tokenAddr.Some? || !NativeFails(setup, rows, row.KeyOf()))
  }

  lemma PlanOrdersRows(setup: PaymentSetup, rows: seq<Transfer>, mk: MultiKey)
    ensures forall row | row in AllRows(PlanOrders(setup, rows, mk)) ::
              row in rows && Classify(setup, row).Grouped? && row.Multi() == mk
  {
    hide Classify;
    var orders := PlanOrders(setup, rows, mk);
    KeysOfFacts(PayKeys(setup, rows), mk);
    PayKeysFacts(setup, rows);
    forall row | row in AllRows(orders) ensures row in rows && Classify(setup, row).Grouped? && row.Multi() == mk {
      var i := RowInSomeOrder(orders, row);
      KeyRowsFacts(setup, rows, KeysOf(PayKeys(setup, rows), mk)[i]);
    }
  }

  lemma WrittenIsPlanned(setup: PaymentSetup, rows: seq<Transfer>, s: State, g: Gather, id: nat)
    requires PassOfPlan(setup, rows, s, g.pass) && Enumerates(g.order, g.pass.multi.Keys)
    requires g.pre.groups == PlanGroups(setup, rows) && g.keys == PayKeys(setup, rows)
    ensures WritesBack(setup, g, id) <==> PlanWrites(setup, rows, id)
  {
    hide PayKeys, PlanOrders, NativeTx, NativeCount, Classify, PaysToken;
    var groups, keys := PlanGroups(setup, rows), PayKeys(setup, rows);
    if row :| row in rows && Classify(setup, row).Grouped? && row.id == id &&
             (row.tokenAddr.Some? || !NativeFails(setup, rows, row.KeyOf()))
    {
      GroupedIsPaid(setup, rows, row);
      if row.tokenAddr.None? {
        KeyRowsFacts(setup, rows, row.KeyOf());
        assert row.id in Ids(groups[row.KeyOf()]);
      } else {
        RowInOrders(setup, rows, row);
        assert row.Multi() in g.order && row.id in Ids(AllRows(g.pass.multi[row.Multi()]));
      }
    }
    if InPaid(setup, groups, keys, id) {
      var k :| k in keys && k in groups && k.token.None? && !Fails(setup, groups, k) && id in Ids(groups[k]);
      KeyRowsFacts(setup, rows, k);
    }
    if InBatches(g.pass.multi, g.order, id) {
      var k :| k in g.order && k in g.pass.multi && id in Ids(AllRows(g.pass.multi[k]));
      PlanOrdersRows(setup, rows, k);
      TokenKey(setup, rows, k);
    }
  }

  lemma TokenKey(setup: PaymentSetup, rows: seq<Transfer>, mk: MultiKey)
    requires PaysToken(setup, rows, mk)
    ensures mk.token.Some?
  {
    hide PayKeys;
  }

  /** The second stage of an error-free gather over any table with the same transactions: it inserts the same
      transactions, the same groups and batches fail, and a row ends as in the undisturbed gather if it is written back,
      and stays as it was found otherwise. */
  lemma SecondStageOver(setup: PaymentSetup, allowances: Allowances, account: Address, chain: int, s: State, mid: State,
                        h: Gather) returns (g: Gather)
    requires ValidSetup(setup) && Inv(s) && IsSplitGather(setup, allowances, account, chain, s, mid, h)
    requires mid.txs == FirstStage(setup, account, chain, s).txs
    requires |FirstStage(setup, account, chain, s).transfers| <= |mid.transfers| && h.Error().None?
    ensures IsGather(setup, allowances, account, chain, s, g) && SameOutcome(g, h)
    ensures |s.transfers| == |g.multi.s.transfers| <= |mid.transfers| == |h.multi.s.transfers|
    ensures forall i: nat | i < |mid.transfers| ::
              var writes := PlanWrites(setup, Pending(s.transfers, account, chain), i);
              && (writes ==> i < |s.transfers| && h.multi.s.transfers[i] == g.multi.s.transfers[i])
              && (!writes ==> h.multi.s.transfers[i] == mid.transfers[i])
  {
    hide Inv, PreRun, Pending, SortedPass, MultiRun, WritesBack, PlanWrites, PlanGroups, PayKeys, PassOfPlan, Evolves;
    var rows := Pending(s.transfers, account, chain);
    var written;
    g, written := Undisturbed(setup, allowances, account, chain, s, mid, h);
    PostGrows(setup, allowances, account, chain, s, g);
    GatherKeepsSize(s, g);
    PreAsPlanned(setup, allowances, account, chain, s, g);
    PassAsPlan(setup, allowances, account, chain, s, g);
    forall i: nat ensures i in written <==> PlanWrites(setup, rows, i) {
      WrittenIsPlanned(setup, rows, g.pre.s, g, i);
    }
  }

  lemma GatherKeepsSize(s: State, g: Gather)
    requires Evolves(s, g.pre.s) && Evolves(g.pre.s, g.multi.s)
    ensures |s.transfers| == |g.pre.s.transfers| == |g.multi.s.transfers|
  {
  }

  // ---- the request between the stages ----

  /** The row a granted request flags: the candidate, or the marker at the end of the table. */
  function FlaggedId(ts: seq<Transfer>, chainId: int, id: nat): nat {
    match Candidate(DepositRows(ts, chainId, PrintU256(id)))
    case Some(c) => c.id
    case None => |ts|
  }

  /** The table with y at id, where the row is replaced or, at the end, added. */
  function Over(ts: seq<Transfer>, id: nat, y: Transfer): seq<Transfer>
    requires id <= |ts|
  {
    if id < |ts| then ts[id := y] else ts + [y]
  }

  lemma GrantedIsOver(s: State, chainId: int, from: Address, id: nat, token: Address, check: DepositCheck)
    returns (y: Transfer)
    requires WellFormed(s) && RequestClose(s, chainId, from, id, token, check).Ok?
    ensures FlaggedId(s.transfers, chainId, id) <= |s.transfers|
    ensures RequestClose(s, chainId, from, id, token, check).value ==
            s.(transfers := Over(s.transfers, FlaggedId(s.transfers, chainId, id), y))
    ensures OfDeposit(y, chainId, PrintU256(id)) && Requests(y)
    ensures y.txId.None? && y.id == FlaggedId(s.transfers, chainId, id)
    ensures forall row | row in s.transfers && OfDeposit(row, chainId, PrintU256(id)) :: !Requests(row)
  {
    hide PrintU256, PrintAddress;
    var rows := DepositRows(s.transfers, chainId, PrintU256(id));
    CloseEffect(s, chainId, from, id, token, check);
    match Candidate(rows)
    case Some(c) =>
      CandidateIsLast(rows);
      DepositRowsOf(s.transfers, chainId, PrintU256(id), c);
      y := c.(depositFinish := 1);
    case None => y := CloseMarker(s, chainId, from, id, token);
  }

  /** A granted close request that lands between the two stages of an error-free gather. The second stage runs as if
      nothing had happened. Afterwards the deposit is still being closed if and only if the second stage does not write
      the flagged row; otherwise writing back the copy made by the first stage has lost the request. */
  lemma RequestBetweenStages(setup: PaymentSetup, allowances: Allowances, account: Address, chain: int, s: State,
                             chainId: int, from: Address, id: nat, token: Address, check: DepositCheck, h: Gather)
    returns (g: Gather)
    requires ValidSetup(setup) && Inv(s) && h.Error().None?
    requires RequestClose(FirstStage(setup, account, chain, s), chainId, from, id, token, check).Ok?
    requires IsSplitGather(setup, allowances, account, chain, s,
                           RequestClose(FirstStage(setup, account, chain, s), chainId, from, id, token, check).value, h)
    ensures IsGather(setup, allowances, account, chain, s, g) && SameOutcome(g, h)
    ensures Requested(h.multi.s.transfers, chainId, id) <==>
            !PlanWrites(setup, Pending(s.transfers, account, chain),
                        FlaggedId(FirstStage(setup, account, chain, s).transfers, chainId, id))
  {
    hide Inv, PreRun, Pending, IsSecondStage, RequestClose, FlaggedId, Requested, PlanWrites, Evolves, PrintU256;
    var pre := FirstStage(setup, account, chain, s);
    PreIsSound(setup, account, chain, s);
    var y := GrantedIsOver(pre, chainId, from, id, token, check);
    var mid, f := RequestClose(pre, chainId, from, id, token, check).value, FlaggedId(pre.transfers, chainId, id);
    g := SecondStageOver(setup, allowances, account, chain, s, mid, h);
    PostGrows(setup, allowances, account, chain, s, g);
    if PlanWrites(setup, Pending(s.transfers, account, chain), f) {
      GatherKeepsSize(s, g);
      RequestOverwritten(pre, g.multi.s, h.multi.s, chainId, id, f);
    } else {
      RequestKept(h.multi.s, chainId, id, f, y);
    }
  }

  lemma PreIsSound(setup: PaymentSetup, account: Address, chain: int, s: State)
    requires Inv(s)
    ensures WellFormed(FirstStage(setup, account, chain, s))
  {
    hide Inv, PreRun, Pending;
    PreStage(setup, s, account, chain, PreRun(setup, s, map[], Pending(s.transfers, account, chain)));
    WellFormedLedger(FirstStage(setup, account, chain, s));
  }

  lemma RequestKept(b: State, chainId: int, id: nat, f: nat, y: Transfer)
    requires f < |b.transfers| && b.transfers[f] == y && OfDeposit(y, chainId, PrintU256(id)) && Requests(y)
    ensures Requested(b.transfers, chainId, id)
  {
    assert b.transfers[f] in b.transfers;
  }

  lemma RequestOverwritten(pre: State, a: State, b: State, chainId: int, id: nat, f: nat)
    requires Evolves(pre, a) && f < |pre.transfers| && |b.transfers| == |pre.transfers|
    requires forall i: nat | i < |b.transfers| ::
               b.transfers[i] == a.transfers[i] || (i != f && b.transfers[i] == pre.transfers[i])
    requires forall row | row in pre.transfers && OfDeposit(row, chainId, PrintU256(id)) :: !Requests(row)
    ensures !Requested(b.transfers, chainId, id)
  {
    hide PrintU256;
    forall row | row in b.transfers && OfDeposit(row, chainId, PrintU256(id)) ensures !Requests(row) {
      var i :| 0 <= i < |b.transfers| && b.transfers[i] == row;
      assert SameTransfer(pre.transfers[i], a.transfers[i]) && pre.transfers[i] in pre.transfers;
    }
  }
}
