/** What a granted close request leads to: whether the next gather closes the deposit, or nothing ever does. */
module Closings {
  import opened Prelude
  import opened Text
  import opened Contracts
  import opened Ledger
  import opened Orders
  import opened Chunks
  import opened Gathering
  import opened GatherFacts
  import opened GatherTheorems
  import opened Overlays
  import opened Deposits
  import opened Plan
  import opened PlanFacts
  import opened GatherPlan
  import opened Interleaved

  /** Some transaction closes the deposit. */
  ghost predicate ClosedBy(s: State, chainId: int, id: nat, t: nat) {
    t < |s.txs| && s.txs[t].call.Closes() && s.txs[t].chainId == chainId && s.txs[t].call.id == id
  }

  /** The contents of a flagged row that allow a gather to close its deposit: no error so far, a payer, and either the
      marker or a token payment to somebody. A payment in the chain's own currency ignores the deposit. */
  predicate CanClose(row: Transfer) {
    && row.error.None? && NamesAccount(row.fromAddr)
    && (IsCloseMarker(row) || (NamesAccount(row.receiverAddr) && row.tokenAddr.Some?))
  }

  // ---- what any gather does to one row, failing ones included ----

  /** The first stage has left the row, rejected it, or closed its deposit. */
  ghost predicate PreFate(setup: PaymentSetup, rows: seq<Transfer>, before: Transfer, after: Transfer, i: nat) {
    || after == before
    || exists row :: row in rows && row.id == i &&
         (Classify(setup, row).Closing? || (Classify(setup, row).Rejected? && after.txId == row.txId))
  }

  lemma {:induction false} PreRunRow(setup: PaymentSetup, s: State, groups: Groups, rows: seq<Transfer>, i: nat)
    requires i < |s.transfers|
    ensures var s' := PreRun(setup, s, groups, rows).s;
            |s'.transfers| == |s.transfers| && PreFate(setup, rows, s.transfers[i], s'.transfers[i], i)
    decreases |rows|
  {
    if rows != [] {
      hide Classify, Push, Commit, Put;
      var row, rest := rows[0], rows[1..];
      assert rows == [row] + rest && row in rows;
      OneRowChanges(s, row, i);
      match Classify(setup, row)
      case Rejected(e) =>
        PreRunRow(setup, s.(transfers := Put(s.transfers, row.(error := Some(e)))), groups, rest, i);
      case Stop(_) =>
      case Closing(tx) => PreRunRow(setup, Commit(s, tx, [row]), groups, rest, i);
      case Grouped => PreRunRow(setup, s, Push(groups, row), rest, i);
    }
  }

  lemma OneRowChanges(s: State, row: Transfer, i: nat)
    requires i < |s.transfers|
    ensures forall tx :: |Commit(s, tx, [row]).transfers| == |s.transfers| &&
              (i == row.id || Commit(s, tx, [row]).transfers[i] == s.transfers[i])
    ensures forall row': Transfer | row'.id == row.id :: |Put(s.transfers, row')| == |s.transfers| &&
              Put(s.transfers, row')[i] == if i == row.id then row' else s.transfers[i]
  {
    assert [row][1..] == [];
    forall tx ensures Commit(s, tx, [row]).transfers == Put(s.transfers, LinkRow(row, |s.txs|)) {
      assert LinkRows(Put(s.transfers, LinkRow(row, |s.txs|)), [row][1..], |s.txs|) ==
             Put(s.transfers, LinkRow(row, |s.txs|));
    }
  }

  /** After any gather a row that was not pending is as before, and a row that has been linked is a close marker or a
      payment between accounts. */
  lemma RowAfterGather(setup: PaymentSetup, allowances: Allowances, account: Address, chainId: int, s: State, g: Gather,
                       i: nat)
    requires ValidSetup(setup) && Inv(s) && IsGather(setup, allowances, account, chainId, s, g) && i < |s.transfers|
    ensures i < |g.multi.s.transfers|
    ensures !IsPending(s.transfers[i], account, chainId) ==> g.multi.s.transfers[i] == s.transfers[i]
    ensures s.transfers[i].txId.None? && g.multi.s.transfers[i].txId.Some? ==>
              Classify(setup, s.transfers[i]).Closing? || Classify(setup, s.transfers[i]).Grouped?
  {
    hide Inv, PreRun, SortedPass, MultiRun, Pending, SortedKeys, Classify, IsPending, Evolves;
    var rows := Pending(s.transfers, account, chainId);
    WellFormedLedger(s);
    PendingSound(s.transfers, account, chainId);
    PreRunRow(setup, s, map[], rows, i);
    PreStage(setup, s, account, chainId, g.pre);
    WellFormedLedger(g.pre.s);
    if InGroups(g.pre.groups, g.pre.s.transfers[i]) {
      assert g.pre.s.transfers[i] in rows;
      PostGrows(setup, allowances, account, chainId, s, g);
      GatherKeepsSize(s, g);
    } else if g.pre.error.None? {
      PassStage(setup, g.pre, g.keys, g.pass);
      MultiStage(setup, allowances, g.pass, g.order, g.multi);
      OutsideStays(g.pre.s, g.pre.groups, g.keys, g.pass, g.order, g.multi.s, i);
    }
  }

  /** No gather touches a row that has a transaction or an error, or is of another account or chain. */
  lemma OthersStay(setup: PaymentSetup, allowances: Allowances, account: Address, chainId: int, s: State, g: Gather,
                   i: nat)
    requires ValidSetup(setup) && Inv(s) && IsGather(setup, allowances, account, chainId, s, g) && i < |s.transfers|
    requires s.transfers[i].txId.Some? || s.transfers[i].error.Some? || s.transfers[i].chainId != chainId ||
             s.transfers[i].fromAddr != PrintAddress(account)
    ensures i < |g.multi.s.transfers| && g.multi.s.transfers[i] == s.transfers[i]
  {
    assert !IsPending(s.transfers[i], account, chainId);
    hide Inv, IsGather, IsPending, PrintAddress;
    RowAfterGather(setup, allowances, account, chainId, s, g, i);
  }

  /** A row that a gather links to a transaction of the lock contract could close its deposit. */
  lemma LockedCanClose(setup: PaymentSetup, row: Transfer, row': Transfer, tx: Tx)
    requires SameTransfer(row, row') && row.error.None? && Agrees(row', tx) && tx.call.IsLock()
    requires Classify(setup, row).Closing? || Classify(setup, row).Grouped?
    ensures CanClose(row) && (Classify(setup, row).Closing? <==> IsCloseMarker(row))
  {
    hide ParseAddress, ParseAmount, ParseU256;
  }

  // ---- the transaction of a token row ----

  /** A token row's transaction calls the lock contract exactly when the row is paid from a deposit. */
  lemma TokenRowLocks(setup: PaymentSetup, allowances: Allowances, account: Address, chainId: int, s: State, g: Gather,
                      row: Transfer, t: nat)
    requires ValidSetup(setup) && Inv(s) && IsGather(setup, allowances, account, chainId, s, g) && g.Error().None?
    requires row in Pending(s.transfers, account, chainId) && Classify(setup, row).Grouped? && row.tokenAddr.Some?
    requires Linked(g.multi.s.transfers, row.id, t)
    ensures t < |g.multi.s.txs| && (g.multi.s.txs[t].call.IsLock() <==> row.depositId.Some?)
  {
    hide Inv, IsGather, Pending, PayKeys, BatchPlaced, Classify, PlanOrders;
    var rows, mk := Pending(s.transfers, account, chainId), row.Multi();
    GroupedIsPaid(setup, rows, row);
    BatchesArePlaced(setup, allowances, account, chainId, s, g, mk);
    var lo: nat :| BatchPlaced(setup, allowances, mk, PlanOrders(setup, rows, mk), g.multi.s, lo);
    RowInOrders(setup, rows, row);
    PlacedLocks(setup, allowances, mk, PlanOrders(setup, rows, mk), g.multi.s, lo, row, t);
  }

  lemma PlacedLocks(setup: PaymentSetup, allowances: Allowances, mk: MultiKey, orders: seq<Order>, s: State, lo: nat,
                    row: Transfer, t: nat)
    requires ValidSetup(setup) && mk.token.Some? && BatchPlaced(setup, allowances, mk, orders, s, lo)
    requires row in AllRows(orders) && Linked(s.transfers, row.id, t)
    ensures t < |s.txs| && (s.txs[t].call.IsLock() <==> mk.deposit.Some?)
  {
    hide ChunkTx, Committed;
    var chain := setup.chains[mk.chainId];
    var k: nat :| k < Committed(setup, allowances, mk, orders) && k < ChunkCount(|orders|, chain.maxAtOnce) &&
                  row in AllRows(ChunkAt(orders, chain.maxAtOnce, k));
    assert ChunkPlaced(setup, mk, orders, s, lo, k);
    var chunk := ChunkAt(orders, chain.maxAtOnce, k);
    assert row.id in Ids(AllRows(chunk));
    assert Linked(s.transfers, row.id, lo + k);
    ChunkLocks(setup, chain, mk, chunk);
  }

  lemma ChunkLocks(setup: PaymentSetup, chain: ChainSetup, mk: MultiKey, chunk: seq<Order>)
    requires chunk != [] && mk.token.Some? && ChunkTx(setup, chain, mk, chunk).Ok?
    ensures ChunkTx(setup, chain, mk, chunk).value.call.IsLock() <==> mk.deposit.Some?
  {
    hide EncodeChunk;
    EncodeChunkCarries(setup, chain, mk, Receivers(chunk), Sums(chunk), AnyFinish(AllRows(chunk)));
  }

  // ---- the flagged row ----

  ghost predicate FlaggedRow(s: State, f: nat, chainId: int, id: nat) {
    && f < |s.transfers| && s.transfers[f].id == f && s.transfers[f].txId.None?
    && OfDeposit(s.transfers[f], chainId, PrintU256(id)) && Requests(s.transfers[f])
  }

  /** A closing transaction for the deposit is linked to the flagged row. */
  lemma ClosingIsFlagged(s: State, s': State, f: nat, chainId: int, id: nat, t: nat)
    requires Inv(s') && DepositInv(s.transfers) && DepositInv(s'.transfers) && Evolves(s, s')
    requires FlaggedRow(s, f, chainId, id) && ClosedBy(s', chainId, id, t)
    ensures Linked(s'.transfers, f, t)
  {
    hide Inv, PrintU256;
    var i := ClosingRow(s', t);
    assert SameTransfer(s.transfers[i], s'.transfers[i]);
  }

  /** A row linked to a transaction of the lock contract makes it close the row's deposit if the row is flagged. */
  lemma LinkedCloses(s: State, s': State, f: nat, chainId: int, id: nat, t: nat)
    requires Inv(s') && Evolves(s, s') && FlaggedRow(s, f, chainId, id) && id < TWO_256
    requires t < |s'.txs| && Linked(s'.transfers, f, t) && s'.txs[t].call.IsLock()
    ensures ClosedBy(s', chainId, id, t)
  {
    hide PrintU256, ParseU256;
    assert SameTransfer(s.transfers[f], s'.transfers[f]);
    U256RoundTrip(id);
    assert TxOk(s'.transfers, t, s'.txs[t]);
    assert Agrees(s'.transfers[f], s'.txs[t]);
    assert LinksFinish(s'.transfers, t);
  }

  // ---- deposits that are never closed ----

  /** The deposit's flagged row is linked to a transaction outside the deposit, or can never close it. */
  ghost predicate Dead(s: State, f: nat, chainId: int, id: nat) {
    && f < |s.transfers| && OfDeposit(s.transfers[f], chainId, PrintU256(id)) && Requests(s.transfers[f])
    && if s.transfers[f].txId.Some?
       then s.transfers[f].txId.value < |s.txs| && !s.txs[s.transfers[f].txId.value].call.IsLock()
       else !CanClose(s.transfers[f])
  }

  /** No gather, failing ones included, brings such a deposit back. */
  lemma GatherKeepsDead(setup: PaymentSetup, allowances: Allowances, account: Address, chain: int, s: State, g: Gather,
                        f: nat, chainId: int, id: nat)
    requires ValidSetup(setup) && Inv(s) && IsGather(setup, allowances, account, chain, s, g)
    requires Dead(s, f, chainId, id)
    ensures Dead(g.multi.s, f, chainId, id)
  {
    hide Inv, IsGather, Classify, PrintU256, PrintAddress, NamesAccount, IsCloseMarker, Agrees;
    GatherKeepsInv(setup, allowances, account, chain, s, g);
    RowAfterGather(setup, allowances, account, chain, s, g, f);
    var s', row, row' := g.multi.s, s.transfers[f], g.multi.s.transfers[f];
    assert SameTransfer(row, row');
    if row.txId.Some? {
      assert Linked(s.transfers, f, row.txId.value);
      assert Linked(s'.transfers, f, row.txId.value);
    } else if row'.txId.Some? {
      LinkedAgrees(s', f);
      if s'.txs[row'.txId.value].call.IsLock() {
        LockedCanClose(setup, row, row', s'.txs[row'.txId.value]);
      }
    } else {
      SameCannotClose(row, row');
    }
  }

  lemma LinkedAgrees(s: State, i: nat)
    requires Inv(s) && i < |s.transfers| && s.transfers[i].txId.Some?
    ensures s.transfers[i].txId.value < |s.txs| && Agrees(s.transfers[i], s.txs[s.transfers[i].txId.value])
  {
    hide Agrees;
    var t := s.transfers[i].txId.value;
    assert TxOk(s.transfers, t, s.txs[t]) && Linked(s.transfers, i, t);
  }

  lemma SameCannotClose(row: Transfer, row': Transfer)
    requires SameTransfer(row, row') && !CanClose(row) && (row.error.Some? ==> row' == row)
    ensures !CanClose(row')
  {
    hide NamesAccount, ParseAddress, ParseAmount;
  }

  /** A flagged row ends a gather as if no requests had come in between. */
  lemma AroundFlagged(s: State, pre: State, mid: State, a: State, b: State, written: set<nat>, f: nat)
    requires Around(s, pre, mid, a, b, written) && f < |s.transfers| && Requests(s.transfers[f])
    ensures f < |a.transfers| && f < |b.transfers| && b.transfers[f] == a.transfers[f] && a.txs == b.txs
  {
    hide Inv, DepositInv;
    assert SameTransfer(s.transfers[f], pre.transfers[f]);
  }

  lemma StepKeepsDead(s: State, e: Event, s': State, f: nat, chainId: int, id: nat)
    requires Inv(s) && DepositInv(s.transfers) && Step(s, e, s') && Dead(s, f, chainId, id)
    ensures Dead(s', f, chainId, id)
  {
    hide Inv, DepositInv, Answer, Around, CanClose, PrintU256;
    match e
    case Ask(r) => AnswerEdits(s, r);
    case Round(setup, allowances, account, chain, between, h) =>
      var g, written := RoundAround(setup, allowances, account, chain, s, between, h);
      GatherKeepsDead(setup, allowances, account, chain, s, g, f, chainId, id);
      AroundFlagged(s, g.pre.s, h.pre.s, g.multi.s, s', written, f);
  }

  lemma DeadIsNotClosed(s: State, f: nat, chainId: int, id: nat, t: nat)
    requires Inv(s) && DepositInv(s.transfers) && Dead(s, f, chainId, id)
    ensures !ClosedBy(s, chainId, id, t)
  {
    hide Inv, PrintU256, CanClose;
    if ClosedBy(s, chainId, id, t) {
      var i := ClosingRow(s, t);
      OneRequest(s.transfers, i, f);
    }
  }

  lemma OneRequest(ts: seq<Transfer>, i: nat, j: nat)
    requires DepositInv(ts) && i < |ts| && j < |ts| && Requests(ts[i]) && Requests(ts[j])
    requires ts[i].chainId == ts[j].chainId && ts[i].depositId == ts[j].depositId
    ensures i == j
  {
  }

  /** Over every run of requests and gathers, failing or disturbed ones included: once the flagged row cannot close its
      deposit, or is paid outside it, no transaction ever closes the deposit, and no further request is accepted. */
  lemma {:induction false} NeverClosed(states: seq<State>, events: seq<Event>, j: nat, k: nat, f: nat, chainId: int,
                                       id: nat)
    requires Run(states, events) && j <= k < |states| && Dead(states[j], f, chainId, id)
    ensures Dead(states[k], f, chainId, id)
    ensures forall t: nat :: !ClosedBy(states[k], chainId, id, t)
    ensures forall from, token, check :: RequestClose(states[k], chainId, from, id, token, check).Err?
  {
    hide Inv, DepositInv, Step, Dead, ClosedBy, RequestClose, Requested;
    if j < k {
      NeverClosed(states, events, j, k - 1, f, chainId, id);
      RunKeepsInvs(states, events, k - 1);
      StepKeepsDead(states[k - 1], events[k - 1], states[k], f, chainId, id);
    }
    RunKeepsInvs(states, events, k);
    forall t: nat ensures !ClosedBy(states[k], chainId, id, t) { DeadIsNotClosed(states[k], f, chainId, id, t); }
    DeadIsRequested(states[k], f, chainId, id);
    RequestedBlocks(states[k], chainId, id);
  }

  lemma DeadIsRequested(s: State, f: nat, chainId: int, id: nat)
    requires Dead(s, f, chainId, id)
    ensures Requested(s.transfers, chainId, id)
  {
    hide PrintU256, CanClose;
    assert s.transfers[f] in s.transfers;
  }

  // ---- the next gather decides ----

  /** The flagged row can close its deposit, and is the marker or in a chunk that is committed. */
  ghost predicate WillClose(setup: PaymentSetup, allowances: Allowances, rows: seq<Transfer>, row: Transfer)
    requires ValidSetup(setup)
  {
    CanClose(row) &&
    (IsCloseMarker(row) || RowCommitted(setup, allowances, row.Multi(), PlanOrders(setup, rows, row.Multi()), row))
  }

  lemma CanCloseIsClassified(setup: PaymentSetup, row: Transfer)
    requires CanClose(row)
    ensures IsCloseMarker(row) ==> Classify(setup, row).Closing? || Classify(setup, row).Stop?
    ensures !IsCloseMarker(row) ==> Classify(setup, row).Grouped? && row.tokenAddr.Some?
  {
    hide ParseAddress, ParseAmount, ParseU256;
  }

  lemma ClosedWillClose(setup: PaymentSetup, allowances: Allowances, account: Address, chainId: int, s: State,
                        g: Gather, f: nat, id: nat, t: nat)
    requires ValidSetup(setup) && Inv(s) && DepositInv(s.transfers) && FlaggedRow(s, f, chainId, id)
    requires IsGather(setup, allowances, account, chainId, s, g) && g.Error().None?
    requires ClosedBy(g.multi.s, chainId, id, t)
    ensures WillClose(setup, allowances, Pending(s.transfers, account, chainId), s.transfers[f])
  {
    hide Inv, IsGather, Pending, Classify, DepositInv, PrintU256, PrintAddress, PlanOrders, RowCommitted;
    hide NamesAccount, IsCloseMarker, CanClose, Agrees, Evolves;
    var row := s.transfers[f];
    GatherKeepsInv(setup, allowances, account, chainId, s, g);
    EvolvesKeepsRequests(s, g.multi.s);
    ClosingIsFlagged(s, g.multi.s, f, chainId, id, t);
    RowAfterGather(setup, allowances, account, chainId, s, g, f);
    LinkedAgrees(g.multi.s, f);
    assert SameTransfer(row, g.multi.s.transfers[f]) by { EvolvedTo(s, g.multi.s, f); }
    LockedCanClose(setup, row, g.multi.s.transfers[f], g.multi.s.txs[t]);
    PendingComplete(s.transfers, account, chainId, f);
    if !IsCloseMarker(row) {
      CanCloseIsClassified(setup, row);
      LinkedIffCommitted(setup, allowances, account, chainId, s, g, row);
    }
  }

  lemma EvolvedTo(s: State, s': State, i: nat)
    requires Evolves(s, s') && i < |s.transfers|
    ensures i < |s'.transfers| && SameTransfer(s.transfers[i], s'.transfers[i])
  {
  }

  lemma WillCloseCloses(setup: PaymentSetup, allowances: Allowances, account: Address, chainId: int, s: State,
                        g: Gather, f: nat, id: nat) returns (t: nat)
    requires ValidSetup(setup) && Inv(s) && FlaggedRow(s, f, chainId, id) && id < TWO_256
    requires IsGather(setup, allowances, account, chainId, s, g) && g.Error().None?
    requires s.transfers[f].fromAddr == PrintAddress(account)
    requires WillClose(setup, allowances, Pending(s.transfers, account, chainId), s.transfers[f])
    ensures ClosedBy(g.multi.s, chainId, id, t) && Linked(g.multi.s.transfers, f, t)
  {
    hide Inv, IsGather, Pending, Classify, PrintU256, PrintAddress, PlanOrders, RowCommitted, Evolves, ClosedBy;
    hide NamesAccount, IsCloseMarker;
    var row := s.transfers[f];
    PendingComplete(s.transfers, account, chainId, f);
    CanCloseIsClassified(setup, row);
    GatherFates(setup, allowances, account, chainId, s, g, f);
    GatherKeepsInv(setup, allowances, account, chainId, s, g);
    if !IsCloseMarker(row) { LinkedIffCommitted(setup, allowances, account, chainId, s, g, row); }
    t := g.multi.s.transfers[f].txId.value;
    if IsCloseMarker(row) {
      ClosingLocks(setup, row);
    } else {
      TokenRowLocks(setup, allowances, account, chainId, s, g, row, t);
    }
    LinkedCloses(s, g.multi.s, f, chainId, id, t);
  }

  lemma ClosingLocks(setup: PaymentSetup, row: Transfer)
    requires Classify(setup, row).Closing?
    ensures Classify(setup, row).tx.call.IsLock()
  {
  }

  lemma CannotCloseIsDead(setup: PaymentSetup, allowances: Allowances, account: Address, chainId: int, s: State,
                          g: Gather, f: nat, id: nat)
    requires ValidSetup(setup) && Inv(s) && FlaggedRow(s, f, chainId, id)
    requires IsGather(setup, allowances, account, chainId, s, g) && g.Error().None?
    requires s.transfers[f].fromAddr == PrintAddress(account)
    requires !WillClose(setup, allowances, Pending(s.transfers, account, chainId), s.transfers[f])
    ensures Dead(g.multi.s, f, chainId, id)
  {
    hide Inv, IsGather, Pending, Classify, PrintU256, PrintAddress, PlanOrders, RowCommitted, PlanError, Evolves;
    hide NamesAccount, IsCloseMarker;
    var row := s.transfers[f];
    if CanClose(row) {
      PendingComplete(s.transfers, account, chainId, f);
      CanCloseIsClassified(setup, row);
      GatherFollowsPlan(setup, allowances, account, chainId, s, g, f);
      LinkedIffCommitted(setup, allowances, account, chainId, s, g, row);
      GatherKeepsInv(setup, allowances, account, chainId, s, g);
      EvolvedTo(s, g.multi.s, f);
    } else {
      GatherKeepsDead(setup, allowances, account, chainId, s, g, f, chainId, id);
    }
  }

  /** After an error-free gather of the flagged row's account and chain the deposit has a closing transaction, or it
      never will have one; which of the two is told from the pending rows, the settings and the allowances. */
  lemma FlaggedThenGather(setup: PaymentSetup, allowances: Allowances, account: Address, chainId: int, s: State,
                          g: Gather, f: nat, id: nat)
    requires ValidSetup(setup) && Inv(s) && DepositInv(s.transfers) && id < TWO_256
    requires IsGather(setup, allowances, account, chainId, s, g) && g.Error().None?
    requires FlaggedRow(s, f, chainId, id) && s.transfers[f].fromAddr == PrintAddress(account)
    ensures var closes := WillClose(setup, allowances, Pending(s.transfers, account, chainId), s.transfers[f]);
            && ((exists t: nat :: ClosedBy(g.multi.s, chainId, id, t)) <==> closes)
            && (Dead(g.multi.s, f, chainId, id) <==> !closes)
  {
    hide Inv, IsGather, Pending, DepositInv, PrintU256, PrintAddress, WillClose, Evolves, CanClose;
    if t: nat :| ClosedBy(g.multi.s, chainId, id, t) {
      ClosedWillClose(setup, allowances, account, chainId, s, g, f, id, t);
    }
    if WillClose(setup, allowances, Pending(s.transfers, account, chainId), s.transfers[f]) {
      var t := WillCloseCloses(setup, allowances, account, chainId, s, g, f, id);
    } else {
      CannotCloseIsDead(setup, allowances, account, chainId, s, g, f, id);
    }
  }

  /** A granted close request, then an error-free gather of the flagged row's account and chain: there is a closing
      transaction if and only if the flagged row can close and is the marker or in a committed chunk. Otherwise the
      deposit is dead. A request may flag a row that cannot close, such as a rejected one; then the deposit is dead at
      once. */
  lemma RequestThenGather(setup: PaymentSetup, allowances: Allowances, account: Address, s: State, chainId: int,
                          from: Address, id: nat, token: Address, check: DepositCheck, g: Gather)
    requires ValidSetup(setup) && Inv(s) && DepositInv(s.transfers) && id < TWO_256
    requires RequestClose(s, chainId, from, id, token, check).Ok?
    requires IsGather(setup, allowances, account, chainId, RequestClose(s, chainId, from, id, token, check).value, g)
    requires g.Error().None?
    ensures var f, mid := FlaggedId(s.transfers, chainId, id), RequestClose(s, chainId, from, id, token, check).value;
            && f < |mid.transfers| && (Dead(mid, f, chainId, id) <==> !CanClose(mid.transfers[f]))
            && (mid.transfers[f].fromAddr == PrintAddress(account) ==>
                  var rows := Pending(mid.transfers, account, chainId);
                  var closes := WillClose(setup, allowances, rows, mid.transfers[f]);
                  && ((exists t: nat :: ClosedBy(g.multi.s, chainId, id, t)) <==> closes)
                  && (Dead(g.multi.s, f, chainId, id) <==> !closes))
  {
    hide Inv, DepositInv, RequestClose, IsGather, Pending, FlaggedId, PrintU256, PrintAddress, CanClose, WillClose;
    Deposits.CloseStep(s, chainId, from, id, token, check);
    WellFormedLedger(s);
    var y := GrantedIsOver(s, chainId, from, id, token, check);
    var mid, f := RequestClose(s, chainId, from, id, token, check).value, FlaggedId(s.transfers, chainId, id);
    assert mid.transfers[f] == y;
    if y.fromAddr == PrintAddress(account) {
      FlaggedThenGather(setup, allowances, account, chainId, mid, g, f, id);
    }
  }
}
