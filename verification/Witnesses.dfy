/** Concrete tables that show the exceptional outcomes of the theorems do happen. */
module Witnesses {
  import opened Prelude
  import opened Bytes
  import opened Text
  import opened Contracts
  import opened Ledger
  import opened Orders
  import opened Chunks
  import opened Gathering
  import opened GatherTheorems
  import opened Conservation
  import opened Deposits
  import opened Plan
  import opened PlanFacts
  import opened GatherPlan
  import opened Preservation
  import opened Overlays
  import opened Interleaved
  import opened Closings
  import opened Approvals
  import opened DecimalText

  const CHAIN := ChainSetup(Some(4), Some(6), 1)
  const SETUP := PaymentSetup(map[1 := CHAIN], true, false, false, false)

  /** A transfer from account 1 on chain 1. */
  function Row(id: nat, receiver: Address, token: Option<Address>, amount: string, deposit: Option<string>): Transfer {
    Transfer(id, PrintAddress(1), PrintAddress(receiver), 1,
             match token { case Some(t) => Some(PrintAddress(t)) case None => None },
             amount, deposit, 0, None, None)
  }

  lemma RowIsGrouped(id: nat, receiver: Address, token: Option<Address>, amount: string, deposit: Option<string>)
    requires receiver != 0
    ensures var row := Row(id, receiver, token, amount, deposit);
            && Classify(SETUP, row) == Grouped && IsPending(row, 1, 1) &&
               ParseAddress(row.receiverAddr) == Some(receiver)
            && ParseAddress(row.fromAddr) == Some(1)
  {
    hide PrintAddress, ParseAddress;
    AddressRoundTrip(1);
    AddressRoundTrip(receiver);
  }

  lemma EmptyLedger(rows: seq<Transfer>)
    requires forall i | 0 <= i < |rows| :: rows[i].id == i && rows[i].txId.None?
    ensures Inv(State(rows, []))
  {
  }

  // ---- tables of one and two rows ----

  lemma AppendPlan(setup: PaymentSetup, rows: seq<Transfer>, row: Transfer, key: Key)
    requires Classify(setup, row).Grouped?
    ensures PayKeys(setup, rows + [row]) ==
            PayKeys(setup, rows) + if row.KeyOf() in PayKeys(setup, rows) then [] else [row.KeyOf()]
    ensures KeyRows(setup, rows + [row], key) ==
            KeyRows(setup, rows, key) + if row.KeyOf() == key then [row] else []
  {
    assert (rows + [row])[..|rows|] == rows;
  }

  lemma OnePlan(setup: PaymentSetup, row: Transfer)
    requires Classify(setup, row).Grouped?
    ensures PayKeys(setup, [row]) == [row.KeyOf()] && KeyRows(setup, [row], row.KeyOf()) == [row]
    ensures KeysOf([row.KeyOf()], row.Multi()) == [row.KeyOf()]
    ensures PlanOrders(setup, [row], row.Multi()) == [Order(ParseAddress(row.receiverAddr).GetOr(0), [row])]
  {
    hide Classify;
    AppendPlan(setup, [], row, row.KeyOf());
    assert [] + [row] == [row] && [row.KeyOf()][1..] == [];
  }

  lemma TwoPlan(setup: PaymentSetup, x: Transfer, y: Transfer)
    requires Classify(setup, x).Grouped? && Classify(setup, y).Grouped?
    requires x.KeyOf() != y.KeyOf() && x.Multi() == y.Multi()
    ensures PayKeys(setup, [x, y]) == [x.KeyOf(), y.KeyOf()]
    ensures PlanOrders(setup, [x, y], x.Multi()) ==
            [Order(ParseAddress(x.receiverAddr).GetOr(0), [x]), Order(ParseAddress(y.receiverAddr).GetOr(0), [y])]
  {
    hide Classify;
    forall key ensures KeyRows(setup, [x, y], key) ==
        (if x.KeyOf() == key then [x] else []) + if y.KeyOf() == key then [y] else []
    {
      AppendPlan(setup, [], x, key);
      AppendPlan(setup, [x], y, key);
      assert [] + [x] == [x] && [x] + [y] == [x, y];
    }
    AppendPlan(setup, [], x, x.KeyOf());
    AppendPlan(setup, [x], y, x.KeyOf());
    assert [] + [x] == [x] && [x] + [y] == [x, y];
    var keys := [x.KeyOf(), y.KeyOf()];
    assert keys[1..] == [y.KeyOf()] && [y.KeyOf()][1..] == [];
    assert KeysOf([y.KeyOf()], x.Multi()) == [y.KeyOf()];
    assert KeysOf(keys, x.Multi()) == keys;
    assert KeyRows(setup, [x, y], x.KeyOf()) == [x] && KeyRows(setup, [x, y], y.KeyOf()) == [y];
  }

  lemma OnePending(row: Transfer, account: Address, chainId: int)
    requires IsPending(row, account, chainId)
    ensures Pending([row], account, chainId) == [row]
  {
    assert [row][..0] == [];
  }

  lemma TwoPending(x: Transfer, y: Transfer, account: Address, chainId: int)
    requires IsPending(x, account, chainId) && IsPending(y, account, chainId)
    ensures Pending([x, y], account, chainId) == [x, y]
  {
    assert [x, y][..1] == [x];
    OnePending(x, account, chainId);
  }

  // ---- chunks of one receiver ----

  lemma OneChunk(order: Order)
    requires |order.rows| == 1
    ensures AllRows([order]) == order.rows && Receivers([order]) == [order.receiver]
    ensures Sums([order]) == [order.rows[0].Amount()]
    ensures AllParse(AllRows([order])) <==> ParseAmount(order.rows[0].tokenAmount).Some?
  {
    assert [order][1..] == [] && order.rows[1..] == [] && order.rows == [order.rows[0]];
    assert AllRows([order]) == order.rows + [];
    assert RowsSum(order.rows) == order.rows[0].Amount() + RowsSum(order.rows[1..]);
  }

  /** A readable amount up to 2^96 can be sent to one receiver. */
  lemma OneChunkEncodes(row: Transfer, receiver: Address, amount: nat)
    requires ParseAddress(row.fromAddr) == Some(1) && row.tokenAddr.Some?
    requires ParseAmount(row.tokenAmount) == Some(amount) && amount <= TWO_96
    requires row.depositId.Some? ==> ParseU256(row.depositId.value).Some?
    ensures ChunkTx(SETUP, CHAIN, row.Multi(), [Order(receiver, [row])]).Ok?
  {
    hide ParseAddress, ParseAmount, ParseU256, Pack;
    OneChunk(Order(receiver, [row]));
    PackAccepts([receiver], [amount]);
  }

  lemma OneSucceeds(row: Transfer, receiver: Address, amount: nat)
    requires Classify(SETUP, row).Grouped? && row.tokenAddr.Some? && row.chainId == 1
    requires ParseAddress(row.receiverAddr) == Some(receiver) && ParseAddress(row.fromAddr) == Some(1)
    requires ParseAmount(row.tokenAmount) == Some(amount) && amount <= TWO_96
    requires row.depositId.Some? ==> ParseU256(row.depositId.value).Some?
    ensures Succeeds(SETUP, map[], [row])
  {
    hide Classify, ChunkTx, ParseAddress, ParseAmount, ParseU256;
    OnePlan(SETUP, row);
    OneChunkEncodes(row, receiver, amount);
    var orders := PlanOrders(SETUP, [row], row.Multi());
    assert orders[..1] == orders && orders[1..] == [];
    assert ChunkError(SETUP, CHAIN, row.Multi(), orders[1..]).None?;
    assert ChunkError(SETUP, CHAIN, row.Multi(), orders).None?;
    assert PlanError(SETUP, map[], [row], row.Multi()).None?;
  }

  lemma PrintedAmount(amount: nat)
    requires amount < TWO_256
    ensures ParseAmount(PrintDec(amount)) == Some(amount)
  {
    PrintDecFacts(amount);
  }

  /** A transfer of 2^96 in packed words pays nothing: the word reads as 0, and the announced sum is not met. */
  lemma FullChunkPaysNothing(row: Transfer, receiver: Address, t: Tx)
    requires row.tokenAddr.Some? && row.depositId.None? && ParseAmount(row.tokenAmount) == Some(TWO_96)
    requires ChunkTx(SETUP, CHAIN, row.Multi(), [Order(receiver, [row])]) == Ok(t)
    ensures Paid(Payouts(t), receiver) == 0
  {
    hide ParseAddress, ParseAmount, PackWords, UnpackWords;
    OneChunk(Order(receiver, [row]));
    UnpackedBatch([receiver], [TWO_96]);
    var d := UnpackWords(PackWords([receiver], [TWO_96]));
    assert d == [Payment(receiver, 0)] && d[1..] == [];
    assert Paid(d, receiver) == 0 && Paid([], receiver) == 0;
  }

  lemma {:induction false} NothingPaid(s: State, lo: nat, hi: nat, key: MultiKey, a: Address)
    requires lo <= hi <= |s.txs|
    requires forall t | lo <= t < hi && CarriesKey(s.transfers, t, key) :: Paid(Payouts(s.txs[t]), a) == 0
    ensures PaidFor(s, lo, hi, key, a) == 0
    decreases hi - lo
  {
    if lo < hi { NothingPaid(s, lo, hi - 1, key, a); }
  }

  lemma FirstChunkPlaced(setup: PaymentSetup, allowances: Allowances, key: MultiKey, orders: seq<Order>, s: State,
                         lo: nat)
    requires ValidSetup(setup) && key.token.Some? && BatchPlaced(setup, allowances, key, orders, s, lo)
    requires Committed(setup, allowances, key, orders) > 0
    ensures ChunkPlaced(setup, key, orders, s, lo, 0)
  {
    hide Committed, ChunkPlaced;
    assert ChunkPlaced(setup, key, orders, s, lo, 0);
  }

  /** The only row's transaction is that of its chunk. */
  lemma OneRowPlaced(s: State, g: Gather, row: Transfer, receiver: Address, t: nat)
    requires s.transfers == [row] && row.id == 0 && Inv(s) && IsGather(SETUP, map[], 1, 1, s, g)
    requires Pending(s.transfers, 1, 1) == [row] && Classify(SETUP, row) == Grouped && row.tokenAddr.Some?
    requires ParseAddress(row.receiverAddr) == Some(receiver) && row.chainId == 1
    requires Succeeds(SETUP, map[], [row]) && |g.multi.s.transfers| == 1
    requires t < |g.multi.s.txs| && CarriesKey(g.multi.s.transfers, t, row.Multi())
    ensures ChunkTx(SETUP, CHAIN, row.Multi(), [Order(receiver, [row])]) == Ok(g.multi.s.txs[t])
  {
    hide Classify, ParseAddress, Inv, IsGather, Pending, ChunkTx, CheckAllowance, Stops, NativeFails, PayKeys;
    var mk, orders := row.Multi(), [Order(receiver, [row])];
    GatherErrors(SETUP, map[], 1, 1, s, g);
    OnePlan(SETUP, row);
    GroupedIsPaid(SETUP, [row], row);
    BatchesArePlaced(SETUP, map[], 1, 1, s, g, mk);
    assert PlanError(SETUP, map[], [row], mk).None?;
    OkChunksBound(SETUP, CHAIN, mk, orders);
    var lo: nat :| BatchPlaced(SETUP, map[], mk, orders, g.multi.s, lo);
    assert ChunkCount(|orders|, 1) == 1 by { assert ChunkCount(0, 1) == 0; }
    assert Committed(SETUP, map[], mk, orders) == 1;
    FirstChunkPlaced(SETUP, map[], mk, orders, g.multi.s, lo);
    assert ChunkAt(orders, 1, 0) == orders;
    OneChunk(orders[0]);
    assert row.id in Ids(AllRows(orders)) && Linked(g.multi.s.transfers, 0, lo);
  }

  /** One transfer of exactly 2^96: every gather settles it, and the receiver is paid nothing. */
  lemma FullTransferIsLost() returns (s: State, g: Gather)
    ensures Inv(s) && IsGather(SETUP, map[], 1, 1, s, g) && Succeeds(SETUP, map[], Pending(s.transfers, 1, 1))
    ensures |s.txs| <= |g.multi.s.txs| && !PaysWhatIsOwed(SETUP, 1, 1, s, g.multi.s)
    ensures |s.transfers| == 1 && s.transfers[0].Amount() == TWO_96
    ensures PaidFor(g.multi.s, |s.txs|, |g.multi.s.txs|, s.transfers[0].Multi(), 2) == 0
  {
    hide Classify, ParseAddress, ParseAmount, PrintAddress, PrintDec, Succeeds, PaysWhatIsOwed, IsGather, Inv, PaidFor;
    hide Payouts, ChunkTx, CarriesKey;
    var row := Row(0, 2, Some(3), PrintDec(TWO_96), None);
    RowIsGrouped(0, 2, Some(3), PrintDec(TWO_96), None);
    PrintedAmount(TWO_96);
    s := State([row], []);
    EmptyLedger([row]);
    OnePending(row, 1, 1);
    OneSucceeds(row, 2, TWO_96);
    g := GatherExists(SETUP, map[], 1, 1, s);
    OnePlan(SETUP, row);
    RowsSumAppend([], row);
    assert [] + [row] == [row];
    assert PackedAt(SETUP, PayKeys(SETUP, [row]), row.Multi(), 0);
    assert FullAndPacked(SETUP, [row], row.KeyOf());
    GatherConserves(SETUP, map[], 1, 1, s, g);
    GatherKeepsInv(SETUP, map[], 1, 1, s, g);
    forall t | 0 <= t < |g.multi.s.txs| && CarriesKey(g.multi.s.transfers, t, row.Multi())
      ensures Paid(Payouts(g.multi.s.txs[t]), 2) == 0
    {
      OneRowPlaced(s, g, row, 2, t);
      FullChunkPaysNothing(row, 2, g.multi.s.txs[t]);
    }
    NothingPaid(g.multi.s, 0, |g.multi.s.txs|, row.Multi(), 2);
  }

  /** Two transfers of one payer, the second unreadable, one receiver a transaction: the first ends with both a
      transaction and the failure text, the second with the text alone. */
  lemma LinkedAndMarked() returns (s: State, g: Gather)
    ensures Inv(s) && IsGather(SETUP, map[], 1, 1, s, g) && g.Error().None?
    ensures |g.multi.s.transfers| == 2
    ensures g.multi.s.transfers[0].txId.Some? && g.multi.s.transfers[0].error == Some("Error in gathering transactions")
    ensures g.multi.s.transfers[1].txId.None? && g.multi.s.transfers[1].error == Some("Error in gathering transactions")
  {
    hide Classify, ParseAddress, ParseAmount, PrintAddress, PrintDec, IsGather, Inv;
    var x, y := Row(0, 2, Some(3), PrintDec(1), None), Row(1, 5, Some(3), "x", None);
    RowIsGrouped(0, 2, Some(3), PrintDec(1), None);
    RowIsGrouped(1, 5, Some(3), "x", None);
    s := State([x, y], []);
    EmptyLedger([x, y]);
    TwoPending(x, y, 1, 1);
    g := GatherExists(SETUP, map[], 1, 1, s);
    PrintedAmount(1);
    SecondChunkFails(x, y);
    GatherErrors(SETUP, map[], 1, 1, s, g);
    GatherFollowsPlan(SETUP, map[], 1, 1, s, g, 0);
    GatherFollowsPlan(SETUP, map[], 1, 1, s, g, 1);
    GatherKeepsInv(SETUP, map[], 1, 1, s, g);
  }

  lemma Unreadable()
    ensures ParseAmount("x").None?
  {
    assert "x"[..0] == "";
  }

  lemma SecondChunkFails(x: Transfer, y: Transfer)
    requires x.Multi() == y.Multi() && x.chainId == 1 && x.tokenAddr.Some? && x.depositId.None?
    requires ParseAmount(x.tokenAmount) == Some(1) && y.tokenAmount == "x"
    requires Classify(SETUP, x) == Grouped && Classify(SETUP, y) == Grouped
    requires ParseAddress(x.fromAddr) == Some(1) && ParseAddress(x.receiverAddr) == Some(2)
    requires ParseAddress(y.receiverAddr) == Some(5)
    ensures !Stops(SETUP, [x, y]) && AllowancesMet(SETUP, map[], [x, y])
    ensures x.Multi() == y.Multi() && PlanError(SETUP, map[], [x, y], x.Multi()).Some?
    ensures RowCommitted(SETUP, map[], x.Multi(), PlanOrders(SETUP, [x, y], x.Multi()), x)
    ensures !RowCommitted(SETUP, map[], x.Multi(), PlanOrders(SETUP, [x, y], x.Multi()), y)
  {
    hide Classify, ParseAddress, ParseAmount, ChunkTx;
    assert x.KeyOf() != y.KeyOf();
    TwoPlan(SETUP, x, y);
    OneChunkEncodes(x, 2, 1);
    var orders := PlanOrders(SETUP, [x, y], x.Multi());
    var a, b := orders[0], orders[1];
    assert orders[..1] == [a] && orders[1..] == [b] && [b][..1] == [b] && [b][1..] == [];
    SecondChunk(x.Multi(), b);
    assert OkChunks(SETUP, CHAIN, x.Multi(), [b]) == 0;
    assert OkChunks(SETUP, CHAIN, x.Multi(), orders) == 1;
    assert ChunkError(SETUP, CHAIN, x.Multi(), orders) == Some(Custom("Invalid token amount"));
    assert ChunkAt(orders, 1, 0) == [a];
    OneChunk(a);
    assert x in AllRows(ChunkAt(orders, 1, 0));
  }

  lemma SecondChunk(key: MultiKey, b: Order)
    requires key.token.Some? && |b.rows| == 1 && b.rows[0].tokenAmount == "x"
    ensures ChunkTx(SETUP, CHAIN, key, [b]) == Err(Custom("Invalid token amount"))
  {
    Unreadable();
    OneChunk(b);
  }

  /** A transfer in the chain's own currency with an unreadable amount is left as it is: neither paid nor marked. */
  lemma NativeLeftPending() returns (s: State, g: Gather)
    ensures Inv(s) && IsGather(SETUP, map[], 1, 1, s, g) && g.Error().None?
    ensures |s.transfers| == 1 && IsPending(s.transfers[0], 1, 1) && g.multi.s.transfers == s.transfers
  {
    hide Classify, ParseAddress, ParseAmount, PrintAddress, IsGather, Inv;
    var row := Row(0, 2, None, "x", None);
    RowIsGrouped(0, 2, None, "x", None);
    s := State([row], []);
    EmptyLedger([row]);
    OnePending(row, 1, 1);
    g := GatherExists(SETUP, map[], 1, 1, s);
    OnePlan(SETUP, row);
    Unreadable();
    assert !AllParse([row]) by { assert row in [row]; }
    assert NativeFails(SETUP, [row], row.KeyOf());
    GatherErrors(SETUP, map[], 1, 1, s, g);
    GatherFollowsPlan(SETUP, map[], 1, 1, s, g, 0);
    GatherKeepsInv(SETUP, map[], 1, 1, s, g);
  }

  // ---- deposits ----

  /** Two steps from the empty table: a transfer is added, and the gather that pays it is split by a close request. */
  lemma RunOfTwo(row: Transfer, between: seq<Request>, h: Gather)
    requires row.id == 0 && row.depositFinish == 0 && row.txId.None? && row.error.None? && AllProper(between)
    requires IsSplitGather(SETUP, map[], 1, 1, State([row], []),
                           AnswerAll(FirstStage(SETUP, 1, 1, State([row], [])), between), h)
    ensures Run([EMPTY_LEDGER, State([row], []), h.multi.s],
                [Ask(Insert(row)), Round(SETUP, map[], 1, 1, between, h)])
  {
    hide IsSecondStage, PreRun, Pending, AnswerAll;
    assert [] + [row] == [row];
    assert Answer(EMPTY_LEDGER, Insert(row)) == State([row], []);
  }

  /** One payment from deposit 10, and a request to close the deposit granted between the stages of the gather that
      makes it: afterwards nobody is asking to close the deposit. */
  lemma RequestIsLost() returns (states: seq<State>, events: seq<Event>)
    ensures Run(states, events) && |states| == 3 && events[1].Round? && |events[1].between| == 1
    ensures var request := events[1].between[0];
            var first := FirstStage(SETUP, 1, 1, states[1]);
            && request.Close? && request.chainId == 1 && request.id == 10
            && Requested(Answer(first, request).transfers, 1, 10)
    ensures !Requested(states[2].transfers, 1, 10)
  {
    hide Classify, ParseAddress, ParseAmount, ParseU256, PrintAddress, PrintDec, PrintU256, Succeeds, Inv, Run;
    hide Requested, IsSecondStage, PreRun;
    var row := Row(0, 2, Some(3), PrintDec(1), Some(PrintU256(10)));
    RowIsGrouped(0, 2, Some(3), PrintDec(1), Some(PrintU256(10)));
    PrintedAmount(1);
    U256RoundTrip(10);
    var s := State([row], []);
    EmptyLedger([row]);
    OnePending(row, 1, 1);
    OneSucceeds(row, 2, 1);
    var g0 := GatherExists(SETUP, map[], 1, 1, s);
    PreIsNothing(s, row, g0);
    CloseOfOneRow(row);
    WellFormedLedger(s);
    AcceptedIsRequested(s, 1, 1, 10, 3, Skipped);
    var request := Close(1, 1, 10, 3, Skipped);
    var mid := Answer(s, request);
    assert AnswerAll(s, [request]) == mid by { assert [request][1..] == []; }
    var h := SplitOverOneRow(s, row, g0, mid);
    var g := RequestBetweenStages(SETUP, map[], 1, 1, s, 1, 1, 10, 3, Skipped, h);
    assert PlanWrites(SETUP, [row], 0) by { assert row in [row]; }
    RunOfTwo(row, [request], h);
    states, events := [EMPTY_LEDGER, s, h.multi.s], [Ask(Insert(row)), Round(SETUP, map[], 1, 1, [request], h)];
  }

  lemma SplitOverOneRow(s: State, row: Transfer, g0: Gather, mid: State) returns (h: Gather)
    requires Inv(s) && s.transfers == [row] && IsGather(SETUP, map[], 1, 1, s, g0)
    requires Pending(s.transfers, 1, 1) == [row] && Succeeds(SETUP, map[], [row])
    requires FirstStage(SETUP, 1, 1, s) == s && mid.txs == s.txs && |mid.transfers| >= 1
    ensures IsSplitGather(SETUP, map[], 1, 1, s, mid, h) && h.Error().None?
  {
    hide Inv, Pending, Succeeds, IsSecondStage, PreRun;
    h := SplitExists(SETUP, map[], 1, 1, s, g0, mid);
    var g, written := Undisturbed(SETUP, map[], 1, 1, s, mid, h);
    GatherErrors(SETUP, map[], 1, 1, s, g);
  }

  /** A payment in the chain's own currency that names deposit 10, a request to close the deposit, granted, and a
      gather: the payment is made outside the deposit, which stays requested and is never closed. */
  lemma DepositIsBlocked() returns (states: seq<State>, events: seq<Event>)
    ensures Run(states, events) && |states| == 4
    ensures events[1] == Ask(Close(1, 1, 10, 3, Skipped)) && events[2].Round?
    ensures RequestClose(states[1], 1, 1, 10, 3, Skipped).Ok?
    ensures Dead(states[2], 0, 1, 10) && Dead(states[3], 0, 1, 10)
    ensures |states[3].transfers| == 1 && states[3].transfers[0].txId.Some?
  {
    hide Classify, ParseAddress, ParseAmount, PrintAddress, PrintDec, PrintU256, IsGather, Inv, IsPending, Run;
    var row := Row(0, 2, None, PrintDec(1), Some(PrintU256(10)));
    RowIsGrouped(0, 2, None, PrintDec(1), Some(PrintU256(10)));
    var flagged := row.(depositFinish := 1);
    FlaggedIsGrouped(row, 2);
    CloseOfOneRow(row);
    var s := State([flagged], []);
    EmptyLedger([flagged]);
    OnePending(flagged, 1, 1);
    NativeSucceeds(flagged);
    var g := GatherExists(SETUP, map[], 1, 1, s);
    GatherErrors(SETUP, map[], 1, 1, s, g);
    GatherFollowsPlan(SETUP, map[], 1, 1, s, g, 0);
    GatherKeepsInv(SETUP, map[], 1, 1, s, g);
    FlaggedIsDead(s, flagged);
    GatherKeepsDead(SETUP, map[], 1, 1, s, g, 0, 1, 10);
    RunOfThree(row, g);
    states := [EMPTY_LEDGER, State([row], []), s, g.multi.s];
    events := [Ask(Insert(row)), Ask(Close(1, 1, 10, 3, Skipped)), Round(SETUP, map[], 1, 1, [], g)];
  }

  /** Queuing a row changes no table. */
  lemma PreIsNothing(s: State, row: Transfer, g: Gather)
    requires IsGather(SETUP, map[], 1, 1, s, g) && Pending(s.transfers, 1, 1) == [row] &&
             Classify(SETUP, row) == Grouped
    ensures g.pre.s == s
  {
    hide Classify, Pending, SortedPass, MultiRun;
    assert PreRun(SETUP, s, map[], [row]) == PreRun(SETUP, s, Push(map[], row), [row][1..]);
  }

  lemma CloseOfOneRow(row: Transfer)
    requires row.id == 0 && OfDeposit(row, 1, PrintU256(10)) && row.depositFinish == 0 && row.txId.None?
    ensures RequestClose(State([row], []), 1, 1, 10, 3, Skipped) == Ok(State([row.(depositFinish := 1)], []))
    ensures FlaggedId([row], 1, 10) == 0
  {
    hide PrintAddress, PrintDec, PrintU256;
    assert [row][..0] == [];
    assert DepositRows([row], 1, PrintU256(10)) == [row];
    assert Candidate([row]) == Some(row);
    assert Put([row], row.(depositFinish := 1)) == [row.(depositFinish := 1)];
  }

  lemma FlaggedIsGrouped(row: Transfer, receiver: Address)
    requires Classify(SETUP, row) == Grouped && IsPending(row, 1, 1)
    requires ParseAddress(row.receiverAddr) == Some(receiver) && receiver != 0
    ensures Classify(SETUP, row.(depositFinish := 1)) == Grouped && IsPending(row.(depositFinish := 1), 1, 1)
    ensures !IsCloseMarker(row.(depositFinish := 1))
  {
    hide ParseAddress, ParseAmount, PrintAddress;
  }

  lemma NativeSucceeds(row: Transfer)
    requires Classify(SETUP, row) == Grouped && row.tokenAddr.None? && row.chainId == 1
    requires row.tokenAmount == PrintDec(1)
    ensures !Stops(SETUP, [row]) && AllowancesMet(SETUP, map[], [row]) && !NativeFails(SETUP, [row], row.KeyOf())
  {
    hide Classify, ParseAmount, PrintDec;
    OnePlan(SETUP, row);
    PrintedAmount(1);
    NativeFailsIff(SETUP, [row], row.KeyOf());
  }

  lemma FlaggedIsDead(s: State, row: Transfer)
    requires s.transfers == [row] && OfDeposit(row, 1, PrintU256(10)) && Requests(row) && row.txId.None?
    requires row.tokenAddr.None? && !IsCloseMarker(row)
    ensures Dead(s, 0, 1, 10)
  {
    hide PrintU256, IsCloseMarker;
  }

  lemma RunOfThree(row: Transfer, g: Gather)
    requires row.id == 0 && row.depositFinish == 0 && row.txId.None? && row.error.None?
    requires OfDeposit(row, 1, PrintU256(10))
    requires IsGather(SETUP, map[], 1, 1, State([row.(depositFinish := 1)], []), g)
    ensures Run([EMPTY_LEDGER, State([row], []), State([row.(depositFinish := 1)], []), g.multi.s],
                [Ask(Insert(row)), Ask(Close(1, 1, 10, 3, Skipped)), Round(SETUP, map[], 1, 1, [], g)])
  {
    hide IsSecondStage, PreRun, Pending, RequestClose, PrintU256, IsSplitGather, IsGather;
    SplitOverNothing(SETUP, map[], 1, 1, State([row.(depositFinish := 1)], []), g);
    assert [] + [row] == [row];
    assert Answer(EMPTY_LEDGER, Insert(row)) == State([row], []);
    CloseOfOneRow(row);
  }

  // ---- allowances ----

  const CHECKED := SETUP.(skipMultiContractCheck := false)

  /** What account 1 allows the multi contract of chain 1 to do with token 3. */
  function AllowanceTable(confirmed: bool, amount: nat): Allowances {
    map[AllowanceKey(PrintAddress(1), PrintAddress(3), 4, 1) := Allowance(confirmed, PrintDec(amount))]
  }

  lemma ApprovedIff(confirmed: bool, amount: nat, row: Transfer)
    requires amount < TWO_256 && row.Multi() == MultiKey(PrintAddress(1), 1, Some(PrintAddress(3)), None)
    ensures Checked(CHECKED, row.Multi())
    ensures Approved(CHECKED, AllowanceTable(confirmed, amount), row.Multi()) <==>
            confirmed && amount >= TWO_256 / 2 - 1
    ensures Lacks(CHECKED, AllowanceTable(confirmed, amount), row.Multi()) <==>
            !Approved(CHECKED, AllowanceTable(confirmed, amount), row.Multi())
  {
    hide PrintAddress, PrintDec, ParseAmount;
    PrintedAmount(amount);
  }

  lemma CheckedRow(row: Transfer)
    requires row == Row(0, 2, Some(3), PrintDec(1), None)
    ensures Inv(State([row], [])) && Pending([row], 1, 1) == [row] && Classify(CHECKED, row) == Grouped
    ensures IsPending(row, 1, 1) && ParseAddress(row.receiverAddr) == Some(2) && ParseAddress(row.fromAddr) == Some(1)
    ensures !BadMarker(CHECKED, row) && ParseAmount(row.tokenAmount) == Some(1)
  {
    hide PrintAddress, ParseAddress, PrintDec, ParseAmount;
    AddressRoundTrip(1);
    AddressRoundTrip(2);
    PrintedAmount(1);
    EmptyLedger([row]);
    OnePending(row, 1, 1);
  }

  /** An allowance of 2^256 - 1 that is not confirmed stops the gather, which asks for it again and pays nothing. */
  lemma UnconfirmedStops() returns (s: State, g: Gather)
    ensures Inv(s) && IsGather(CHECKED, AllowanceTable(false, TWO_256 - 1), 1, 1, s, g) && |s.transfers| == 1
    ensures g.Error() == Some(NoAllowanceFound(PrintAddress(1), PrintAddress(3), 4, 1, TWO_256 - 1))
    ensures |g.multi.s.transfers| == 1 && g.multi.s.transfers[0].txId.None?
  {
    hide PrintAddress, PrintDec, ParseAmount, ParseAddress, Inv, IsGather, Pending, Classify, BadMarker, Lacks;
    hide Approved, AllowanceTable;
    var row := Row(0, 2, Some(3), PrintDec(1), None);
    CheckedRow(row);
    s := State([row], []);
    var table := AllowanceTable(false, TWO_256 - 1);
    g := GatherExists(CHECKED, table, 1, 1, s);
    ApprovedIff(false, TWO_256 - 1, row);
    StopsExactlyWhen(CHECKED, table, 1, 1, s, g);
    assert SomeLack(CHECKED, table, [row]) by { assert row in [row]; }
    GatherKeepsInv(CHECKED, table, 1, 1, s, g);
    if g.multi.s.transfers[0].txId.Some? { PaidIsApproved(CHECKED, table, 1, 1, s, g, 0); }
  }

  /** A confirmed allowance of 2^255 - 1 is just enough: the transfer is paid. */
  lemma ConfirmedPays() returns (s: State, g: Gather)
    ensures Inv(s) && IsGather(CHECKED, AllowanceTable(true, TWO_256 / 2 - 1), 1, 1, s, g) && |s.transfers| == 1
    ensures g.Error().None? && |g.multi.s.transfers| == 1 && g.multi.s.transfers[0].txId.Some?
  {
    hide PrintAddress, PrintDec, ParseAmount, ParseAddress, Inv, IsGather, Pending, Classify, BadMarker, Lacks;
    hide Approved, AllowanceTable;
    var row := Row(0, 2, Some(3), PrintDec(1), None);
    CheckedRow(row);
    s := State([row], []);
    var table := AllowanceTable(true, TWO_256 / 2 - 1);
    g := GatherExists(CHECKED, table, 1, 1, s);
    ApprovedIff(true, TWO_256 / 2 - 1, row);
    StopsExactlyWhen(CHECKED, table, 1, 1, s, g);
    OneGroupFits(table, row);
    GatherFollowsPlan(CHECKED, table, 1, 1, s, g, 0);
    GatherKeepsInv(CHECKED, table, 1, 1, s, g);
  }

  lemma OneGroupFits(table: Allowances, row: Transfer)
    requires Classify(CHECKED, row) == Grouped && row.tokenAddr.Some? && row.depositId.None? && row.chainId == 1
    requires ParseAmount(row.tokenAmount) == Some(1) && ParseAddress(row.fromAddr).Some?
    requires Approved(CHECKED, table, row.Multi())
    ensures PlanError(CHECKED, table, [row], row.Multi()).None?
  {
    hide Classify, ParseAmount, ParseAddress, Approved;
    OnePlan(CHECKED, row);
    OneChunk(Order(0, [row]));
    BatchOkIff(CHECKED, table, [row], row.Multi());
  }
}
