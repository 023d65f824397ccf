/** The deposit closing protocol: inserting transfers, asking for a close, and gathering, in any order. */
module Deposits {
  import opened Prelude
  import opened Text
  import opened Contracts
  import opened Ledger
  import opened Gathering
  import opened GatherFacts
  import opened GatherTheorems
  import opened Overlays

  predicate OfDeposit(row: Transfer, chainId: int, text: string) {
    row.chainId == chainId && row.depositId == Some(text)
  }

  /** check_if_deposit_closed */
  predicate DepositClosed(ts: seq<Transfer>, chainId: int, text: string) {
    exists row | row in ts :: OfDeposit(row, chainId, text) && row.depositFinish == 1
  }

  /** insert_token_transfer_with_deposit_check */
  function InsertTransfer(s: State, row: Transfer): Result<State, PaymentError> {
    if row.depositId.Some? && DepositClosed(s.transfers, row.chainId, row.depositId.value) then
      Err(Custom("Cannot add token_transfer to already finished deposit"))
    else Ok(s.(transfers := s.transfers + [row.(id := |s.transfers|)]))
  }

  /** SELECT ... WHERE chain_id = $1 AND deposit_id = $2 ORDER BY id DESC */
  function DepositRows(ts: seq<Transfer>, chainId: int, text: string): seq<Transfer> {
    if ts == [] then []
    else
      var last := ts[|ts| - 1];
      (if OfDeposit(last, chainId, text) then [last] else []) + DepositRows(ts[..|ts| - 1], chainId, text)
  }

  /** One turn of the candidate loop. */
  function Later(candidate: Option<Transfer>, tt: Transfer): Option<Transfer> {
    if tt.txId.Some? then candidate
    else match candidate
      case Some(c) => if c.id < tt.id then Some(tt) else candidate
      case None => Some(tt)
  }

  function Candidate(rows: seq<Transfer>): Option<Transfer> {
    if rows == [] then None else Later(Candidate(rows[..|rows| - 1]), rows[|rows| - 1])
  }

  /** What the blockchain says about the deposit, when it is asked. */
  datatype DepositCheck = Skipped | Details(amountIsZero: bool, spender: Address)

  /** The transfer that stands for "close this deposit" when nothing is left to send. */
  function CloseMarker(s: State, chainId: int, from: Address, id: nat, token: Address): Transfer {
    Transfer(|s.transfers|, PrintAddress(from), PrintAddress(0), chainId, Some(PrintAddress(token)), "0",
             Some(PrintU256(id)), 1, None, None)
  }

  function RequestClose(s: State, chainId: int, from: Address, id: nat, token: Address, check: DepositCheck):
    Result<State, PaymentError>
  {
    if check.Details? && check.amountIsZero then Err(Custom("Deposit not found"))
    else if check.Details? && check.spender != from then Err(Custom("You are not the spender of deposit"))
    else
      var rows := DepositRows(s.transfers, chainId, PrintU256(id));
      if exists tt | tt in rows :: tt.depositFinish > 0 then Err(Custom("Deposit already being closed or closed"))
      else match Candidate(rows)
        case Some(tt) => Ok(s.(transfers := Put(s.transfers, tt.(depositFinish := 1))))
        case None => Ok(s.(transfers := s.transfers + [CloseMarker(s, chainId, from, id, token)]))
  }

  // ---- the protocol invariant ----

  /** A close request: a flagged row. */
  predicate Requests(row: Transfer) {
    row.depositFinish > 0
  }

  /** The text is how the deposit id it denotes is printed. */
  predicate Canonical(text: string) {
    && ParseU256(text).Some? && ParseU256(text).value < TWO_256
    && text == PrintU256(ParseU256(text).value)
  }

  /** Per chain and deposit at most one transfer asks for the close, and it spells the id canonically. */
  ghost predicate DepositInv(ts: seq<Transfer>) {
    && (forall row | row in ts :: row.depositFinish == 0 || row.depositFinish == 1)
    && (forall row | row in ts && Requests(row) :: row.depositId.Some? && Canonical(row.depositId.value))
    && forall i, j | 0 <= i < |ts| && 0 <= j < |ts| && Requests(ts[i]) && Requests(ts[j]) &&
         ts[i].chainId == ts[j].chainId && ts[i].depositId == ts[j].depositId :: i == j
  }

  // ---- runs ----

  /** What users ask for. */
  datatype Request =
    | Insert(row: Transfer)
    | Close(chainId: int, from: Address, id: nat, token: Address, check: DepositCheck)

  datatype Event =
    | Ask(request: Request)
    | Round(setup: PaymentSetup, allowances: Allowances, account: Address, chain: int, between: seq<Request>, g: Gather)

  function OrSame(r: Result<State, PaymentError>, s: State): State {
    if r.Ok? then r.value else s
  }

  predicate Proper(r: Request) {
    match r
    case Insert(row) => row.depositFinish == 0 && row.txId.None? && row.error.None?
    case Close(_, _, id, _, _) => id < TWO_256
  }

  /** A request that is refused changes nothing. */
  function Answer(s: State, r: Request): State {
    match r
    case Insert(row) => OrSame(InsertTransfer(s, row), s)
    case Close(chainId, from, id, token, check) => OrSame(RequestClose(s, chainId, from, id, token, check), s)
  }

  function AnswerAll(s: State, requests: seq<Request>): State
    decreases |requests|
  {
    if requests == [] then s else AnswerAll(Answer(s, requests[0]), requests[1..])
  }

  predicate AllProper(requests: seq<Request>) {
    forall r | r in requests :: Proper(r)
  }

  /** The ledger the first stage of a gather leaves. */
  function FirstStage(setup: PaymentSetup, account: Address, chain: int, s: State): State {
    PreRun(setup, s, map[], Pending(s.transfers, account, chain)).s
  }

  /** One step of the whole system: a request, or a gather with any requests answered between its two stages. */
  ghost predicate Step(s: State, e: Event, s': State) {
    match e
    case Ask(r) => Proper(r) && s' == Answer(s, r)
    case Round(setup, allowances, account, chain, between, g) =>
      && ValidSetup(setup) && AllProper(between) && s' == g.multi.s
      && var mid := AnswerAll(FirstStage(setup, account, chain, s), between);
         IsSplitGather(setup, allowances, account, chain, s, mid, g)
  }

  const EMPTY_LEDGER := State([], [])

  ghost predicate Run(states: seq<State>, events: seq<Event>) {
    && |states| == |events| + 1 && states[0] == EMPTY_LEDGER
    && forall k | 0 <= k < |events| :: Step(states[k], events[k], states[k + 1])
  }

  // ---- single steps keep the invariants ----

  lemma AppendKeepsInv(s: State, row: Transfer)
    requires Inv(s) && row.id == |s.transfers| && row.txId.None?
    ensures Inv(s.(transfers := s.transfers + [row]))
  {
    var s' := s.(transfers := s.transfers + [row]);
    forall t | 0 <= t < |s.txs| ensures TxOk(s'.transfers, t, s.txs[t]) {
      assert TxOk(s.transfers, t, s.txs[t]);
      TxOkFrame(s.transfers, s'.transfers, t, s.txs[t]);
    }
  }

  /** Flagging an unlinked row changes no transaction. */
  lemma FlagKeepsInv(s: State, row: Transfer)
    requires Inv(s) && row in s.transfers && row.txId.None?
    ensures Inv(s.(transfers := Put(s.transfers, row.(depositFinish := 1))))
  {
    var s' := s.(transfers := Put(s.transfers, row.(depositFinish := 1)));
    var i :| 0 <= i < |s.transfers| && s.transfers[i] == row;
    forall t | 0 <= t < |s.txs| ensures TxOk(s'.transfers, t, s.txs[t]) {
      assert TxOk(s.transfers, t, s.txs[t]);
      TxOkFrame(s.transfers, s'.transfers, t, s.txs[t]);
    }
  }

  lemma {:induction false} DepositRowsOf(ts: seq<Transfer>, chainId: int, text: string, row: Transfer)
    ensures row in DepositRows(ts, chainId, text) <==> row in ts && OfDeposit(row, chainId, text)
  {
    if ts != [] {
      assert ts == ts[..|ts| - 1] + [ts[|ts| - 1]];
      DepositRowsOf(ts[..|ts| - 1], chainId, text, row);
    }
  }

  /** The candidate is an unsent row of the list with the highest id; there is none only if all are sent. */
  lemma {:induction false} CandidateIsLast(rows: seq<Transfer>)
    ensures Candidate(rows).None? <==> forall tt | tt in rows :: tt.txId.Some?
    ensures Candidate(rows).Some? ==>
              var c := Candidate(rows).value;
              c in rows && c.txId.None? && forall tt | tt in rows && tt.txId.None? :: tt.id <= c.id
  {
    if rows != [] {
      CandidateIsLast(rows[..|rows| - 1]);
      assert rows == rows[..|rows| - 1] + [rows[|rows| - 1]];
    }
  }

  /** Who is granted a close request: unless the check is skipped, the deposit must not be empty and must be the
      caller's to spend; and no row of the deposit may ask for the close already. */
  lemma GrantedIff(s: State, chainId: int, from: Address, id: nat, token: Address, check: DepositCheck)
    ensures RequestClose(s, chainId, from, id, token, check).Ok? <==>
            && (check.Skipped? || (!check.amountIsZero && check.spender == from))
            && forall row | row in s.transfers && row.chainId == chainId && row.depositId == Some(PrintU256(id)) ::
                 row.depositFinish <= 0
  {
    hide PrintU256, Candidate;
    forall row ensures row in DepositRows(s.transfers, chainId, PrintU256(id)) <==>
                       row in s.transfers && row.chainId == chainId && row.depositId == Some(PrintU256(id)) {
      DepositRowsOf(s.transfers, chainId, PrintU256(id), row);
    }
  }

  /** Why a request is refused: an empty deposit first, then the wrong spender, then a close that is already asked
      for. */
  lemma RefusedWhy(s: State, chainId: int, from: Address, id: nat, token: Address, check: DepositCheck)
    requires RequestClose(s, chainId, from, id, token, check).Err?
    ensures RequestClose(s, chainId, from, id, token, check).error == Custom(
              if check.Details? && check.amountIsZero then "Deposit not found"
              else if check.Details? && check.spender != from then "You are not the spender of deposit"
              else "Deposit already being closed or closed")
  {
  }

  /** A successful close flags exactly one more row: the unsent transfer of the deposit with the highest id,
      or a new marker when every transfer of the deposit is already sent. */
  lemma CloseEffect(s: State, chainId: int, from: Address, id: nat, token: Address, check: DepositCheck)
    requires WellFormed(s) && RequestClose(s, chainId, from, id, token, check).Ok?
    ensures var s', text := RequestClose(s, chainId, from, id, token, check).value, PrintU256(id);
            && s'.txs == s.txs
            && (forall row | row in s.transfers && OfDeposit(row, chainId, text) :: row.depositFinish <= 0)
            && if forall row | row in s.transfers && OfDeposit(row, chainId, text) :: row.txId.Some?
               then s'.transfers == s.transfers + [CloseMarker(s, chainId, from, id, token)]
               else exists c | c in s.transfers ::
                 && OfDeposit(c, chainId, text) && c.txId.None?
                 && (forall row | row in s.transfers && OfDeposit(row, chainId, text) && row.txId.None? ::
                      row.id <= c.id)
                 && s'.transfers == s.transfers[c.id := c.(depositFinish := 1)]
  {
    var rows := DepositRows(s.transfers, chainId, PrintU256(id));
    forall row ensures row in rows <==> row in s.transfers && OfDeposit(row, chainId, PrintU256(id)) {
      DepositRowsOf(s.transfers, chainId, PrintU256(id), row);
    }
    CandidateIsLast(rows);
    if Candidate(rows).Some? {
      var c := Candidate(rows).value;
      var i :| 0 <= i < |s.transfers| && s.transfers[i] == c;
    }
  }

  lemma InsertStep(s: State, row: Transfer)
    requires Inv(s) && DepositInv(s.transfers) && row.depositFinish == 0 && row.txId.None?
    ensures var s' := OrSame(InsertTransfer(s, row), s); Inv(s') && DepositInv(s'.transfers)
  {
    AppendKeepsInv(s, row.(id := |s.transfers|));
  }

  lemma FlagDeposit(ts: seq<Transfer>, c: Transfer, id: nat)
    requires DepositInv(ts) && c.id < |ts| && ts[c.id] == c && c.depositId == Some(PrintU256(id)) && id < TWO_256
    requires forall row | row in ts && OfDeposit(row, c.chainId, PrintU256(id)) :: row.depositFinish <= 0
    ensures DepositInv(ts[c.id := c.(depositFinish := 1)])
  {
    var ts' := ts[c.id := c.(depositFinish := 1)];
    U256RoundTrip(id);
    forall i | 0 <= i < |ts'| && i != c.id ensures ts'[i] in ts {}
    forall row | row in ts' ensures row == c.(depositFinish := 1) || row in ts {
      var i :| 0 <= i < |ts'| && ts'[i] == row;
    }
    assert c in ts;
  }

  lemma AppendRequest(ts: seq<Transfer>, marker: Transfer, id: nat)
    requires DepositInv(ts) && marker.depositId == Some(PrintU256(id)) && id < TWO_256 && marker.depositFinish == 1
    requires forall row | row in ts && OfDeposit(row, marker.chainId, PrintU256(id)) :: row.depositFinish <= 0
    ensures DepositInv(ts + [marker])
  {
    U256RoundTrip(id);
    forall i | 0 <= i < |ts| ensures (ts + [marker])[i] in ts {}
  }

  lemma CloseStep(s: State, chainId: int, from: Address, id: nat, token: Address, check: DepositCheck)
    requires Inv(s) && DepositInv(s.transfers) && id < TWO_256
    ensures var s' := OrSame(RequestClose(s, chainId, from, id, token, check), s); Inv(s') && DepositInv(s'.transfers)
  {
    hide Inv, DepositInv, DepositRows, Candidate, PrintU256, PrintAddress;
    if RequestClose(s, chainId, from, id, token, check).Ok? {
      WellFormedLedger(s);
      CloseEffect(s, chainId, from, id, token, check);
      var rows := DepositRows(s.transfers, chainId, PrintU256(id));
      match Candidate(rows)
      case Some(c) =>
        CandidateIsLast(rows);
        DepositRowsOf(s.transfers, chainId, PrintU256(id), c);
        FlagKeepsInv(s, c);
        FlagDeposit(s.transfers, c, id);
      case None =>
        AppendKeepsInv(s, CloseMarker(s, chainId, from, id, token));
        AppendRequest(s.transfers, CloseMarker(s, chainId, from, id, token), id);
    }
  }

  /** Gathering changes no close request. */
  lemma EvolvesKeepsRequests(s: State, s': State)
    requires DepositInv(s.transfers) && Evolves(s, s')
    ensures DepositInv(s'.transfers)
  {
    forall i | 0 <= i < |s.transfers|
      ensures s'.transfers[i].depositFinish == s.transfers[i].depositFinish
      ensures s'.transfers[i].depositId == s.transfers[i].depositId && s'.transfers[i].chainId == s.transfers[i].chainId
    {
      assert SameTransfer(s.transfers[i], s'.transfers[i]);
    }
    forall row | row in s'.transfers
      ensures exists x :: x in s.transfers && x.depositFinish == row.depositFinish && x.depositId == row.depositId
    {
      var i :| 0 <= i < |s'.transfers| && s'.transfers[i] == row;
      assert s.transfers[i] in s.transfers;
    }
  }

  // ---- requests between the stages ----

  /** What requests do to the table: rows are flagged or added, and transactions are not touched. */
  ghost predicate Edited(s: State, s': State) {
    && s'.txs == s.txs && |s.transfers| <= |s'.transfers|
    && (forall i | 0 <= i < |s.transfers| :: s'.transfers[i] == s.transfers[i] ||
          (s.transfers[i].txId.None? && !Requests(s.transfers[i]) &&
           s'.transfers[i] == s.transfers[i].(depositFinish := 1)))
    && forall i | |s.transfers| <= i < |s'.transfers| :: s'.transfers[i].txId.None?
  }

  lemma AnswerEdits(s: State, r: Request)
    requires Inv(s) && DepositInv(s.transfers) && Proper(r)
    ensures Inv(Answer(s, r)) && DepositInv(Answer(s, r).transfers) && Edited(s, Answer(s, r))
  {
    hide Inv, DepositInv, RequestClose, PrintU256;
    match r
    case Insert(row) => InsertStep(s, row);
    case Close(chainId, from, id, token, check) =>
      CloseStep(s, chainId, from, id, token, check);
      WellFormedLedger(s);
      if RequestClose(s, chainId, from, id, token, check).Ok? {
        CloseEdits(s, chainId, from, id, token, check);
      }
  }

  lemma CloseEdits(s: State, chainId: int, from: Address, id: nat, token: Address, check: DepositCheck)
    requires WellFormed(s) && RequestClose(s, chainId, from, id, token, check).Ok?
    ensures Edited(s, RequestClose(s, chainId, from, id, token, check).value)
  {
    hide RequestClose, PrintU256;
    CloseEffect(s, chainId, from, id, token, check);
  }

  lemma EditedTransitive(a: State, b: State, c: State)
    requires Edited(a, b) && Edited(b, c)
    ensures Edited(a, c)
  {
  }

  lemma {:induction false} AnswersEdit(s: State, requests: seq<Request>)
    requires Inv(s) && DepositInv(s.transfers) && AllProper(requests)
    ensures var s' := AnswerAll(s, requests); Inv(s') && DepositInv(s'.transfers) && Edited(s, s')
    decreases |requests|
  {
    if requests != [] {
      hide Inv, DepositInv, Answer, Proper, Edited;
      AnswerEdits(s, requests[0]);
      AnswersEdit(Answer(s, requests[0]), requests[1..]);
      EditedTransitive(s, Answer(s, requests[0]), AnswerAll(s, requests));
    }
  }

  /** The ledgers around a gather with requests in between: before it, after the first stage, after the requests, after
      the undisturbed gather, and at the end. */
  ghost predicate Around(s: State, pre: State, mid: State, a: State, b: State, written: set<nat>) {
    && Inv(s) && Inv(pre) && Inv(mid) && Inv(a)
    && DepositInv(s.transfers) && DepositInv(mid.transfers)
    && s.txs <= pre.txs && Evolves(s, pre) && Edited(pre, mid)
    && pre.txs <= a.txs && Evolves(pre, a)
    && Alike(Tables(pre.transfers, mid.transfers), a, b, written)
  }

  lemma RoundAround(setup: PaymentSetup, allowances: Allowances, account: Address, chain: int, s: State,
                    between: seq<Request>, h: Gather) returns (g: Gather, written: set<nat>)
    requires Inv(s) && DepositInv(s.transfers)
    requires Step(s, Round(setup, allowances, account, chain, between, h), h.multi.s)
    ensures IsGather(setup, allowances, account, chain, s, g) && SameOutcome(g, h)
    ensures g.pre.s == FirstStage(setup, account, chain, s) && h.pre.s == AnswerAll(g.pre.s, between)
    ensures Around(s, g.pre.s, h.pre.s, g.multi.s, h.multi.s, written)
    ensures forall id | id in written :: WritesBack(setup, g, id)
  {
    hide Inv, DepositInv, PreRun, Pending, IsSecondStage, Evolves, Edited, AnswerAll;
    var pre := PreRun(setup, s, map[], Pending(s.transfers, account, chain));
    PreStage(setup, s, account, chain, pre);
    EvolvesKeepsRequests(s, pre.s);
    AnswersEdit(pre.s, between);
    assert |pre.s.transfers| <= |h.pre.s.transfers| && h.pre.s.txs == pre.s.txs by {
      EditedSize(pre.s, h.pre.s);
    }
    g, written := Undisturbed(setup, allowances, account, chain, s, h.pre.s, h);
    PostGrows(setup, allowances, account, chain, s, g);
  }

  lemma EditedSize(s: State, s': State)
    requires Edited(s, s')
    ensures |s.transfers| <= |s'.transfers| && s'.txs == s.txs
  {
  }

  /** A row written keeps its row of the undisturbed gather, any other its row of the table in between; either way its
      links are those of the undisturbed gather. */
  lemma AroundLinks(s: State, pre: State, mid: State, a: State, b: State, written: set<nat>, t: nat)
    requires Around(s, pre, mid, a, b, written)
    ensures SameLinks(a.transfers, b.transfers, t)
  {
    hide Inv, DepositInv, Evolves;
  }

  lemma AroundInv(s: State, pre: State, mid: State, a: State, b: State, written: set<nat>)
    requires Around(s, pre, mid, a, b, written)
    ensures Inv(b)
  {
    assert WellFormed(b) by { AroundWellFormed(s, pre, mid, a, b, written); }
    hide Around, WellFormed;
    assert Inv(a) && a.txs == b.txs by { AroundEnd(s, pre, mid, a, b, written); }
    forall t | 0 <= t < |b.txs| ensures TxOk(b.transfers, t, b.txs[t]) {
      assert TxOk(a.transfers, t, a.txs[t]);
      AroundLinks(s, pre, mid, a, b, written, t);
      TxOkFrame(a.transfers, b.transfers, t, a.txs[t]);
    }
  }

  lemma AroundEnd(s: State, pre: State, mid: State, a: State, b: State, written: set<nat>)
    requires Around(s, pre, mid, a, b, written)
    ensures Inv(a) && a.txs == b.txs
  {
  }

  lemma AroundWellFormed(s: State, pre: State, mid: State, a: State, b: State, written: set<nat>)
    requires Around(s, pre, mid, a, b, written)
    ensures WellFormed(b)
  {
    hide Inv, DepositInv, Evolves;
    WellFormedLedger(a);
    WellFormedLedger(mid);
  }

  /** Writing back a copy may lose a flag, but never brings one back. */
  lemma AroundRequests(s: State, pre: State, mid: State, a: State, b: State, written: set<nat>, i: nat)
    requires Around(s, pre, mid, a, b, written) && i < |b.transfers|
    ensures i < |mid.transfers| && b.transfers[i].chainId == mid.transfers[i].chainId
    ensures b.transfers[i].depositId == mid.transfers[i].depositId
    ensures b.transfers[i].depositFinish == mid.transfers[i].depositFinish || !Requests(b.transfers[i])
    ensures i < |s.transfers| && b.transfers[i].depositFinish != mid.transfers[i].depositFinish ==>
              b.transfers[i].depositFinish == s.transfers[i].depositFinish
    ensures i < |s.transfers| && Requests(s.transfers[i]) ==>
              b.transfers[i].(txId := None, error := None) == s.transfers[i].(txId := None, error := None)
  {
    hide Inv, DepositInv;
    if i < |s.transfers| {
      assert SameTransfer(s.transfers[i], pre.transfers[i]) && SameTransfer(pre.transfers[i], a.transfers[i]);
    }
  }

  lemma AroundDeposits(s: State, pre: State, mid: State, a: State, b: State, written: set<nat>)
    requires Around(s, pre, mid, a, b, written)
    ensures DepositInv(b.transfers)
  {
    var ts, us := mid.transfers, b.transfers;
    assert |us| == |ts| && |s.transfers| <= |us|;
    assert DepositInv(ts) && DepositInv(s.transfers);
    forall i: nat | i < |us|
      ensures us[i].chainId == ts[i].chainId && us[i].depositId == ts[i].depositId
      ensures us[i].depositFinish == ts[i].depositFinish || us[i].depositFinish == 0
    {
      AroundRequests(s, pre, mid, a, b, written, i);
      assert ts[i] in ts;
      if i < |s.transfers| { assert s.transfers[i] in s.transfers; }
    }
    hide Around;
    FewerRequests(ts, us);
  }

  lemma FewerRequests(ts: seq<Transfer>, us: seq<Transfer>)
    requires DepositInv(ts) && |us| == |ts|
    requires forall i: nat | i < |us| ::
               && us[i].chainId == ts[i].chainId && us[i].depositId == ts[i].depositId
               && (us[i].depositFinish == ts[i].depositFinish || us[i].depositFinish == 0)
    ensures DepositInv(us)
  {
    forall row | row in us
      ensures exists x :: x in ts && x.depositId == row.depositId && row.depositFinish in {x.depositFinish, 0}
    {
      var i :| 0 <= i < |us| && us[i] == row;
      assert ts[i] in ts;
    }
  }

  lemma StepKeepsInvs(s: State, e: Event, s': State)
    requires Inv(s) && DepositInv(s.transfers) && Step(s, e, s')
    ensures Inv(s') && DepositInv(s'.transfers)
  {
    hide Inv, DepositInv, Answer, Around;
    match e
    case Ask(r) => AnswerEdits(s, r);
    case Round(setup, allowances, account, chain, between, h) =>
      var g, written := RoundAround(setup, allowances, account, chain, s, between, h);
      AroundInv(s, g.pre.s, h.pre.s, g.multi.s, s', written);
      AroundDeposits(s, g.pre.s, h.pre.s, g.multi.s, s', written);
  }

  /** Safety over whole runs: in every state reachable by inserts, close requests and gathers, with requests between the
      stages or without, every transaction pays exactly its rows, and each (chain, deposit) has at most one close
      request. */
  lemma {:induction false} RunKeepsInvs(states: seq<State>, events: seq<Event>, k: nat)
    requires Run(states, events) && k < |states|
    ensures Inv(states[k]) && DepositInv(states[k].transfers)
  {
    hide Inv, DepositInv, Step;
    EmptyInvs();
    if k > 0 {
      RunKeepsInvs(states, events, k - 1);
      StepKeepsInvs(states[k - 1], events[k - 1], states[k]);
    }
  }

  lemma EmptyInvs()
    ensures Inv(EMPTY_LEDGER) && DepositInv(EMPTY_LEDGER.transfers)
  {
  }

  // ---- closing transactions ----

  /** The row behind a closing transaction. */
  lemma ClosingRow(s: State, t: nat) returns (i: nat)
    requires Inv(s) && DepositInv(s.transfers) && t < |s.txs| && s.txs[t].call.Closes()
    ensures Linked(s.transfers, i, t) && Requests(s.transfers[i]) && s.transfers[i].chainId == s.txs[t].chainId
    ensures s.transfers[i].depositId == Some(PrintU256(s.txs[t].call.id))
  {
    assert TxOk(s.transfers, t, s.txs[t]);
    i :| Linked(s.transfers, i, t) && s.transfers[i].depositFinish > 0;
    assert Agrees(s.transfers[i], s.txs[t]) && s.transfers[i] in s.transfers;
  }

  lemma OneClosingTx(s: State, t: nat, u: nat)
    requires Inv(s) && DepositInv(s.transfers) && t < |s.txs| && u < |s.txs|
    requires s.txs[t].call.Closes() && s.txs[u].call.Closes()
    requires s.txs[t].chainId == s.txs[u].chainId && s.txs[t].call.id == s.txs[u].call.id
    ensures t == u
  {
    var i := ClosingRow(s, t);
    var j := ClosingRow(s, u);
  }

  /** In every reachable state a deposit has at most one closing transaction, by the id it denotes, and a
      transaction on a deposit closes it exactly when one of its transfers asks for the close. */
  lemma AtMostOneClosing(states: seq<State>, events: seq<Event>, k: nat)
    requires Run(states, events) && k < |states|
    ensures forall t, u | 0 <= t < |states[k].txs| && 0 <= u < |states[k].txs| &&
              states[k].txs[t].call.Closes() && states[k].txs[u].call.Closes() &&
              states[k].txs[t].chainId == states[k].txs[u].chainId &&
              states[k].txs[t].call.id == states[k].txs[u].call.id :: t == u
    ensures forall t | 0 <= t < |states[k].txs| && states[k].txs[t].call.IsLock() ::
              states[k].txs[t].call.Closes() <==> LinksFinish(states[k].transfers, t)
  {
    var s := states[k];
    RunKeepsInvs(states, events, k);
    forall t, u | 0 <= t < |s.txs| && 0 <= u < |s.txs| && s.txs[t].call.Closes() && s.txs[u].call.Closes() &&
        s.txs[t].chainId == s.txs[u].chainId && s.txs[t].call.id == s.txs[u].call.id
      ensures t == u
    {
      OneClosingTx(s, t, u);
    }
    forall t | 0 <= t < |s.txs| && s.txs[t].call.IsLock()
      ensures s.txs[t].call.Closes() <==> LinksFinish(s.transfers, t) {
      assert TxOk(s.transfers, t, s.txs[t]);
    }
  }

  // ---- a close request is never lost, and blocks the deposit ----

  ghost predicate Requested(ts: seq<Transfer>, chainId: int, id: nat) {
    exists row | row in ts :: OfDeposit(row, chainId, PrintU256(id)) && Requests(row)
  }

  /** A flagged row stays, up to its link and error text. */
  lemma StepKeepsFlagged(s: State, e: Event, s': State, i: nat)
    requires Inv(s) && DepositInv(s.transfers) && Step(s, e, s') && i < |s.transfers| && Requests(s.transfers[i])
    ensures i < |s'.transfers| && SameTransfer(s.transfers[i], s'.transfers[i])
  {
    hide Inv, DepositInv, Answer, Around;
    match e
    case Ask(r) =>
      AnswerEdits(s, r);
      assert Requests(s.transfers[i]);
    case Round(setup, allowances, account, chain, between, h) =>
      var g, written := RoundAround(setup, allowances, account, chain, s, between, h);
      AroundSize(s, g.pre.s, h.pre.s, g.multi.s, s', written);
      AroundRequests(s, g.pre.s, h.pre.s, g.multi.s, s', written, i);
  }

  lemma AroundSize(s: State, pre: State, mid: State, a: State, b: State, written: set<nat>)
    requires Around(s, pre, mid, a, b, written)
    ensures |s.transfers| == |pre.transfers| == |a.transfers| <= |b.transfers| == |mid.transfers|
    ensures s.txs <= pre.txs <= a.txs == b.txs
  {
  }

  lemma StepKeepsRequest(s: State, e: Event, s': State, chainId: int, id: nat)
    requires Inv(s) && DepositInv(s.transfers) && Step(s, e, s') && Requested(s.transfers, chainId, id)
    ensures Requested(s'.transfers, chainId, id)
  {
    hide Inv, DepositInv, Step, PrintU256;
    var row :| row in s.transfers && OfDeposit(row, chainId, PrintU256(id)) && Requests(row);
    var i :| 0 <= i < |s.transfers| && s.transfers[i] == row;
    StepKeepsFlagged(s, e, s', i);
    assert s'.transfers[i] in s'.transfers;
  }

  /** A requested deposit refuses any further close request. */
  lemma RequestedBlocks(s: State, chainId: int, id: nat)
    requires Requested(s.transfers, chainId, id)
    ensures forall from, token, check :: RequestClose(s, chainId, from, id, token, check).Err?
  {
    hide PrintU256, Candidate;
    var row :| row in s.transfers && OfDeposit(row, chainId, PrintU256(id)) && Requests(row);
    DepositRowsOf(s.transfers, chainId, PrintU256(id), row);
  }

  /** A request standing between two steps stays for the rest of the run, and no other is accepted. Only one granted
      within a gather can be lost, and only in that gather. */
  lemma {:induction false} RequestStays(states: seq<State>, events: seq<Event>, j: nat, k: nat, chainId: int, id: nat)
    requires Run(states, events) && j <= k < |states| && Requested(states[j].transfers, chainId, id)
    ensures Requested(states[k].transfers, chainId, id)
    ensures forall from, token, check :: RequestClose(states[k], chainId, from, id, token, check).Err?
  {
    hide Inv, DepositInv, Step, Requested, RequestClose;
    if j < k {
      RequestStays(states, events, j, k - 1, chainId, id);
      RunKeepsInvs(states, events, k - 1);
      StepKeepsRequest(states[k - 1], events[k - 1], states[k], chainId, id);
    }
    RequestedBlocks(states[k], chainId, id);
  }

  lemma AcceptedIsRequested(s: State, chainId: int, from: Address, id: nat, token: Address, check: DepositCheck)
    requires WellFormed(s) && RequestClose(s, chainId, from, id, token, check).Ok?
    ensures Requested(RequestClose(s, chainId, from, id, token, check).value.transfers, chainId, id)
  {
    hide DepositRows, Candidate, PrintU256, PrintAddress;
    CloseEffect(s, chainId, from, id, token, check);
    var ts' := RequestClose(s, chainId, from, id, token, check).value.transfers;
    match Candidate(DepositRows(s.transfers, chainId, PrintU256(id)))
    case Some(c) =>
      CandidateIsLast(DepositRows(s.transfers, chainId, PrintU256(id)));
      DepositRowsOf(s.transfers, chainId, PrintU256(id), c);
      assert ts'[c.id] in ts';
    case None =>
      assert ts'[|s.transfers|] in ts';
  }

  /** While a deposit is being closed, a transfer naming its id is refused exactly when it spells the id
      canonically: the check compares texts, not numbers. */
  lemma RefusedIffCanonical(s: State, chainId: int, id: nat, row: Transfer)
    requires DepositInv(s.transfers) && Requested(s.transfers, chainId, id) && id < TWO_256
    requires row.chainId == chainId && row.depositId.Some? && ParseU256(row.depositId.value) == Some(id)
    ensures InsertTransfer(s, row).Err? <==> row.depositId.value == PrintU256(id)
  {
    var flagged :| flagged in s.transfers && OfDeposit(flagged, chainId, PrintU256(id)) && Requests(flagged);
  }

  /** Whether a transfer is added: it is refused exactly when it spells a deposit of its chain that is being closed the
      way that id is printed; otherwise it becomes the last row. */
  lemma InsertedIff(s: State, row: Transfer)
    requires DepositInv(s.transfers)
    ensures InsertTransfer(s, row).Err? <==>
            row.depositId.Some? && Canonical(row.depositId.value) &&
            Requested(s.transfers, row.chainId, ParseU256(row.depositId.value).value)
    ensures InsertTransfer(s, row).Ok? ==>
              InsertTransfer(s, row).value == State(s.transfers + [row.(id := |s.transfers|)], s.txs)
  {
    hide ParseU256, PrintU256;
    if row.depositId.Some? && DepositClosed(s.transfers, row.chainId, row.depositId.value) {
      var flagged :| flagged in s.transfers && OfDeposit(flagged, row.chainId, row.depositId.value) &&
                     flagged.depositFinish == 1;
      assert Requests(flagged);
    }
  }

  /** Concretely, a closing deposit 10 still accepts a transfer that spells it "0x0a". */
  lemma OtherSpellingIsAccepted(s: State, row: Transfer)
    requires DepositInv(s.transfers) && Requested(s.transfers, row.chainId, 10) && row.depositId == Some("0x0a")
    ensures ParseU256("0x0a") == Some(10) && PrintU256(10) == "0xa"
    ensures InsertTransfer(s, row).Ok?
  {
    assert "0x0a"[2..] == "0a" && "0a"[..1] == "0" && "0"[..0] == "";
    RefusedIffCanonical(s, row.chainId, 10, row);
  }

  /** The marker of a deposit with nothing left to send becomes a transaction that only closes it. */
  lemma MarkerCloses(setup: PaymentSetup, s: State, chainId: int, from: Address, id: nat, token: Address)
    requires from != 0 && id < TWO_256
    requires chainId in setup.chains && setup.chains[chainId].lockContract.Some?
    ensures Classify(setup, CloseMarker(s, chainId, from, id, token)) ==
            Closing(Tx(from, setup.chains[chainId].lockContract.value, chainId, 0, CloseDeposit(id)))
    ensures var marker := CloseMarker(s, chainId, from, id, token);
            && marker.tokenAddr.Some? && ParseAddress(marker.tokenAddr.value) == Some(token)
            && marker.depositFinish == 1 && marker.txId.None? && marker.error.None?
  {
    hide PrintAddress, PrintU256, ParseAddress, ParseU256, ParseAmount;
    AddressRoundTrip(from);
    AddressRoundTrip(token);
    AddressRoundTrip(0);
    U256RoundTrip(id);
    ZeroAmount();
  }

  lemma ZeroAmount()
    ensures ParseAmount("0") == Some(0)
  {
    assert "0"[..0] == "";
  }
}
