/** gather_transactions_pre and gather_transactions_post: from pending rows to committed transactions. */
module Gathering {
  import opened Prelude
  import opened Text
  import opened Contracts
  import opened Ledger
  import opened Orders
  import opened Chunks

  type Groups = map<Key, seq<Transfer>>
  type MultiMap = map<MultiKey, seq<Order>>

  const GATHER_ERROR := "Error in gathering transactions"

  /** What is done with one pending row. */
  datatype RowClass = Rejected(error: string) | Stop(e: PaymentError) | Closing(tx: Tx) | Grouped

  predicate IsCloseMarker(f: Transfer) {
    f.depositId.Some? && f.depositFinish > 0 && ParseAddress(f.receiverAddr) == Some(0) &&
    ParseAmount(f.tokenAmount) == Some(0)
  }

  function Classify(setup: PaymentSetup, f: Transfer): RowClass {
    match ParseAddress(f.fromAddr)
    case None => Rejected("Invalid from address")
    case Some(from) =>
      if from == 0 then Rejected("from_addr is zero")
      else if IsCloseMarker(f) then
        match ParseU256(f.depositId.value) {
          case None => Stop(Custom("Invalid deposit id"))
          case Some(id) =>
            if f.chainId !in setup.chains then Stop(Custom("No setup found for chain id"))
            else if setup.chains[f.chainId].lockContract.None? then Stop(Custom("Lock contract address not set"))
            else Closing(CreateCloseDeposit(from, setup.chains[f.chainId].lockContract.value, f.chainId, id))
        }
      else match ParseAddress(f.receiverAddr) {
        case None => Rejected("Invalid receiver address")
        case Some(receiver) => if receiver == 0 then Rejected("receiver_addr is zero") else Grouped
      }
  }

  function Push(groups: Groups, row: Transfer): Groups {
    var key := row.KeyOf();
    groups[key := if key in groups then groups[key] + [row] else [row]]
  }

  datatype PreOutcome = PreOutcome(s: State, groups: Groups, error: Option<PaymentError>)

  /** The loop over pending rows. */
  function PreRun(setup: PaymentSetup, s: State, groups: Groups, rows: seq<Transfer>): PreOutcome
    decreases |rows|
  {
    if rows == [] then PreOutcome(s, groups, None)
    else match Classify(setup, rows[0])
      case Rejected(e) =>
        PreRun(setup, s.(transfers := Put(s.transfers, rows[0].(error := Some(e)))), groups, rows[1..])
      case Stop(e) => PreOutcome(s, groups, Some(e))
      case Closing(tx) => PreRun(setup, Commit(s, tx, [rows[0]]), groups, rows[1..])
      case Grouped => PreRun(setup, s, Push(groups, rows[0]), rows[1..])
  }

  predicate IsPending(row: Transfer, account: Address, chainId: int) {
    row.txId.None? && row.error.None? && row.fromAddr == PrintAddress(account) && row.chainId == chainId
  }

  /** SELECT ... WHERE tx_id IS NULL AND error IS NULL AND from_addr = $1 AND chain_id = $2 ORDER BY id ASC */
  function Pending(ts: seq<Transfer>, account: Address, chainId: int): seq<Transfer> {
    if ts == [] then []
    else
      var last := ts[|ts| - 1];
      Pending(ts[..|ts| - 1], account, chainId) + if IsPending(last, account, chainId) then [last] else []
  }

  /** gather_transactions_batch for a group in the chain's own currency. */
  function NativeTx(setup: PaymentSetup, key: Key, rows: seq<Transfer>): Result<Tx, PaymentError> {
    if !AllParse(rows) then Err(Custom("Invalid token amount"))
    else if key.chainId !in setup.chains then Err(Custom("No setup found for chain id"))
    else match (ParseAddress(key.from), ParseAddress(key.receiver))
      case (Some(from), Some(receiver)) => Ok(CreateEthTransfer(from, receiver, key.chainId, RowsSum(rows)))
      case _ => Err(Custom("Invalid address"))
  }

  function PushOrder(multi: MultiMap, key: MultiKey, order: Order): MultiMap {
    multi[key := if key in multi then multi[key] + [order] else [order]]
  }

  datatype PassOutcome = PassOutcome(s: State, multi: MultiMap, failed: set<Key>, error: Option<PaymentError>)

  /** The loop over groups in the order of their smallest id: native groups are committed at once,
      token groups are collected per four-part key. */
  function SortedPass(setup: PaymentSetup, s: State, groups: Groups, keys: seq<Key>, multi: MultiMap,
                      failed: set<Key>): PassOutcome
    requires forall k | k in keys :: k in groups
    decreases |keys|
  {
    if keys == [] then PassOutcome(s, multi, failed, None)
    else
      var key := keys[0];
      if key.token.None? then
        match NativeTx(setup, key, groups[key])
        case Ok(tx) => SortedPass(setup, Commit(s, tx, groups[key]), groups, keys[1..], multi, failed)
        case Err(_) => SortedPass(setup, s, groups, keys[1..], multi, failed + {key})
      else
        match ParseAddress(key.receiver)
        case None => PassOutcome(s, multi, failed, Some(Custom("Invalid receiver address")))
        case Some(receiver) =>
          SortedPass(setup, s, groups, keys[1..], PushOrder(multi, key.Multi(), Order(receiver, groups[key])), failed)
  }

  // ---- allowances ----

  datatype AllowanceKey = AllowanceKey(owner: string, token: string, spender: Address, chainId: int)
  datatype Allowance = Allowance(confirmed: bool, amount: string)
  type Allowances = map<AllowanceKey, Allowance>

  /** None when the payment may go ahead. */
  function CheckAllowance(setup: PaymentSetup, chain: ChainSetup, allowances: Allowances, key: MultiKey):
    Option<PaymentError>
    requires key.token.Some?
  {
    if setup.skipMultiContractCheck || key.deposit.Some? || chain.multiContract.None? then None
    else
      var ak := AllowanceKey(key.from, key.token.value, chain.multiContract.value, key.chainId);
      var missing := NoAllowanceFound(key.from, key.token.value, chain.multiContract.value, key.chainId, TWO_256 - 1);
      if ak !in allowances || !allowances[ak].confirmed then Some(missing)
      else match ParseAmount(allowances[ak].amount)
        case None => Some(Custom("Invalid allowance"))
        case Some(amount) => if amount < (TWO_256 - 1) / 2 then Some(missing) else None
  }

  // ---- what is asked of the allowance table ----

  /** The check applies: it is switched on, and a token payment outside any deposit may go through a multi contract. */
  predicate Checked(setup: PaymentSetup, key: MultiKey) {
    && !setup.skipMultiContractCheck && key.token.Some? && key.deposit.None?
    && key.chainId in setup.chains && setup.chains[key.chainId].multiContract.Some?
  }

  /** The payer's allowance for that multi contract. */
  function RowFor(setup: PaymentSetup, key: MultiKey): AllowanceKey
    requires Checked(setup, key)
  {
    AllowanceKey(key.from, key.token.value, setup.chains[key.chainId].multiContract.value, key.chainId)
  }

  /** There is a row, it is confirmed, and it allows at least 2^255 - 1. */
  predicate Approved(setup: PaymentSetup, allowances: Allowances, key: MultiKey)
    requires Checked(setup, key)
  {
    var row := RowFor(setup, key);
    && row in allowances && allowances[row].confirmed
    && ParseAmount(allowances[row].amount).Some? && ParseAmount(allowances[row].amount).value >= TWO_256 / 2 - 1
  }

  /** There is no row, or it is not confirmed, or it allows less than 2^255 - 1. */
  predicate Lacks(setup: PaymentSetup, allowances: Allowances, key: MultiKey) {
    Checked(setup, key) &&
    var row := RowFor(setup, key);
    || row !in allowances || !allowances[row].confirmed
    || (ParseAmount(allowances[row].amount).Some? && ParseAmount(allowances[row].amount).value < TWO_256 / 2 - 1)
  }

  /** The request a refusal carries: the payer, the token, the multi contract and the chain, for 2^256 - 1. */
  predicate RequestFor(setup: PaymentSetup, key: MultiKey, e: PaymentError) {
    && Checked(setup, key) && e.NoAllowanceFound? && e.owner == key.from && e.tokenAddr == key.token.value
    && setup.chains[key.chainId].multiContract == Some(e.spender) && e.chainId == key.chainId
    && e.amount == TWO_256 - 1
  }

  /** The three answers of the check. */
  lemma Gate(setup: PaymentSetup, allowances: Allowances, key: MultiKey)
    requires key.token.Some? && key.chainId in setup.chains
    ensures var answer := CheckAllowance(setup, setup.chains[key.chainId], allowances, key);
            && (answer.None? <==> (Checked(setup, key) ==> Approved(setup, allowances, key)))
            && (answer.Some? && answer.value.NoAllowanceFound? <==> Lacks(setup, allowances, key))
            && (Lacks(setup, allowances, key) ==> RequestFor(setup, key, answer.value))
            && (answer.Some? && answer.value.Custom? ==> answer.value == Custom("Invalid allowance"))
  {
    hide ParseAmount;
  }

  // ---- batches ----

  predicate ValidSetup(setup: PaymentSetup) {
    forall c | c in setup.chains :: setup.chains[c].maxAtOnce > 0
  }

  /** gather_transactions_batch_multi */
  function BatchMulti(setup: PaymentSetup, allowances: Allowances, key: MultiKey, s: State, orders: seq<Order>):
    BatchOutcome
    requires ValidSetup(setup)
  {
    if key.chainId !in setup.chains then BatchOutcome(s, orders, Some(Custom("No setup found for chain id")))
    else if key.token.None? then BatchOutcome(s, orders, Some(Custom("Not implemented for multi")))
    else
      var chain := setup.chains[key.chainId];
      var missing := CheckAllowance(setup, chain, allowances, key);
      if missing.Some? then BatchOutcome(s, orders, missing) else BatchRun(setup, chain, key, s, orders)
  }

  datatype MultiOutcome = MultiOutcome(s: State, failed: set<MultiKey>, error: Option<PaymentError>)

  /** The loop over four-part keys, in whatever order the hash map yields them. */
  function MultiRun(setup: PaymentSetup, allowances: Allowances, s: State, multi: MultiMap, order: seq<MultiKey>,
                    failed: set<MultiKey>): MultiOutcome
    requires ValidSetup(setup) && forall k | k in order :: k in multi
    decreases |order|
  {
    if order == [] then MultiOutcome(s, failed, None)
    else
      var out := BatchMulti(setup, allowances, order[0], s, multi[order[0]]);
      match out.error
      case None => MultiRun(setup, allowances, out.s, multi, order[1..], failed)
      case Some(NoAllowanceFound(_, _, _, _, _)) => MultiOutcome(out.s, failed, out.error)
      case Some(Custom(_)) =>
        var marked := out.s.(transfers := MarkRows(out.s.transfers, AllRows(out.orders), GATHER_ERROR));
        MultiRun(setup, allowances, marked, multi, order[1..], failed + {order[0]})
  }

  // ---- schedules ----

  predicate NoRepeats<T(==)>(s: seq<T>) {
    forall i, j | 0 <= i < j < |s| :: s[i] != s[j]
  }

  predicate Enumerates<T(==)>(s: seq<T>, keys: set<T>) {
    NoRepeats(s) && (forall k | k in s :: k in keys) && (forall k | k in keys :: k in s)
  }

  function MinId(rows: seq<Transfer>): nat
    requires rows != []
  {
    if |rows| == 1 then rows[0].id
    else
      var m := MinId(rows[1..]);
      if rows[0].id < m then rows[0].id else m
  }

  /** The groups, each once, by smallest row id. */
  predicate SortedKeys(groups: Groups, keys: seq<Key>) {
    && Enumerates(keys, groups.Keys)
    && (forall k | k in groups :: groups[k] != [])
    && forall i, j | 0 <= i < j < |keys| :: MinId(groups[keys[i]]) < MinId(groups[keys[j]])
  }

  /** Everything one gather decides: the two schedules, and what each stage produced under them. */
  datatype Gather = Gather(pre: PreOutcome, keys: seq<Key>, pass: PassOutcome, order: seq<MultiKey>,
                           multi: MultiOutcome) {
    function Error(): Option<PaymentError> {
      if pre.error.Some? then pre.error else if pass.error.Some? then pass.error else multi.error
    }

    /** Neither an error returned nor a batch that failed along the way. */
    predicate Clean() {
      Error().None? && pass.failed == {} && multi.failed == {}
    }
  }

  /** The second stage of g ran on the table and the groups of g.pre; there is none after an error. */
  ghost predicate IsSecondStage(setup: PaymentSetup, allowances: Allowances, g: Gather)
    requires ValidSetup(setup)
  {
    && (g.pre.error.Some? ==>
          g.keys == [] && g.pass == PassOutcome(g.pre.s, map[], {}, None) &&
          g.order == [] && g.multi == MultiOutcome(g.pre.s, {}, None))
    && (g.pre.error.None? ==>
          && SortedKeys(g.pre.groups, g.keys)
          && g.pass == SortedPass(setup, g.pre.s, g.pre.groups, g.keys, map[], {})
          && (g.pass.error.Some? ==> g.order == [] && g.multi == MultiOutcome(g.pass.s, {}, None))
          && (g.pass.error.None? ==>
                && Enumerates(g.order, g.pass.multi.Keys)
                && g.multi == MultiRun(setup, allowances, g.pass.s, g.pass.multi, g.order, {})))
  }

  /** g describes a gather for `account` on `chainId` starting from ledger s. */
  ghost predicate IsGather(setup: PaymentSetup, allowances: Allowances, account: Address, chainId: int, s: State,
                          g: Gather)
    requires ValidSetup(setup)
  {
    && g.pre == PreRun(setup, s, map[], Pending(s.transfers, account, chainId))
    && IsSecondStage(setup, allowances, g)
  }

  /** The same with ledger `mid` found where the first stage had left its own. */
  ghost predicate IsSplitGather(setup: PaymentSetup, allowances: Allowances, account: Address, chainId: int, s: State,
                                mid: State, g: Gather)
    requires ValidSetup(setup)
  {
    && g.pre == PreRun(setup, s, map[], Pending(s.transfers, account, chainId)).(s := mid)
    && IsSecondStage(setup, allowances, g)
  }
}
