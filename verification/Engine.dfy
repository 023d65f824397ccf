/** batching.rs as it runs: a database whose tables the gathering updates in place. */
module Engine {
  import opened Prelude
  import opened Text
  import opened Contracts
  import opened Ledger
  import opened Orders
  import opened Chunks
  import opened Gathering
  import opened GatherFacts
  import opened Deposits
  import opened Plan

  predicate DisjointGroups(groups: Groups) {
    forall j, k | j in groups && k in groups && j != k ::
      forall x, y | x in groups[j] && y in groups[k] :: x.id != y.id
  }

  /** Group sums stay in 256 bits; beyond that the original aborts. */
  predicate SumsFit(groups: Groups) {
    forall k | k in groups :: RowsSum(groups[k]) < TWO_256
  }

  predicate OrderSumsFit(orders: seq<Order>) {
    forall o | o in orders :: RowsSum(o.rows) < TWO_256
  }

  lemma {:induction false} MinIdInRows(rows: seq<Transfer>) returns (row: Transfer)
    requires rows != []
    ensures row in rows && row.id == MinId(rows) && forall x | x in rows :: MinId(rows) <= x.id
  {
    if |rows| == 1 {
      row := rows[0];
    } else {
      row := MinIdInRows(rows[1..]);
      assert rows == [rows[0]] + rows[1..];
      if rows[0].id < row.id { row := rows[0]; }
    }
  }

  lemma {:induction false} MinOfSet(ids: set<nat>) returns (m: nat)
    requires ids != {}
    ensures m in ids && forall x | x in ids :: m <= x
  {
    var a :| a in ids;
    var rest := ids - {a};
    assert forall x | x in ids :: x == a || x in rest;
    m := a;
    if rest != {} {
      var b := MinOfSet(rest);
      m := if a < b then a else b;
    }
  }

  /** Sums the decimal amounts of a group; None when one does not parse. */
  method SumAmounts(rows: seq<Transfer>) returns (total: Option<nat>)
    requires RowsSum(rows) < TWO_256
    ensures total == if AllParse(rows) then Some(RowsSum(rows)) else None
  {
    var sum := 0;
    for i := 0 to |rows|
      invariant sum + RowsSum(rows[i..]) == RowsSum(rows)
      invariant AllParse(rows[..i])
    {
      assert rows[i..][1..] == rows[i + 1..];
      var amount := ParseAmount(rows[i].tokenAmount);
      if amount.None? {
        return None;
      }
      assert sum + amount.value < TWO_256;
      sum := sum + amount.value;
      assert rows[..i + 1] == rows[..i] + [rows[i]];
    }
    assert rows[..|rows|] == rows;
    return Some(sum);
  }

  /** The map holds this group under its smallest id. */
  predicate Indexed(sortedOrder: map<nat, Key>, groups: Groups, key: Key) {
    key in groups && groups[key] != [] && MinId(groups[key]) in sortedOrder && sortedOrder[MinId(groups[key])] == key
  }

  /** Every entry of the map is a group's smallest id with the group's key. */
  predicate OnlyGroups(sortedOrder: map<nat, Key>, groups: Groups) {
    forall id | id in sortedOrder ::
      sortedOrder[id] in groups && groups[sortedOrder[id]] != [] && MinId(groups[sortedOrder[id]]) == id
  }

  lemma MinIdsDiffer(groups: Groups, j: Key, k: Key)
    requires DisjointGroups(groups) && j in groups && k in groups && j != k && groups[j] != [] && groups[k] != []
    ensures MinId(groups[j]) != MinId(groups[k])
  {
    var x := MinIdInRows(groups[j]);
    var y := MinIdInRows(groups[k]);
  }

  /** Entering one more group overwrites no other. */
  lemma IndexOneMore(sortedOrder: map<nat, Key>, groups: Groups, key: Key)
    requires DisjointGroups(groups) && OnlyGroups(sortedOrder, groups) && key in groups && groups[key] != []
    ensures var after := sortedOrder[MinId(groups[key]) := key];
            && OnlyGroups(after, groups) && Indexed(after, groups, key)
            && forall k | Indexed(sortedOrder, groups, k) :: Indexed(after, groups, k)
  {
    hide DisjointGroups, MinId;
    forall k | Indexed(sortedOrder, groups, k) && k != key ensures MinId(groups[k]) != MinId(groups[key]) {
      MinIdsDiffer(groups, k, key);
    }
  }

  lemma EmptyIndex(groups: Groups)
    ensures OnlyGroups(map[], groups)
  {
  }

  /** Fills the map; no group is lost, because groups of distinct rows have distinct smallest ids. */
  method IndexGroups(groups: Groups) returns (sortedOrder: map<nat, Key>)
    requires DisjointGroups(groups) && forall k | k in groups :: groups[k] != []
    ensures OnlyGroups(sortedOrder, groups) && forall k | k in groups :: Indexed(sortedOrder, groups, k)
  {
    hide DisjointGroups, MinId, OnlyGroups, Indexed;
    sortedOrder := map[];
    EmptyIndex(groups);
    var todo := groups.Keys;
    while todo != {}
      invariant forall k | k in todo :: k in groups
      invariant OnlyGroups(sortedOrder, groups)
      invariant forall k | k in groups :: k in todo || Indexed(sortedOrder, groups, k)
      decreases todo
    {
      var key :| key in todo;
      IndexOneMore(sortedOrder, groups, key);
      sortedOrder := sortedOrder[MinId(groups[key]) := key];
      todo := todo - {key};
    }
  }

  /** The keys of the map in ascending order. */
  method AscendingIds(sortedOrder: map<nat, Key>) returns (ids: seq<nat>)
    ensures forall i, j | 0 <= i < j < |ids| :: ids[i] < ids[j]
    ensures forall id | id in ids :: id in sortedOrder
    ensures forall id | id in sortedOrder :: id in ids
  {
    ids := [];
    var todo := sortedOrder.Keys;
    while todo != {}
      invariant forall id | id in todo :: id in sortedOrder
      invariant forall id | id in ids :: id in sortedOrder
      invariant forall id | id in sortedOrder :: id in todo || id in ids
      invariant forall i, y | 0 <= i < |ids| && y in todo :: ids[i] < y
      invariant forall i, j | 0 <= i < j < |ids| :: ids[i] < ids[j]
      decreases todo
    {
      ghost var least := MinOfSet(todo);
      var id :| id in todo && forall x | x in todo :: id <= x;
      ids := ids + [id];
      todo := todo - {id};
    }
  }

  /** The groups' keys in the order of their smallest row id. */
  method SortGroups(groups: Groups) returns (keys: seq<Key>)
    requires DisjointGroups(groups) && forall k | k in groups :: groups[k] != []
    ensures SortedKeys(groups, keys)
  {
    var sortedOrder := IndexGroups(groups);
    var ids := AscendingIds(sortedOrder);
    keys := [];
    for i := 0 to |ids|
      invariant |keys| == i && forall j | 0 <= j < i :: ids[j] in sortedOrder && keys[j] == sortedOrder[ids[j]]
    {
      assert ids[i] in ids;
      keys := keys + [sortedOrder[ids[i]]];
    }
    forall k | k in groups ensures k in keys {
      assert Indexed(sortedOrder, groups, k) && MinId(groups[k]) in ids;
      var j :| 0 <= j < |ids| && ids[j] == MinId(groups[k]);
      assert keys[j] == k;
    }
    forall i, j | 0 <= i < j < |keys|
      ensures MinId(groups[keys[i]]) < MinId(groups[keys[j]])
    {
      assert ids[i] < ids[j];
    }
  }

  // ---- the groups the first stage hands over ----

  lemma KeyedDisjoint(setup: PaymentSetup, rows: seq<Transfer>, ts: seq<Transfer>)
    requires InSync(ts, rows)
    ensures DisjointGroups(PlanGroups(setup, rows))
    ensures forall k | k in PlanGroups(setup, rows) :: PlanGroups(setup, rows)[k] != []
  {
    var groups := PlanGroups(setup, rows);
    PayKeysFacts(setup, rows);
    forall k | k in groups ensures groups[k] != [] { KeyRowsFacts(setup, rows, k); }
    forall j: Key, k: Key, x: Transfer, y: Transfer |
        j in groups && k in groups && j != k && x in groups[j] && y in groups[k]
      ensures x.id != y.id
    {
      KeyRowsFacts(setup, rows, j);
      KeyRowsFacts(setup, rows, k);
      assert ts[x.id] == x && ts[y.id] == y;
    }
  }

  lemma EnumeratesConcat<T>(a: seq<T>, b: seq<T>, left: set<T>, right: set<T>)
    requires Enumerates(a, left) && Enumerates(b, right) && left !! right
    ensures Enumerates(a + b, left + right)
  {
    forall i, j | 0 <= i < j < |a + b| ensures (a + b)[i] != (a + b)[j] {
      if i < |a| <= j { assert a[i] in a && b[j - |a|] in b; }
    }
    forall k | k in left + right ensures k in a + b {}
  }

  // ---- appending to the order of multi keys ----

  lemma {:induction false} MultiRunAppend(setup: PaymentSetup, allowances: Allowances, s: State, multi: MultiMap,
                                          order: seq<MultiKey>, more: seq<MultiKey>, failed: set<MultiKey>)
    requires ValidSetup(setup) && (forall k | k in order :: k in multi) && forall k | k in more :: k in multi
    ensures var out := MultiRun(setup, allowances, s, multi, order, failed);
            MultiRun(setup, allowances, s, multi, order + more, failed) ==
            if out.error.Some? then out else MultiRun(setup, allowances, out.s, multi, more, out.failed)
    decreases |order|
  {
    if order == [] {
      assert order + more == more;
    } else {
      assert (order + more)[1..] == order[1..] + more;
      var out := BatchMulti(setup, allowances, order[0], s, multi[order[0]]);
      match out.error
      case None => MultiRunAppend(setup, allowances, out.s, multi, order[1..], more, failed);
      case Some(NoAllowanceFound(_, _, _, _, _)) =>
      case Some(Custom(_)) =>
        var marked := out.s.(transfers := MarkRows(out.s.transfers, AllRows(out.orders), GATHER_ERROR));
        MultiRunAppend(setup, allowances, marked, multi, order[1..], more, failed + {order[0]});
    }
  }

  /** Any enumeration of the keys not yet visited. */
  method Enumerate(keys: set<MultiKey>) returns (s: seq<MultiKey>)
    ensures Enumerates(s, keys)
  {
    s := [];
    var todo := keys;
    while todo != {}
      invariant todo <= keys && Enumerates(s, keys - todo)
      decreases todo
    {
      var k :| k in todo;
      s := s + [k];
      todo := todo - {k};
    }
  }

  class Database {
    var transfers: seq<Transfer>
    var txs: seq<Tx>

    ghost function Now(): State
      reads this
    {
      State(transfers, txs)
    }

    method UpdateTransfer(row: Transfer)
      modifies this
      ensures txs == old(txs) && transfers == Put(old(transfers), row)
    {
      if row.id < |transfers| {
        transfers := transfers[row.id := row];
      }
    }

    method InsertTx(tx: Tx) returns (id: nat)
      modifies this
      ensures transfers == old(transfers) && txs == old(txs) + [tx] && id == |old(txs)|
    {
      id := |txs|;
      txs := txs + [tx];
    }

    method PendingTransfers(account: Address, chainId: int) returns (rows: seq<Transfer>)
      ensures rows == Pending(transfers, account, chainId)
    {
      rows := [];
      for i := 0 to |transfers|
        invariant rows == Pending(transfers[..i], account, chainId)
      {
        assert transfers[..i + 1][..i] == transfers[..i];
        if IsPending(transfers[i], account, chainId) {
          rows := rows + [transfers[i]];
        }
      }
      assert transfers[..|transfers|] == transfers;
    }

    /** insert_token_transfer_with_deposit_check */
    method InsertTransferChecked(row: Transfer) returns (r: Result<nat, PaymentError>)
      modifies this
      ensures match InsertTransfer(old(Now()), row)
              case Ok(s) => Now() == s && r == Ok(|old(transfers)|) &&
                      transfers[|old(transfers)|] == row.(id := |old(transfers)|)
              case Err(e) => Now() == old(Now()) && r == Err(e)
    {
      if row.depositId.Some? {
        var closed := false;
        for i := 0 to |transfers|
          invariant Now() == old(Now()) && closed == DepositClosed(transfers[..i], row.chainId, row.depositId.value)
        {
          assert transfers[..i + 1] == transfers[..i] + [transfers[i]];
          if OfDeposit(transfers[i], row.chainId, row.depositId.value) && transfers[i].depositFinish == 1 {
            closed := true;
          }
        }
        assert transfers[..|transfers|] == transfers;
        if closed {
          return Err(Custom("Cannot add token_transfer to already finished deposit"));
        }
      }
      r := Ok(|transfers|);
      transfers := transfers + [row.(id := |transfers|)];
    }

    /** close_deposit */
    method CloseDeposit(chainId: int, from: Address, id: nat, token: Address, check: DepositCheck)
      returns (error: Option<PaymentError>)
      modifies this
      ensures match RequestClose(old(Now()), chainId, from, id, token, check)
              case Ok(s) => error.None? && Now() == s
              case Err(e) => error == Some(e) && Now() == old(Now())
    {
      hide PrintU256, PrintAddress, DepositRows;
      if check.Details? {
        if check.amountIsZero {
          return Some(Custom("Deposit not found"));
        }
        if check.spender != from {
          return Some(Custom("You are not the spender of deposit"));
        }
      }
      var rows := DepositRows(transfers, chainId, PrintU256(id));
      for i := 0 to |rows|
        invariant Now() == old(Now()) && forall j | 0 <= j < i :: rows[j].depositFinish <= 0
      {
        if rows[i].depositFinish > 0 {
          assert rows[i] in rows;
          return Some(Custom("Deposit already being closed or closed"));
        }
      }
      var candidate := None;
      for i := 0 to |rows|
        invariant Now() == old(Now()) && candidate == Candidate(rows[..i])
      {
        assert rows[..i + 1][..i] == rows[..i];
        var tt := rows[i];
        if tt.txId.None? {
          candidate := if candidate.Some? && candidate.value.id >= tt.id then candidate else Some(tt);
        }
      }
      assert rows[..|rows|] == rows;
      if candidate.Some? {
        UpdateTransfer(candidate.value.(depositFinish := 1));
      } else {
        transfers := transfers + [CloseMarker(State(transfers, txs), chainId, from, id, token)];
      }
      return None;
    }

    /** Writes the link of every row of a list. */
    method LinkAll(rows: seq<Transfer>, id: nat)
      modifies this
      ensures txs == old(txs) && transfers == LinkRows(old(transfers), rows, id)
    {
      for i := 0 to |rows|
        invariant txs == old(txs) && LinkRows(transfers, rows[i..], id) == LinkRows(old(transfers), rows, id)
      {
        assert rows[i..][1..] == rows[i + 1..];
        UpdateTransfer(LinkRow(rows[i], id));
      }
    }

    /** gather_transactions_pre */
    method GatherPre(setup: PaymentSetup, account: Address, chainId: int)
      returns (groups: Groups, error: Option<PaymentError>)
      modifies this
      ensures PreOutcome(Now(), groups, error) ==
              PreRun(setup, old(Now()), map[], Pending(old(transfers), account, chainId))
    {
      groups := map[];
      var rows := PendingTransfers(account, chainId);
      for i := 0 to |rows|
        invariant PreRun(setup, Now(), groups, rows[i..]) == PreRun(setup, old(Now()), map[], rows)
      {
        var f := rows[i];
        assert rows[i..][0] == f && rows[i..][1..] == rows[i + 1..];
        match Classify(setup, f) {
          case Rejected(e) => UpdateTransfer(f.(error := Some(e)));
          case Stop(e) => return groups, Some(e);
          case Closing(tx) =>
            var id := InsertTx(tx);
            LinkAll([f], id);
          case Grouped => groups := Push(groups, f);
        }
      }
      return groups, None;
    }

    /** gather_transactions_batch, for the chain's own currency. */
    method GatherBatch(setup: PaymentSetup, rows: seq<Transfer>, key: Key) returns (error: Option<PaymentError>)
      requires RowsSum(rows) < TWO_256
      modifies this
      ensures match NativeTx(setup, key, rows)
              case Ok(tx) => error.None? && Now() == Commit(old(Now()), tx, rows)
              case Err(e) => error == Some(e) && Now() == old(Now())
    {
      var sum := SumAmounts(rows);
      if sum.None? {
        return Some(Custom("Invalid token amount"));
      }
      if key.chainId !in setup.chains {
        return Some(Custom("No setup found for chain id"));
      }
      var from, receiver := ParseAddress(key.from), ParseAddress(key.receiver);
      if from.None? || receiver.None? {
        return Some(Custom("Invalid address"));
      }
      var id := InsertTx(CreateEthTransfer(from.value, receiver.value, key.chainId, sum.value));
      LinkAll(rows, id);
      return None;
    }

    /** Sums and receivers of a chunk, and whether one of its rows finishes the deposit. */
    static method ChunkBatch(chunk: seq<Order>) returns (to: seq<Address>, amounts: Option<seq<nat>>, finish: bool)
      requires OrderSumsFit(chunk)
      ensures amounts.Some? <==> AllParse(AllRows(chunk))
      ensures amounts.Some? ==>
                to == Receivers(chunk) && amounts.value == Sums(chunk) && finish == AnyFinish(AllRows(chunk))
    {
      hide AllRows, AllParse, RowsSum;
      to, finish := [], false;
      var sums: seq<nat> := [];
      for j := 0 to |chunk|
        invariant |to| == |sums| == j
        invariant forall i | 0 <= i < j :: to[i] == chunk[i].receiver && sums[i] == RowsSum(chunk[i].rows)
        invariant forall i | 0 <= i < j :: AllParse(chunk[i].rows)
        invariant finish <==> exists i :: 0 <= i < j && AnyFinish(chunk[i].rows)
      {
        var o := chunk[j];
        var sum := SumAmounts(o.rows);
        if sum.None? {
          ChunkRows(chunk);
          return to, None, finish;
        }
        var closes := false;
        for i := 0 to |o.rows|
          invariant closes == AnyFinish(o.rows[..i])
        {
          assert o.rows[..i + 1] == o.rows[..i] + [o.rows[i]];
          if o.rows[i].depositFinish > 0 {
            closes := true;
          }
        }
        assert o.rows[..|o.rows|] == o.rows;
        finish := finish || closes;
        to := to + [o.receiver];
        sums := sums + [sum.value];
      }
      ChunkRows(chunk);
      return to, Some(sums), finish;
    }

    /** Links the rows of a chunk, in the table and in memory. */
    method LinkChunk(chunk: seq<Order>, id: nat) returns (linked: seq<Order>)
      modifies this
      ensures txs == old(txs) && transfers == LinkRows(old(transfers), AllRows(chunk), id)
      ensures linked == LinkOrders(chunk, id)
    {
      linked := [];
      for j := 0 to |chunk|
        invariant txs == old(txs)
        invariant LinkRows(transfers, AllRows(chunk[j..]), id) == LinkRows(old(transfers), AllRows(chunk), id)
        invariant linked + LinkOrders(chunk[j..], id) == LinkOrders(chunk, id)
      {
        assert chunk[j..][1..] == chunk[j + 1..];
        LinkRowsConcat(transfers, chunk[j].rows, AllRows(chunk[j + 1..]), id);
        LinkAll(chunk[j].rows, id);
        linked := linked + [chunk[j].(rows := LinkRowList(chunk[j].rows, id))];
      }
    }

    /** One iteration over the chunks: encode, then insert and link in one database transaction. */
    method GatherChunk(setup: PaymentSetup, chain: ChainSetup, key: MultiKey, chunk: seq<Order>)
      returns (linked: seq<Order>, error: Option<PaymentError>)
      requires OrderSumsFit(chunk) && chunk != [] && key.token.Some?
      modifies this
      ensures match ChunkTx(setup, chain, key, chunk)
              case Ok(tx) => && error.None? && linked == LinkOrders(chunk, |old(txs)|)
                             && Now() == Commit(old(Now()), tx, AllRows(chunk))
              case Err(e) => error == Some(e) && Now() == old(Now())
    {
      hide EncodeChunk;
      var to, amounts, finish := ChunkBatch(chunk);
      if amounts.None? {
        return chunk, Some(Custom("Invalid token amount"));
      }
      match EncodeChunk(setup, chain, key, to, amounts.value, finish) {
        case Err(e) => return chunk, Some(e);
        case Ok(tx) =>
          var id := InsertTx(tx);
          linked := LinkChunk(chunk, id);
          return linked, None;
      }
    }

    /** gather_transactions_batch_multi; `memory` is the caller's list of groups as left by the call. */
    method GatherBatchMulti(setup: PaymentSetup, allowances: Allowances, orders: seq<Order>, key: MultiKey)
      returns (memory: seq<Order>, error: Option<PaymentError>)
      requires ValidSetup(setup) && OrderSumsFit(orders)
      modifies this
      ensures BatchOutcome(Now(), memory, error) == BatchMulti(setup, allowances, key, old(Now()), orders)
    {
      hide ChunkTx, Commit, CheckAllowance;
      if key.chainId !in setup.chains {
        return orders, Some(Custom("No setup found for chain id"));
      }
      var chain := setup.chains[key.chainId];
      if key.token.None? {
        return orders, Some(Custom("Not implemented for multi"));
      }
      var missing := CheckAllowance(setup, chain, allowances, key);
      if missing.Some? {
        return orders, missing;
      }
      ghost var goal := BatchMulti(setup, allowances, key, Now(), orders);
      assert goal == BatchRun(setup, chain, key, Now(), orders) && chain.maxAtOnce > 0;
      hide OrderSumsFit, LinkOrders, AllRows, BatchRun, BatchMulti, ValidSetup;
      var done, left := [], orders;
      NothingDone(BatchRun(setup, chain, key, Now(), orders));
      while left != []
        invariant OrderSumsFit(left) && chain.maxAtOnce > 0
        invariant var rest := BatchRun(setup, chain, key, Now(), left);
                  goal == BatchOutcome(rest.s, done + rest.orders, rest.error)
        decreases |left|
      {
        var n := Min(chain.maxAtOnce, |left|);
        RunUnrolls(setup, chain, key, Now(), left);
        var linked, e := GatherChunk(setup, chain, key, left[..n]);
        if e.Some? {
          return done + left, e;
        }
        done := done + linked;
        left := left[n..];
      }
      RunOfNothing(setup, chain, key, Now());
      assert done + [] == done;
      return done, None;
    }

    /** Marks the rows of a failed batch, writing the copies held in memory. */
    method MarkFailed(rows: seq<Transfer>)
      modifies this
      ensures txs == old(txs) && transfers == MarkRows(old(transfers), rows, GATHER_ERROR)
    {
      for i := 0 to |rows|
        invariant txs == old(txs)
        invariant MarkRows(transfers, rows[i..], GATHER_ERROR) == MarkRows(old(transfers), rows, GATHER_ERROR)
      {
        assert rows[i..][1..] == rows[i + 1..];
        UpdateTransfer(rows[i].(error := Some(GATHER_ERROR)));
      }
    }

    /** The loop of gather_transactions_post over the sorted groups. */
    method SortedGroups(setup: PaymentSetup, groups: Groups, keys: seq<Key>)
      returns (multi: MultiMap, failed: set<Key>, error: Option<PaymentError>)
      requires SumsFit(groups) && forall k | k in keys :: k in groups
      modifies this
      ensures PassOutcome(Now(), multi, failed, error) == SortedPass(setup, old(Now()), groups, keys, map[], {})
      ensures forall k | k in multi :: OrderSumsFit(multi[k])
    {
      multi, failed := map[], {};
      for i := 0 to |keys|
        invariant SortedPass(setup, Now(), groups, keys[i..], multi, failed) ==
                  SortedPass(setup, old(Now()), groups, keys, map[], {})
        invariant forall k | k in multi :: OrderSumsFit(multi[k])
      {
        var key := keys[i];
        assert keys[i..][0] == key && keys[i..][1..] == keys[i + 1..];
        if key.token.None? {
          var e := GatherBatch(setup, groups[key], key);
          if e.Some? {
            failed := failed + {key};
          }
        } else {
          var receiver := ParseAddress(key.receiver);
          if receiver.None? {
            return multi, failed, Some(Custom("Invalid receiver address"));
          }
          multi := PushOrder(multi, key.Multi(), Order(receiver.value, groups[key]));
        }
      }
      return multi, failed, None;
    }

    /** The loop of gather_transactions_post over the multi key map, in an arbitrary order. */
    method MultiGroups(setup: PaymentSetup, allowances: Allowances, multi: MultiMap)
      returns (order: seq<MultiKey>, failed: set<MultiKey>, error: Option<PaymentError>)
      requires ValidSetup(setup) && forall k | k in multi :: OrderSumsFit(multi[k])
      modifies this
      ensures Enumerates(order, multi.Keys)
      ensures MultiOutcome(Now(), failed, error) == MultiRun(setup, allowances, old(Now()), multi, order, {})
    {
      order, failed := [], {};
      var todo := multi.Keys;
      while todo != {}
        invariant todo <= multi.Keys && Enumerates(order, multi.Keys - todo)
        invariant MultiOutcome(Now(), failed, None) == MultiRun(setup, allowances, old(Now()), multi, order, {})
        decreases todo
      {
        var key :| key in todo;
        MultiRunAppend(setup, allowances, old(Now()), multi, order, [key], {});
        assert [key][1..] == [];
        var memory, e := GatherBatchMulti(setup, allowances, multi[key], key);
        order := order + [key];
        todo := todo - {key};
        if e.Some? {
          if e.value.NoAllowanceFound? {
            var rest := Enumerate(todo);
            EnumeratesConcat(order, rest, multi.Keys - todo, todo);
            assert multi.Keys - todo + todo == multi.Keys;
            MultiRunAppend(setup, allowances, old(Now()), multi, order, rest, {});
            return order + rest, failed, e;
          }
          MarkFailed(AllRows(memory));
          failed := failed + {key};
        }
      }
      return order, failed, None;
    }

    /** One round of the service loop: gather_transactions_pre, then gather_transactions_post. */
    method GatherTransfers(setup: PaymentSetup, allowances: Allowances, account: Address, chainId: int)
      returns (error: Option<PaymentError>, ghost g: Gather)
      requires ValidSetup(setup)
      requires forall i | 0 <= i < |transfers| :: transfers[i].id == i
      requires forall key | key in PayKeys(setup, Pending(transfers, account, chainId)) ::
                 RowsSum(KeyRows(setup, Pending(transfers, account, chainId), key)) < TWO_256
      modifies this
      ensures IsGather(setup, allowances, account, chainId, old(Now()), g)
      ensures Now() == g.multi.s && error == g.Error()
    {
      ghost var rows := Pending(transfers, account, chainId);
      PendingSound(transfers, account, chainId);
      PreRunPlan(setup, Now(), map[], [], rows);
      assert [] + rows == rows;
      KeyedDisjoint(setup, rows, transfers);
      var groups, preError := GatherPre(setup, account, chainId);
      ghost var pre := PreOutcome(Now(), groups, preError);
      if preError.Some? {
        g := Gather(pre, [], PassOutcome(Now(), map[], {}, None), [], MultiOutcome(Now(), {}, None));
        return preError, g;
      }
      var keys := SortGroups(groups);
      var multi, passFailed, passError := SortedGroups(setup, groups, keys);
      ghost var pass := PassOutcome(Now(), multi, passFailed, passError);
      if passError.Some? {
        g := Gather(pre, keys, pass, [], MultiOutcome(Now(), {}, None));
        return passError, g;
      }
      var order, failed, e := MultiGroups(setup, allowances, multi);
      g := Gather(pre, keys, pass, order, MultiOutcome(Now(), failed, e));
      return e, g;
    }
  }

  lemma {:induction false} LinkRowsConcat(ts: seq<Transfer>, a: seq<Transfer>, b: seq<Transfer>, id: nat)
    ensures LinkRows(ts, a + b, id) == LinkRows(LinkRows(ts, a, id), b, id)
    decreases |a|
  {
    if a == [] {
      assert a + b == b;
    } else {
      assert (a + b)[1..] == a[1..] + b;
      LinkRowsConcat(Put(ts, LinkRow(a[0], id)), a[1..], b, id);
    }
  }

  lemma {:induction false} InAllRows(orders: seq<Order>, row: Transfer)
    ensures row in AllRows(orders) <==> exists i :: 0 <= i < |orders| && row in orders[i].rows
  {
    if orders != [] {
      InAllRows(orders[1..], row);
      assert forall i :: 0 <= i < |orders| - 1 ==> orders[1..][i] == orders[i + 1];
      if i :| 0 <= i < |orders| && row in orders[i].rows {
        if i > 0 { assert row in orders[1..][i - 1].rows; }
      }
    }
  }

  lemma NothingDone(out: BatchOutcome)
    ensures BatchOutcome(out.s, [] + out.orders, out.error) == out
  {
  }

  lemma RunOfNothing(setup: PaymentSetup, chain: ChainSetup, key: MultiKey, s: State)
    requires key.token.Some? && chain.maxAtOnce > 0
    ensures BatchRun(setup, chain, key, s, []) == BatchOutcome(s, [], None)
  {
  }

  /** The first chunk of a batch, and what is left of it. */
  lemma RunUnrolls(setup: PaymentSetup, chain: ChainSetup, key: MultiKey, s: State, orders: seq<Order>)
    requires orders != [] && key.token.Some? && chain.maxAtOnce > 0 && OrderSumsFit(orders)
    ensures var n := Min(chain.maxAtOnce, |orders|);
            var first := ChunkTx(setup, chain, key, orders[..n]);
            && OrderSumsFit(orders[..n]) && OrderSumsFit(orders[n..])
            && if first.Err? then BatchRun(setup, chain, key, s, orders) == BatchOutcome(s, orders, Some(first.error))
               else
                 var rest := BatchRun(setup, chain, key, Commit(s, first.value, AllRows(orders[..n])), orders[n..]);
                 BatchRun(setup, chain, key, s, orders) ==
                 BatchOutcome(rest.s, LinkOrders(orders[..n], |s.txs|) + rest.orders, rest.error)
  {
    hide ChunkTx, Commit;
  }

  /** What holds of all rows of a chunk, group by group. */
  lemma ChunkRows(chunk: seq<Order>)
    ensures AllParse(AllRows(chunk)) <==> forall i | 0 <= i < |chunk| :: AllParse(chunk[i].rows)
    ensures AnyFinish(AllRows(chunk)) <==> exists i :: 0 <= i < |chunk| && AnyFinish(chunk[i].rows)
  {
    forall row ensures row in AllRows(chunk) <==> exists i :: 0 <= i < |chunk| && row in chunk[i].rows {
      InAllRows(chunk, row);
    }
  }
}
