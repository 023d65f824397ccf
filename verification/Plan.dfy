/** What a gather will do, read off the pending rows and the settings before it runs. */
module Plan {
  import opened Prelude
  import opened Text
  import opened Contracts
  import opened Ledger
  import opened Orders
  import opened Chunks
  import opened Gathering

  // ---- groups ----

  /** The rows that will be paid under one five-part key. */
  function KeyRows(setup: PaymentSetup, rows: seq<Transfer>, key: Key): seq<Transfer> {
    if rows == [] then []
    else
      var last := rows[|rows| - 1];
      KeyRows(setup, rows[..|rows| - 1], key) +
      if Classify(setup, last).Grouped? && last.KeyOf() == key then [last] else []
  }

  /** The five-part keys to be paid, in the order of their first rows. */
  function PayKeys(setup: PaymentSetup, rows: seq<Transfer>): seq<Key> {
    if rows == [] then []
    else
      var keys, last := PayKeys(setup, rows[..|rows| - 1]), rows[|rows| - 1];
      if Classify(setup, last).Grouped? && last.KeyOf() !in keys then keys + [last.KeyOf()] else keys
  }

  function PlanGroups(setup: PaymentSetup, rows: seq<Transfer>): Groups {
    map key | key in PayKeys(setup, rows) :: KeyRows(setup, rows, key)
  }

  /** The keys of one four-part key, in the same order. */
  function KeysOf(keys: seq<Key>, mk: MultiKey): seq<Key> {
    if keys == [] then [] else (if keys[0].Multi() == mk then [keys[0]] else []) + KeysOf(keys[1..], mk)
  }

  function OrderOf(groups: Groups, key: Key): Order
    requires key in groups
  {
    Order(ParseAddress(key.receiver).GetOr(0), groups[key])
  }

  function OrdersOf(groups: Groups, keys: seq<Key>): (orders: seq<Order>)
    requires forall k | k in keys :: k in groups
    ensures |orders| == |keys| && forall i | 0 <= i < |keys| :: orders[i] == OrderOf(groups, keys[i])
  {
    if keys == [] then [] else [OrderOf(groups, keys[0])] + OrdersOf(groups, keys[1..])
  }

  /** The receivers' groups paid under one four-part key, oldest first. */
  function PlanOrders(setup: PaymentSetup, rows: seq<Transfer>, mk: MultiKey): seq<Order> {
    PayKeysFacts(setup, rows);
    KeysOfFacts(PayKeys(setup, rows), mk);
    OrdersOf(PlanGroups(setup, rows), KeysOf(PayKeys(setup, rows), mk))
  }

  // ---- errors ----

  /** Why a batch fails, if it does; no table is asked. */
  function BatchError(setup: PaymentSetup, allowances: Allowances, key: MultiKey, orders: seq<Order>):
    Option<PaymentError>
    requires ValidSetup(setup)
  {
    if key.chainId !in setup.chains then Some(Custom("No setup found for chain id"))
    else if key.token.None? then Some(Custom("Not implemented for multi"))
    else
      var missing := CheckAllowance(setup, setup.chains[key.chainId], allowances, key);
      if missing.Some? then missing else ChunkError(setup, setup.chains[key.chainId], key, orders)
  }

  /** How many of a batch's chunks are committed. */
  function Committed(setup: PaymentSetup, allowances: Allowances, key: MultiKey, orders: seq<Order>): nat
    requires ValidSetup(setup)
  {
    if key.chainId !in setup.chains || key.token.None? ||
       CheckAllowance(setup, setup.chains[key.chainId], allowances, key).Some? then 0
    else OkChunks(setup, setup.chains[key.chainId], key, orders)
  }

  predicate Stops(setup: PaymentSetup, rows: seq<Transfer>) {
    exists row | row in rows :: Classify(setup, row).Stop?
  }

  predicate NativeFails(setup: PaymentSetup, rows: seq<Transfer>, key: Key) {
    key.token.None? && NativeTx(setup, key, KeyRows(setup, rows, key)).Err?
  }

  function PlanError(setup: PaymentSetup, allowances: Allowances, rows: seq<Transfer>, mk: MultiKey):
    Option<PaymentError>
    requires ValidSetup(setup)
  {
    BatchError(setup, allowances, mk, PlanOrders(setup, rows, mk))
  }

  /** No batch of these rows lacks an allowance. */
  ghost predicate AllowancesMet(setup: PaymentSetup, allowances: Allowances, rows: seq<Transfer>)
    requires ValidSetup(setup)
  {
    forall key | key in PayKeys(setup, rows) && key.token.Some? ::
      !(PlanError(setup, allowances, rows, key.Multi()).Some? &&
        PlanError(setup, allowances, rows, key.Multi()).value.NoAllowanceFound?)
  }

  /** Nothing fails: no row stops the gather, every native group can be paid, and every batch can be encoded. */
  ghost predicate Succeeds(setup: PaymentSetup, allowances: Allowances, rows: seq<Transfer>)
    requires ValidSetup(setup)
  {
    && !Stops(setup, rows)
    && (forall key | key in PayKeys(setup, rows) :: !NativeFails(setup, rows, key))
    && forall key | key in PayKeys(setup, rows) && key.token.Some? ::
         PlanError(setup, allowances, rows, key.Multi()).None?
  }

  // ---- facts about the plan ----

  ghost predicate Pays(setup: PaymentSetup, rows: seq<Transfer>, key: Key) {
    exists row :: row in rows && Classify(setup, row).Grouped? && row.KeyOf() == key
  }

  lemma {:induction false} PayKeysFacts(setup: PaymentSetup, rows: seq<Transfer>)
    ensures NoRepeats(PayKeys(setup, rows))
    ensures forall key :: key in PayKeys(setup, rows) <==> Pays(setup, rows, key)
  {
    if rows != [] {
      var front, last := rows[..|rows| - 1], rows[|rows| - 1];
      PayKeysFacts(setup, front);
      assert rows == front + [last];
      forall key ensures Pays(setup, rows, key) <==>
          Pays(setup, front, key) || (Classify(setup, last).Grouped? && last.KeyOf() == key)
      {
        if Classify(setup, last).Grouped? && last.KeyOf() == key { assert last in rows; }
      }
    }
  }

  lemma {:induction false} KeyRowsFacts(setup: PaymentSetup, rows: seq<Transfer>, key: Key)
    ensures forall row :: row in KeyRows(setup, rows, key) <==>
              row in rows && Classify(setup, row).Grouped? && row.KeyOf() == key
    ensures KeyRows(setup, rows, key) != [] <==> Pays(setup, rows, key)
  {
    if rows != [] {
      var front, last := rows[..|rows| - 1], rows[|rows| - 1];
      KeyRowsFacts(setup, front, key);
      assert rows == front + [last];
    }
    if KeyRows(setup, rows, key) != [] { assert KeyRows(setup, rows, key)[0] in KeyRows(setup, rows, key); }
  }

  lemma {:induction false} KeysOfFacts(keys: seq<Key>, mk: MultiKey)
    ensures forall k :: k in KeysOf(keys, mk) <==> k in keys && k.Multi() == mk
    ensures NoRepeats(keys) ==> NoRepeats(KeysOf(keys, mk))
  {
    if keys != [] {
      var rest := keys[1..];
      KeysOfFacts(rest, mk);
      assert keys == [keys[0]] + rest;
      if NoRepeats(keys) {
        assert NoRepeats(rest) && keys[0] !in rest;
        ConsNoRepeats(keys[0], KeysOf(rest, mk));
      }
    }
  }

  lemma ConsNoRepeats<T>(x: T, s: seq<T>)
    requires NoRepeats(s) && x !in s
    ensures NoRepeats([x] + s)
  {
  }

  // ---- the first stage builds these groups ----

  /** The groups hold exactly the rows seen so far. */
  ghost predicate GroupsSeen(setup: PaymentSetup, groups: Groups, seen: seq<Transfer>) {
    groups == PlanGroups(setup, seen)
  }

  lemma AppendSeen(setup: PaymentSetup, seen: seq<Transfer>, row: Transfer, key: Key)
    ensures KeyRows(setup, seen + [row], key) ==
            KeyRows(setup, seen, key) + if Classify(setup, row).Grouped? && row.KeyOf() == key then [row] else []
    ensures PayKeys(setup, seen + [row]) ==
            if Classify(setup, row).Grouped? && row.KeyOf() !in PayKeys(setup, seen)
            then PayKeys(setup, seen) + [row.KeyOf()] else PayKeys(setup, seen)
  {
    assert (seen + [row])[..|seen|] == seen;
  }

  lemma PushSeen(setup: PaymentSetup, groups: Groups, seen: seq<Transfer>, row: Transfer)
    requires GroupsSeen(setup, groups, seen)
    ensures GroupsSeen(setup, if Classify(setup, row).Grouped? then Push(groups, row) else groups, seen + [row])
  {
    hide Classify, KeyRows, PayKeys;
    var all, key := seen + [row], row.KeyOf();
    AppendSeen(setup, seen, row, key);
    if Classify(setup, row).Grouped? {
      if key !in PayKeys(setup, seen) {
        PayKeysFacts(setup, seen);
        KeyRowsFacts(setup, seen, key);
      }
      forall k | k in Push(groups, row) ensures Push(groups, row)[k] == KeyRows(setup, all, k) {
        AppendSeen(setup, seen, row, k);
      }
    } else {
      forall k ensures KeyRows(setup, all, k) == KeyRows(setup, seen, k) { AppendSeen(setup, seen, row, k); }
    }
  }

  /** The first stage stops exactly at a row that cannot be classified, and otherwise groups the rows as planned. */
  lemma {:induction false} PreRunPlan(setup: PaymentSetup, s: State, groups: Groups, seen: seq<Transfer>,
                                      rows: seq<Transfer>)
    requires GroupsSeen(setup, groups, seen)
    ensures PreRun(setup, s, groups, rows).error.None? <==> !Stops(setup, rows)
    ensures !Stops(setup, rows) ==> GroupsSeen(setup, PreRun(setup, s, groups, rows).groups, seen + rows)
    decreases |rows|
  {
    hide Classify, Commit, Put, Push, GroupsSeen;
    if rows == [] {
      assert seen + rows == seen;
    } else {
      var row, rest := rows[0], rows[1..];
      assert rows == [row] + rest && (seen + [row]) + rest == seen + rows;
      PushSeen(setup, groups, seen, row);
      match Classify(setup, row)
      case Rejected(e) =>
        PreRunPlan(setup, s.(transfers := Put(s.transfers, row.(error := Some(e)))), groups, seen + [row], rest);
      case Stop(_) => assert row in rows;
      case Closing(tx) => PreRunPlan(setup, Commit(s, tx, [row]), groups, seen + [row], rest);
      case Grouped => PreRunPlan(setup, s, Push(groups, row), seen + [row], rest);
    }
  }

  // ---- the sorted order is the order of first rows ----

  predicate Ascending(rows: seq<Transfer>) {
    forall i, j | 0 <= i < j < |rows| :: rows[i].id < rows[j].id
  }

  lemma {:induction false} PendingAscending(ts: seq<Transfer>, account: Address, chainId: int)
    requires forall i | 0 <= i < |ts| :: ts[i].id == i
    ensures Ascending(Pending(ts, account, chainId))
    ensures forall row | row in Pending(ts, account, chainId) :: row.id < |ts|
  {
    if ts != [] { PendingAscending(ts[..|ts| - 1], account, chainId); }
  }

  lemma {:induction false} FirstIsMin(rows: seq<Transfer>)
    requires rows != [] && Ascending(rows)
    ensures MinId(rows) == rows[0].id
  {
    if |rows| > 1 { FirstIsMin(rows[1..]); }
  }

  lemma {:induction false} KeyRowsAscending(setup: PaymentSetup, rows: seq<Transfer>, key: Key)
    requires Ascending(rows)
    ensures Ascending(KeyRows(setup, rows, key))
  {
    if rows != [] {
      var front, last := rows[..|rows| - 1], rows[|rows| - 1];
      KeyRowsAscending(setup, front, key);
      KeyRowsFacts(setup, front, key);
      var kept := KeyRows(setup, front, key);
      forall i | 0 <= i < |kept| ensures kept[i].id < last.id {
        assert kept[i] in front;
      }
    }
  }

  lemma {:induction false} KeysByAge(setup: PaymentSetup, rows: seq<Transfer>)
    requires Ascending(rows)
    ensures forall k | k in PayKeys(setup, rows) :: KeyRows(setup, rows, k) != []
    ensures forall i, j | 0 <= i < j < |PayKeys(setup, rows)| ::
              KeyRows(setup, rows, PayKeys(setup, rows)[i])[0].id < KeyRows(setup, rows, PayKeys(setup, rows)[j])[0].id
  {
    PayKeysFacts(setup, rows);
    forall k | k in PayKeys(setup, rows) ensures KeyRows(setup, rows, k) != [] { KeyRowsFacts(setup, rows, k); }
    if rows != [] {
      var front, last := rows[..|rows| - 1], rows[|rows| - 1];
      KeysByAge(setup, front);
      var keys, before := PayKeys(setup, rows), PayKeys(setup, front);
      PayKeysFacts(setup, front);
      forall i | 0 <= i < |before|
        ensures KeyRows(setup, rows, before[i])[0] == KeyRows(setup, front, before[i])[0]
        ensures KeyRows(setup, front, before[i])[0].id < last.id
      {
        assert before[i] in before;
        KeyRowsFacts(setup, front, before[i]);
        assert KeyRows(setup, front, before[i])[0] in front;
      }
      if |keys| > |before| {
        KeyRowsFacts(setup, front, last.KeyOf());
        assert KeyRows(setup, rows, last.KeyOf()) == [last];
      }
    }
  }

  /** The planned keys are the groups by smallest id. */
  lemma PlanIsSorted(setup: PaymentSetup, rows: seq<Transfer>)
    requires Ascending(rows)
    ensures SortedKeys(PlanGroups(setup, rows), PayKeys(setup, rows))
  {
    var groups, keys := PlanGroups(setup, rows), PayKeys(setup, rows);
    PayKeysFacts(setup, rows);
    KeysByAge(setup, rows);
    forall k | k in keys ensures MinId(groups[k]) == KeyRows(setup, rows, k)[0].id {
      KeyRowsAscending(setup, rows, k);
      FirstIsMin(KeyRows(setup, rows, k));
    }
    forall i, j | 0 <= i < j < |keys| ensures MinId(groups[keys[i]]) < MinId(groups[keys[j]]) {
      assert keys[i] in keys && keys[j] in keys;
    }
  }

  predicate ByAge(groups: Groups, keys: seq<Key>) {
    && (forall k | k in keys :: k in groups && groups[k] != [])
    && forall i, j | 0 <= i < j < |keys| :: MinId(groups[keys[i]]) < MinId(groups[keys[j]])
  }

  lemma HeadIsOldest(groups: Groups, a: seq<Key>)
    requires a != [] && ByAge(groups, a)
    ensures ByAge(groups, a[1..])
    ensures forall k :: k in a[1..] <==> k in a && k != a[0]
    ensures forall k | k in a && k != a[0] :: MinId(groups[a[0]]) < MinId(groups[k])
  {
    assert a == [a[0]] + a[1..] && a[0] in a;
    forall k | k in a[1..] ensures k in groups && MinId(groups[a[0]]) < MinId(groups[k]) {
      var m :| 0 <= m < |a[1..]| && a[1..][m] == k;
      assert a[m + 1] == k;
    }
  }

  lemma HeadIsIn<T>(s: seq<T>)
    ensures s != [] ==> s[0] in s
  {
  }

  /** There is only one order by smallest id. */
  lemma {:induction false} SortedIsUnique(groups: Groups, a: seq<Key>, b: seq<Key>)
    requires ByAge(groups, a) && ByAge(groups, b) && forall k :: k in a <==> k in b
    ensures a == b
  {
    hide ByAge;
    if a == [] {
      HeadIsIn(b);
    } else {
      assert a[0] in b && b != [] && b[0] in a;
      HeadIsOldest(groups, a);
      HeadIsOldest(groups, b);
      SortedIsUnique(groups, a[1..], b[1..]);
    }
  }
}
