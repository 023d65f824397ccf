/** What gather_transactions_post does to every row: proofs about SortedPass and MultiRun. */
module PostFacts {
  import opened Prelude
  import opened Text
  import opened Contracts
  import opened Ledger
  import opened Orders
  import opened Chunks
  import opened Gathering
  import opened GatherFacts

  // ---- the pass over sorted groups ----

  ghost predicate GroupOk(setup: PaymentSetup, ts: seq<Transfer>, key: Key, rows: seq<Transfer>) {
    && rows != [] && Fresh(ts, rows) && DistinctIds(rows)
    && forall row | row in rows :: row.KeyOf() == key && Classify(setup, row).Grouped?
  }

  ghost predicate MapOk(ts: seq<Transfer>, multi: MultiMap) {
    forall k | k in multi :: k.token.Some? && OrdersOk(ts, multi[k]) && OfKey(multi[k], k)
  }

  ghost predicate InMulti(multi: MultiMap, row: Transfer) {
    row.Multi() in multi && row in AllRows(multi[row.Multi()])
  }

  ghost predicate PassReady(setup: PaymentSetup, s: State, groups: Groups, keys: seq<Key>, multi: MultiMap) {
    && Inv(s) && NoRepeats(keys) && MapOk(s.transfers, multi)
    && (forall k | k in keys :: k in groups && GroupOk(setup, s.transfers, k, groups[k]))
    && forall k, row | k in multi && row in AllRows(multi[k]) :: row.KeyOf() !in keys
  }

  /** A row in one of the native groups still to be processed. */
  ghost predicate NativeRow(groups: Groups, keys: seq<Key>, row: Transfer) {
    row.tokenAddr.None? && row.KeyOf() in keys && InGroups(groups, row)
  }

  lemma GroupReceiver(setup: PaymentSetup, ts: seq<Transfer>, key: Key, rows: seq<Transfer>)
    requires GroupOk(setup, ts, key, rows)
    ensures ParseAddress(key.receiver).Some?
    ensures OrderOk(Order(ParseAddress(key.receiver).value, rows))
  {
    assert rows[0] in rows;
    assert rows[0].KeyOf() == key && Classify(setup, rows[0]).Grouped?;
    assert rows[0].receiverAddr == key.receiver;
    assert ParseAddress(key.receiver).Some?;
    forall row | row in rows ensures row.receiverAddr == key.receiver { assert row.KeyOf() == key; }
  }

  lemma SingleOrderOk(ts: seq<Transfer>, order: Order)
    requires OrderOk(order) && Fresh(ts, order.rows) && DistinctIds(order.rows)
    ensures OrdersOk(ts, [order]) && AllRows([order]) == order.rows
  {
    assert [order][1..] == [];
    assert AllRows([order]) == order.rows + AllRows([]) == order.rows;
  }

  /** Committing a native group. */
  lemma NativeStep(setup: PaymentSetup, s: State, key: Key, rows: seq<Transfer>)
    requires Inv(s) && GroupOk(setup, s.transfers, key, rows) && key.token.None? && NativeTx(setup, key, rows).Ok?
    ensures var s1 := Commit(s, NativeTx(setup, key, rows).value, rows);
            Inv(s1) && Grows(s, s1, Ids(rows)) && AllLinked(s, s1, rows) && Together(s1, rows)
  {
    GroupReceiver(setup, s.transfers, key, rows);
    var order := Order(ParseAddress(key.receiver).value, rows);
    var tx := NativeTx(setup, key, rows).value;
    SingleOrderOk(s.transfers, order);
    NativeSettles(setup, key, rows, order.receiver);
    CommitKeepsInv(s, tx, [order]);
    CommitLinks(s, tx, rows);
    var s1 := Commit(s, tx, rows);
    KeptFromFresh(s, s1, rows);
  }

  /** If fresh rows are left alone or linked to new transactions, old transactions keep their rows. */
  lemma KeptFromFresh(s: State, s': State, rows: seq<Transfer>)
    requires Fresh(s.transfers, rows) && Touches(s, s', Ids(rows)) && Progress(s, s', rows)
    ensures Evolves(s, s')
  {
    forall t, i | 0 <= t < |s.txs| ensures Linked(s.transfers, i, t) <==> Linked(s'.transfers, i, t) {
      if i in Ids(rows) { var row :| row in rows && row.id == i; }
    }
  }

  lemma {:induction false} DistinctTextsAppend(orders: seq<Order>, order: Order)
    requires DistinctTexts(orders) && order.rows != [] && !HasText(orders, order.rows[0].receiverAddr)
    ensures DistinctTexts(orders + [order])
  {
    if orders == [] {
      assert orders + [order] == [order];
      assert [order][1..] == [];
    } else {
      assert (orders + [order])[1..] == orders[1..] + [order];
      DistinctTextsAppend(orders[1..], order);
    }
  }

  lemma OrderRowsIn(orders: seq<Order>, o: Order, row: Transfer)
    requires o in orders && row in o.rows
    ensures row in AllRows(orders)
  {
    if orders[0] != o {
      assert o in orders[1..];
      OrderRowsIn(orders[1..], o, row);
    }
  }

  /** Appending a group with a new key to the groups collected for its four-part key. */
  lemma AppendOrder(ts: seq<Transfer>, orders: seq<Order>, key: Key, order: Order)
    requires OrdersOk(ts, orders) && OfKey(orders, key.Multi())
    requires OrderOk(order) && Fresh(ts, order.rows) && DistinctIds(order.rows)
    requires forall row | row in order.rows :: row.KeyOf() == key
    requires forall row | row in AllRows(orders) :: row.KeyOf() != key
    ensures OrdersOk(ts, orders + [order]) && OfKey(orders + [order], key.Multi())
    ensures AllRows(orders + [order]) == AllRows(orders) + order.rows
  {
    AllRowsConcat(orders, [order]);
    SingleOrderOk(ts, order);
    var a, b := AllRows(orders), order.rows;
    assert Ids(a) !! Ids(b) by {
      forall x, y | x in a && y in b ensures x.id != y.id { assert ts[x.id] == x && ts[y.id] == y; }
    }
    DistinctConcat(a, b);
    assert b[0] in b && b[0].KeyOf() == key;
    forall o | o in orders && o.rows != [] ensures o.rows[0].receiverAddr != b[0].receiverAddr {
      assert o.rows[0] in o.rows;
      OrderRowsIn(orders, o, o.rows[0]);
      assert o.rows[0].Multi() == key.Multi() && o.rows[0].KeyOf() != key;
    }
    DistinctTextsAppend(orders, order);
    forall k | 0 <= k < |orders + [order]| ensures OrderOk((orders + [order])[k]) {}
  }

  lemma TokenStep(setup: PaymentSetup, s: State, groups: Groups, keys: seq<Key>, multi: MultiMap)
    requires PassReady(setup, s, groups, keys, multi) && keys != [] && keys[0].token.Some?
    ensures ParseAddress(keys[0].receiver).Some?
    ensures var order := Order(ParseAddress(keys[0].receiver).value, groups[keys[0]]);
            var multi1 := PushOrder(multi, keys[0].Multi(), order);
            && PassReady(setup, s, groups, keys[1..], multi1)
            && TokenContents(multi, multi1, groups[keys[0]])
  {
    var key, rest := keys[0], keys[1..];
    var rows, mk := groups[key], key.Multi();
    assert key in keys && NoRepeats(rest) && key !in rest;
    GroupReceiver(setup, s.transfers, key, rows);
    var order := Order(ParseAddress(key.receiver).value, rows);
    var multi1 := PushOrder(multi, mk, order);
    PushOrderFacts(s.transfers, multi, key, order);
    CollectedKeys(multi, multi1, rows, keys);
  }

  lemma CollectedKeys(multi: MultiMap, multi1: MultiMap, rows: seq<Transfer>, keys: seq<Key>)
    requires TokenContents(multi, multi1, rows) && keys != [] && keys[0] !in keys[1..]
    requires forall k, row | k in multi && row in AllRows(multi[k]) :: row.KeyOf() !in keys
    requires forall row | row in rows :: row.KeyOf() == keys[0]
    ensures forall k, row | k in multi1 && row in AllRows(multi1[k]) :: row.KeyOf() !in keys[1..]
  {
    assert keys == [keys[0]] + keys[1..];
  }

  /** The rows collected after one more group. */
  ghost predicate TokenContents(multi: MultiMap, multi1: MultiMap, rows: seq<Transfer>) {
    && Keeps(multi, multi1)
    && (forall row | row in rows :: InMulti(multi1, row))
    && forall k, row | k in multi1 && row in AllRows(multi1[k]) ::
         (k in multi && row in AllRows(multi[k])) || row in rows
  }

  lemma PushOrderFacts(ts: seq<Transfer>, multi: MultiMap, key: Key, order: Order)
    requires MapOk(ts, multi) && key.token.Some?
    requires OrderOk(order) && Fresh(ts, order.rows) && DistinctIds(order.rows)
    requires forall row | row in order.rows :: row.KeyOf() == key
    requires forall k, row | k in multi && row in AllRows(multi[k]) :: row.KeyOf() != key
    ensures var multi1 := PushOrder(multi, key.Multi(), order);
            MapOk(ts, multi1) && TokenContents(multi, multi1, order.rows)
  {
    var mk := key.Multi();
    var had := if mk in multi then multi[mk] else [];
    assert OrdersOk(ts, had) && OfKey(had, mk);
    AppendOrder(ts, had, key, order);
    var multi1 := PushOrder(multi, mk, order);
    assert multi1[mk] == had + [order] by { assert [] + [order] == [order]; }
    assert TokenContents(multi, multi1, order.rows) by {
      forall row | row in order.rows ensures InMulti(multi1, row) { assert row.KeyOf() == key; }
    }
  }

  lemma NativeCommitStep(setup: PaymentSetup, s: State, groups: Groups, keys: seq<Key>, multi: MultiMap, tx: Tx)
    requires PassReady(setup, s, groups, keys, multi) && keys != [] && keys[0].token.None?
    requires NativeTx(setup, keys[0], groups[keys[0]]) == Ok(tx)
    ensures var s1 := Commit(s, tx, groups[keys[0]]);
            && PassReady(setup, s1, groups, keys[1..], multi)
            && Grows(s, s1, Ids(groups[keys[0]])) && AllLinked(s, s1, groups[keys[0]])
            && Together(s1, groups[keys[0]])
  {
    var key, rest := keys[0], keys[1..];
    var rows := groups[key];
    assert key in keys && key !in rest && NoRepeats(rest);
    NativeStep(setup, s, key, rows);
    var s1 := Commit(s, tx, rows);
    forall k | k in rest ensures GroupOk(setup, s1.transfers, k, groups[k]) {
      assert k in keys && k != key;
      forall row | row in groups[k] ensures s1.transfers[row.id] == row {
        SameIdSameRow(s.transfers, rows, groups[k]);
      }
    }
    forall k | k in multi ensures OrdersOk(s1.transfers, multi[k]) {
      forall x, y | x in rows && y in AllRows(multi[k]) ensures x.id != y.id {
        assert x.KeyOf() == key && y.KeyOf() !in keys;
        assert s.transfers[x.id] == x && s.transfers[y.id] == y;
      }
      assert Ids(rows) !! Ids(AllRows(multi[k]));
      FreshFrame(s, s1, multi[k]);
    }
  }

  /** Current copies of table rows with the same id are the same row, so rows of different keys differ in id. */
  lemma SameIdSameRow(ts: seq<Transfer>, a: seq<Transfer>, b: seq<Transfer>)
    requires InSync(ts, a) && InSync(ts, b)
    ensures forall x, y | x in a && y in b && x.id == y.id :: x == y
  {
  }

  /** What the pass has done with a row of one of its groups. */
  ghost predicate PassDone(s: State, s': State, multi: MultiMap, failed: set<Key>, row: Transfer) {
    && row.id < |s'.transfers|
    && (row.tokenAddr.Some? ==> InMulti(multi, row))
    && (row.tokenAddr.None? && row.KeyOf() in failed ==> s'.transfers[row.id] == row)
    && (row.tokenAddr.None? && row.KeyOf() !in failed ==>
          NewlyLinked(row, s'.transfers[row.id], |s.txs|, |s'.txs|))
  }

  /** Between s and s' only rows satisfying the pass's description changed. */
  ghost predicate PassFrame(s: State, s': State, groups: Groups, keys: seq<Key>) {
    && |s'.transfers| == |s.transfers| && s.txs <= s'.txs && Evolves(s, s')
    && forall i | 0 <= i < |s.transfers| && !NativeRow(groups, keys, s.transfers[i]) ::
         s'.transfers[i] == s.transfers[i]
  }

  ghost predicate PassRows(s: State, out: PassOutcome, groups: Groups, keys: seq<Key>) {
    && (forall k, row | k in keys && k in groups && row in groups[k] :: PassDone(s, out.s, out.multi, out.failed, row))
    && (forall k | k in keys && k in groups && k.token.None? :: Together(out.s, groups[k]))
  }

  ghost predicate Keeps(multi: MultiMap, multi': MultiMap) {
    forall k, row | k in multi && row in AllRows(multi[k]) :: k in multi' && row in AllRows(multi'[k])
  }

  /** Every collected row was collected before or comes from one of the groups. */
  ghost predicate Collected(multi: MultiMap, multi': MultiMap, groups: Groups, keys: seq<Key>) {
    forall k, row | k in multi' && row in AllRows(multi'[k]) ::
      (k in multi && row in AllRows(multi[k])) || (row.KeyOf() in keys && InGroups(groups, row))
  }

  ghost predicate PassSound(out: PassOutcome) {
    out.error.None? && Inv(out.s) && MapOk(out.s.transfers, out.multi)
  }

  ghost predicate PassSpread(s: State, out: PassOutcome, groups: Groups, keys: seq<Key>, multi: MultiMap,
                             failed: set<Key>)
  {
    && PassFrame(s, out.s, groups, keys)
    && PassRows(s, out, groups, keys)
    && Keeps(multi, out.multi) && Collected(multi, out.multi, groups, keys)
    && failed <= out.failed && forall k | k in out.failed :: k in failed || k in keys
  }

  /** The pass never fails on groups of the first stage: native groups are committed or left pending,
      token groups are all collected, none lost. */
  lemma {:induction false} PassFacts(setup: PaymentSetup, s: State, groups: Groups, keys: seq<Key>, multi: MultiMap,
                                     failed: set<Key>, out: PassOutcome)
    requires PassReady(setup, s, groups, keys, multi) && forall k | k in keys :: k !in failed
    requires out == SortedPass(setup, s, groups, keys, multi, failed)
    ensures PassSound(out) && PassSpread(s, out, groups, keys, multi, failed)
    decreases |keys|
  {
    if keys != [] {
      var key, rest := keys[0], keys[1..];
      assert key in keys && key !in rest && NoRepeats(rest);
      if key.token.Some? {
        TokenStep(setup, s, groups, keys, multi);
        var multi1 := PushOrder(multi, key.Multi(), Order(ParseAddress(key.receiver).value, groups[key]));
        PassFacts(setup, s, groups, rest, multi1, failed, out);
        TokenResult(s, out, groups, keys, multi, multi1, failed);
      } else {
        match NativeTx(setup, key, groups[key])
        case Err(_) =>
          PassFacts(setup, s, groups, rest, multi, failed + {key}, out);
          NativeResult(s, s, out, groups, keys, multi, failed, failed + {key});
        case Ok(tx) =>
          NativeCommitStep(setup, s, groups, keys, multi, tx);
          PassFacts(setup, Commit(s, tx, groups[key]), groups, rest, multi, failed, out);
          NativeResult(s, Commit(s, tx, groups[key]), out, groups, keys, multi, failed, failed);
      }
    }
  }

  lemma TokenResult(s: State, out: PassOutcome, groups: Groups, keys: seq<Key>, multi: MultiMap,
                    multi1: MultiMap, failed: set<Key>)
    requires keys != [] && keys[0] in groups && keys[0].token.Some?
    requires forall row | row in groups[keys[0]] :: row.KeyOf() == keys[0] && row.id < |s.transfers|
    requires PassSpread(s, out, groups, keys[1..], multi1, failed)
    requires TokenContents(multi, multi1, groups[keys[0]])
    ensures PassSpread(s, out, groups, keys, multi, failed)
  {
    var key, rest := keys[0], keys[1..];
    assert keys == [key] + rest;
    assert PassFrame(s, out.s, groups, keys) by {
      forall i | 0 <= i < |s.transfers| && !NativeRow(groups, keys, s.transfers[i])
        ensures out.s.transfers[i] == s.transfers[i]
      {
        assert !NativeRow(groups, rest, s.transfers[i]);
      }
    }
    assert PassRows(s, out, groups, keys) by {
      forall row | row in groups[key] ensures PassDone(s, out.s, out.multi, out.failed, row) {
        assert row.KeyOf() == key && row.tokenAddr == key.token && InMulti(multi1, row);
      }
    }
    CollectedMore(multi, multi1, out.multi, groups, keys);
  }

  lemma CollectedMore(multi: MultiMap, multi1: MultiMap, multi2: MultiMap, groups: Groups, keys: seq<Key>)
    requires keys != [] && keys[0] in groups && forall row | row in groups[keys[0]] :: row.KeyOf() == keys[0]
    requires TokenContents(multi, multi1, groups[keys[0]])
    requires Keeps(multi1, multi2) && Collected(multi1, multi2, groups, keys[1..])
    ensures Keeps(multi, multi2) && Collected(multi, multi2, groups, keys)
  {
  }

  /** A native group's rows and the rest of the ledger after its step and the remaining pass. */
  lemma NativeResult(s: State, s1: State, out: PassOutcome, groups: Groups, keys: seq<Key>,
                     multi: MultiMap, failed: set<Key>, failed1: set<Key>)
    requires keys != [] && keys[0] in groups && keys[0].token.None? && keys[0] !in keys[1..] && keys[0] !in failed
    requires Fresh(s.transfers, groups[keys[0]]) && forall row | row in groups[keys[0]] :: row.KeyOf() == keys[0]
    requires (failed1 == failed + {keys[0]} && s1 == s) ||
             (failed1 == failed && Grows(s, s1, Ids(groups[keys[0]])) && AllLinked(s, s1, groups[keys[0]]))
    requires Together(s1, groups[keys[0]])
    requires PassSpread(s1, out, groups, keys[1..], multi, failed1)
    ensures PassSpread(s, out, groups, keys, multi, failed)
  {
    assert keys == [keys[0]] + keys[1..];
    NativeFrame(s, s1, out.s, groups, keys);
    NativeRows(s, s1, out, groups, keys, keys[0] in failed1);
  }

  lemma NativeFrame(s: State, s1: State, s2: State, groups: Groups, keys: seq<Key>)
    requires keys != [] && keys[0] in groups && keys[0].token.None?
    requires Fresh(s.transfers, groups[keys[0]]) && forall row | row in groups[keys[0]] :: row.KeyOf() == keys[0]
    requires s1 == s || Grows(s, s1, Ids(groups[keys[0]]))
    requires PassFrame(s1, s2, groups, keys[1..])
    ensures PassFrame(s, s2, groups, keys)
  {
    forall row | row in groups[keys[0]] ensures NativeRow(groups, keys, s.transfers[row.id]) {
      assert s.transfers[row.id] == row && row.KeyOf() == keys[0];
    }
    forall i | 0 <= i < |s.transfers| && !NativeRow(groups, keys, s.transfers[i])
      ensures s2.transfers[i] == s.transfers[i]
    {
      assert i !in Ids(groups[keys[0]]);
      assert !NativeRow(groups, keys[1..], s.transfers[i]);
    }
    if s1 != s { GrowsLinks(s, s1, s2); }
  }

  lemma NativeRows(s: State, s1: State, out: PassOutcome, groups: Groups, keys: seq<Key>, fails: bool)
    requires keys != [] && keys[0] in groups && keys[0].token.None? && keys[0] !in keys[1..]
    requires Fresh(s.transfers, groups[keys[0]]) && forall row | row in groups[keys[0]] :: row.KeyOf() == keys[0]
    requires |s1.transfers| == |s.transfers| && |s.txs| <= |s1.txs|
    requires if fails then s1 == s else AllLinked(s, s1, groups[keys[0]])
    requires Together(s1, groups[keys[0]])
    requires PassFrame(s1, out.s, groups, keys[1..]) && PassRows(s1, out, groups, keys[1..])
    requires fails <==> keys[0] in out.failed
    ensures PassRows(s, out, groups, keys)
  {
    forall k, row | k in keys && k in groups && row in groups[k]
      ensures PassDone(s, out.s, out.multi, out.failed, row)
    {
      if k == keys[0] {
        assert s1.transfers[row.id].KeyOf() == keys[0];
        assert !NativeRow(groups, keys[1..], s1.transfers[row.id]);
      } else {
        assert PassDone(s1, out.s, out.multi, out.failed, row);
      }
    }
    assert Together(out.s, groups[keys[0]]) by {
      forall row | row in groups[keys[0]]
        ensures row.id < |s1.transfers| && out.s.transfers[row.id] == s1.transfers[row.id]
      {
        assert s1.transfers[row.id].KeyOf() == keys[0];
        assert !NativeRow(groups, keys[1..], s1.transfers[row.id]);
      }
    }
  }

  lemma GrowsLinks(s: State, s1: State, s2: State)
    requires Evolves(s, s1) && Evolves(s1, s2) && |s.txs| <= |s1.txs|
    ensures Evolves(s, s2)
  {
    forall t, i | 0 <= t < |s.txs| ensures Linked(s.transfers, i, t) <==> Linked(s2.transfers, i, t) {
      assert Linked(s.transfers, i, t) <==> Linked(s1.transfers, i, t);
    }
  }

  // ---- oldest first ----

  /** The groups of every four-part key stand in the order of their smallest row id. */
  ghost predicate OldestFirst(multi: MultiMap) {
    forall k | k in multi ::
      && (forall i | 0 <= i < |multi[k]| :: multi[k][i].rows != [])
      && forall i, j | 0 <= i < j < |multi[k]| :: MinId(multi[k][i].rows) < MinId(multi[k][j].rows)
  }

  /** Every collected group is older than every group still to come. */
  ghost predicate OlderThan(multi: MultiMap, groups: Groups, keys: seq<Key>) {
    forall k, i, key | k in multi && 0 <= i < |multi[k]| && key in keys && key in groups &&
        multi[k][i].rows != [] && groups[key] != [] :: MinId(multi[k][i].rows) < MinId(groups[key])
  }

  lemma {:induction false} PassKeepsOrder(setup: PaymentSetup, s: State, groups: Groups, keys: seq<Key>,
                                          multi: MultiMap, failed: set<Key>)
    requires forall k | k in keys :: k in groups && groups[k] != []
    requires forall i, j | 0 <= i < j < |keys| :: MinId(groups[keys[i]]) < MinId(groups[keys[j]])
    requires OldestFirst(multi) && OlderThan(multi, groups, keys)
    ensures OldestFirst(SortedPass(setup, s, groups, keys, multi, failed).multi)
    decreases |keys|
  {
    if keys != [] {
      var key, rest := keys[0], keys[1..];
      assert key in keys;
      if key.token.None? {
        match NativeTx(setup, key, groups[key])
        case Ok(tx) => PassKeepsOrder(setup, Commit(s, tx, groups[key]), groups, rest, multi, failed);
        case Err(_) => PassKeepsOrder(setup, s, groups, rest, multi, failed + {key});
      } else {
        match ParseAddress(key.receiver)
        case None =>
        case Some(receiver) =>
          var multi1 := PushOrder(multi, key.Multi(), Order(receiver, groups[key]));
          PushKeepsOrder(groups, keys, multi, Order(receiver, groups[key]), multi1);
          PassKeepsOrder(setup, s, groups, rest, multi1, failed);
      }
    }
  }

  lemma PushKeepsOrder(groups: Groups, keys: seq<Key>, multi: MultiMap, order: Order, multi1: MultiMap)
    requires keys != [] && keys[0] in groups && order.rows == groups[keys[0]] != []
    requires forall k | k in keys :: k in groups && groups[k] != []
    requires forall i, j | 0 <= i < j < |keys| :: MinId(groups[keys[i]]) < MinId(groups[keys[j]])
    requires OldestFirst(multi) && OlderThan(multi, groups, keys)
    requires multi1 == PushOrder(multi, keys[0].Multi(), order)
    ensures OldestFirst(multi1) && OlderThan(multi1, groups, keys[1..])
  {
    hide MinId;
    var mk := keys[0].Multi();
    assert keys[0] in keys;
    forall key | key in keys[1..] ensures MinId(groups[keys[0]]) < MinId(groups[key]) {
      var j :| 0 <= j < |keys[1..]| && keys[1..][j] == key;
      assert keys[j + 1] == key;
    }
    forall k, i | k in multi1 && 0 <= i < |multi1[k]|
      ensures multi1[k][i].rows == groups[keys[0]] || (k in multi && i < |multi[k]| && multi1[k][i] == multi[k][i])
    {
      if k != mk { assert multi1[k] == multi[k]; }
    }
  }

  /** gather_transactions_post hands every batch its groups oldest first, whatever order the hash map had. */
  lemma BatchesOldestFirst(setup: PaymentSetup, s: State, groups: Groups, keys: seq<Key>)
    requires SortedKeys(groups, keys)
    ensures OldestFirst(SortedPass(setup, s, groups, keys, map[], {}).multi)
  {
    PassKeepsOrder(setup, s, groups, keys, map[], {});
  }
}
