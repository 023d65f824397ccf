/** The second stage of a gather over a table that has changed since the first: which rows end as in the undisturbed
    gather, and which as in the changed table. */
module Overlays {
  import opened Prelude
  import opened Contracts
  import opened Ledger
  import opened Orders
  import opened Chunks
  import opened Gathering
  import opened GatherFacts
  import opened PostFacts
  import opened MultiFacts
  import opened GatherTheorems
  import opened Plan
  import opened PlanFacts
  import opened GatherPlan

  // ---- two tables under the same writes ----

  /** The table the first stage left, and the table the second stage finds. */
  datatype Tables = Tables(base: seq<Transfer>, over: seq<Transfer>)

  /** The same writes have led from base to ts and from over to us: a row written has the same new value in both, any
      other is still as it was. */
  ghost predicate Laid(p: Tables, ts: seq<Transfer>, us: seq<Transfer>, written: set<nat>) {
    && |p.base| == |ts| <= |p.over| == |us|
    && (forall i | i in written :: i < |ts| && us[i] == ts[i])
    && (forall i: nat | i < |us| && i !in written :: us[i] == p.over[i])
    && (forall i: nat | i < |ts| && i !in written :: ts[i] == p.base[i])
  }

  ghost predicate Alike(p: Tables, a: State, b: State, written: set<nat>) {
    a.txs == b.txs && Laid(p, a.transfers, b.transfers, written)
  }

  predicate InTable(p: Tables, rows: seq<Transfer>) {
    forall row | row in rows :: row.id < |p.base|
  }

  lemma PutLaid(p: Tables, ts: seq<Transfer>, us: seq<Transfer>, row: Transfer, written: set<nat>)
    requires Laid(p, ts, us, written) && row.id < |p.base|
    ensures Laid(p, Put(ts, row), Put(us, row), written + {row.id})
  {
  }

  lemma {:induction false} LinkLaid(p: Tables, ts: seq<Transfer>, us: seq<Transfer>, rows: seq<Transfer>, t: nat,
                                    written: set<nat>)
    requires Laid(p, ts, us, written) && InTable(p, rows)
    ensures Laid(p, LinkRows(ts, rows, t), LinkRows(us, rows, t), written + Ids(rows))
    decreases |rows|
  {
    hide Laid, Put, Ids;
    if rows != [] {
      assert rows == [rows[0]] + rows[1..] && rows[0] in rows;
      var row := LinkRow(rows[0], t);
      IdsCons(rows);
      PutLaid(p, ts, us, row, written);
      LinkLaid(p, Put(ts, row), Put(us, row), rows[1..], t, written + {row.id});
      assert written + {row.id} + Ids(rows[1..]) == written + Ids(rows);
    } else {
      NoIds(written);
    }
  }

  lemma NoIds(written: set<nat>)
    ensures written + Ids([]) == written
  {
  }

  lemma {:induction false} MarkLaid(p: Tables, ts: seq<Transfer>, us: seq<Transfer>, rows: seq<Transfer>,
                                    written: set<nat>)
    requires Laid(p, ts, us, written) && InTable(p, rows)
    ensures Laid(p, MarkRows(ts, rows, GATHER_ERROR), MarkRows(us, rows, GATHER_ERROR), written + Ids(rows))
    decreases |rows|
  {
    hide Laid, Put, Ids;
    if rows != [] {
      assert rows == [rows[0]] + rows[1..] && rows[0] in rows;
      var row := rows[0].(error := Some(GATHER_ERROR));
      IdsCons(rows);
      PutLaid(p, ts, us, row, written);
      MarkLaid(p, Put(ts, row), Put(us, row), rows[1..], written + {row.id});
      assert written + {row.id} + Ids(rows[1..]) == written + Ids(rows);
    } else {
      NoIds(written);
    }
  }

  lemma CommitAlike(p: Tables, a: State, b: State, tx: Tx, rows: seq<Transfer>, written: set<nat>)
    requires Alike(p, a, b, written) && InTable(p, rows)
    ensures Alike(p, Commit(a, tx, rows), Commit(b, tx, rows), written + Ids(rows))
  {
    hide Laid;
    LinkLaid(p, a.transfers, b.transfers, rows, |a.txs|, written);
  }

  // ---- one batch ----

  lemma {:induction false} BatchAlike(setup: PaymentSetup, chain: ChainSetup, key: MultiKey, p: Tables, a: State,
                                      b: State, orders: seq<Order>, written: set<nat>) returns (after: set<nat>)
    requires key.token.Some? && chain.maxAtOnce > 0 && Alike(p, a, b, written) && InTable(p, AllRows(orders))
    ensures var x, z := BatchRun(setup, chain, key, a, orders), BatchRun(setup, chain, key, b, orders);
            && x.orders == z.orders && x.error == z.error && Alike(p, x.s, z.s, after)
            && Ids(AllRows(x.orders)) == Ids(AllRows(orders))
            && (x.error.None? ==> after == written + Ids(AllRows(orders)))
    ensures written <= after <= written + Ids(AllRows(orders))
    decreases |orders|
  {
    if orders == [] {
      after := written;
    } else {
      hide ChunkTx, Commit, Alike, Ids;
      var n := Min(chain.maxAtOnce, |orders|);
      var chunk, rest := orders[..n], orders[n..];
      assert orders == chunk + rest;
      AllRowsConcat(chunk, rest);
      IdsConcat(AllRows(chunk), AllRows(rest));
      match ChunkTx(setup, chain, key, chunk)
      case Err(_) => after := written;
      case Ok(tx) =>
        SameCount(p, a, b, written);
        CommitAlike(p, a, b, tx, AllRows(chunk), written);
        var a1, b1 := Commit(a, tx, AllRows(chunk)), Commit(b, tx, AllRows(chunk));
        after := BatchAlike(setup, chain, key, p, a1, b1, rest, written + Ids(AllRows(chunk)));
        MemoryIds(chunk, BatchRun(setup, chain, key, a1, rest).orders, |a.txs|);
    }
  }

  lemma SameCount(p: Tables, a: State, b: State, written: set<nat>)
    requires Alike(p, a, b, written)
    ensures a.txs == b.txs
  {
  }

  lemma IdsConcat(a: seq<Transfer>, b: seq<Transfer>)
    ensures Ids(a + b) == Ids(a) + Ids(b)
  {
  }

  lemma MemoryIds(chunk: seq<Order>, rest: seq<Order>, t: nat)
    ensures Ids(AllRows(LinkOrders(chunk, t) + rest)) == Ids(AllRows(chunk)) + Ids(AllRows(rest))
  {
    hide Ids;
    AllRowsConcat(LinkOrders(chunk, t), rest);
    IdsConcat(AllRows(LinkOrders(chunk, t)), AllRows(rest));
    LinkOrdersRows(chunk, t);
    LinkRowListIds(AllRows(chunk), t);
  }

  /** One batch, with its rows marked if it fails. */
  lemma GroupAlike(setup: PaymentSetup, allowances: Allowances, key: MultiKey, p: Tables, a: State, b: State,
                   orders: seq<Order>, written: set<nat>) returns (after: set<nat>)
    requires ValidSetup(setup) && Alike(p, a, b, written) && InTable(p, AllRows(orders))
    ensures var x, z := BatchMulti(setup, allowances, key, a, orders), BatchMulti(setup, allowances, key, b, orders);
            && x.error == z.error && Alike(p, AfterBatch(x), AfterBatch(z), after)
            && (!(x.error.Some? && x.error.value.NoAllowanceFound?) ==> after == written + Ids(AllRows(orders)))
    ensures written <= after <= written + Ids(AllRows(orders))
  {
    hide BatchRun, CheckAllowance, Laid, Ids, InTable;
    after := written;
    var x, z := BatchMulti(setup, allowances, key, a, orders), BatchMulti(setup, allowances, key, b, orders);
    if key.chainId in setup.chains && key.token.Some? &&
       CheckAllowance(setup, setup.chains[key.chainId], allowances, key).None?
    {
      after := BatchAlike(setup, setup.chains[key.chainId], key, p, a, b, orders, written);
    }
    assert x.orders == z.orders && Ids(AllRows(x.orders)) == Ids(AllRows(orders));
    if x.error.Some? && x.error.value.Custom? {
      SameIdsInTable(p, AllRows(orders), AllRows(x.orders));
      MarkLaid(p, x.s.transfers, z.s.transfers, AllRows(x.orders), after);
      after := after + Ids(AllRows(x.orders));
      assert after == written + Ids(AllRows(orders));
    }
  }

  lemma SameIdsInTable(p: Tables, a: seq<Transfer>, b: seq<Transfer>)
    requires InTable(p, a) && Ids(a) == Ids(b)
    ensures InTable(p, b)
  {
    forall row | row in b ensures row.id < |p.base| { assert row.id in Ids(a); }
  }

  // ---- all batches ----

  ghost predicate InBatches(multi: MultiMap, order: seq<MultiKey>, id: nat) {
    exists k :: k in order && k in multi && id in Ids(AllRows(multi[k]))
  }

  ghost predicate BatchesInTable(p: Tables, multi: MultiMap) {
    forall k | k in multi :: InTable(p, AllRows(multi[k]))
  }

  lemma InBatchesCons(multi: MultiMap, order: seq<MultiKey>, id: nat)
    requires order != [] && order[0] in multi
    ensures InBatches(multi, order, id) <==> id in Ids(AllRows(multi[order[0]])) || InBatches(multi, order[1..], id)
  {
    hide Ids, AllRows;
    assert order == [order[0]] + order[1..] && order[0] in order;
  }

  lemma {:induction false} MultiAlike(setup: PaymentSetup, allowances: Allowances, p: Tables, a: State, b: State,
                                      multi: MultiMap, order: seq<MultiKey>, failed: set<MultiKey>, written: set<nat>)
    returns (after: set<nat>)
    requires ValidSetup(setup) && BatchesInTable(p, multi) && Alike(p, a, b, written)
    requires forall k | k in order :: k in multi
    ensures var x, z := MultiRun(setup, allowances, a, multi, order, failed),
                      MultiRun(setup, allowances, b, multi, order, failed);
            && x.error == z.error && x.failed == z.failed && Alike(p, x.s, z.s, after)
            && (x.error.None? ==> forall id | InBatches(multi, order, id) :: id in after)
    ensures written <= after && forall id | id in after :: id in written || InBatches(multi, order, id)
    decreases |order|
  {
    if order == [] {
      after := written;
    } else {
      hide MultiRun, BatchMulti, AfterBatch, Alike, Ids, AllRows, InBatches;
      var key, rest := order[0], order[1..];
      assert key in order;
      assert InTable(p, AllRows(multi[key]));
      RunUnfolds(setup, allowances, a, multi, order, failed);
      RunUnfolds(setup, allowances, b, multi, order, failed);
      after := GroupAlike(setup, allowances, key, p, a, b, multi[key], written);
      forall id ensures InBatches(multi, order, id) <==>
                        id in Ids(AllRows(multi[key])) || InBatches(multi, rest, id) {
        InBatchesCons(multi, order, id);
      }
      var x, z := BatchMulti(setup, allowances, key, a, multi[key]), BatchMulti(setup, allowances, key, b, multi[key]);
      if x.error.Some? && x.error.value.NoAllowanceFound? {
        AfterRefusal(x);
        AfterRefusal(z);
      } else {
        after := MultiAlike(setup, allowances, p, AfterBatch(x), AfterBatch(z), multi, rest,
                            if x.error.None? then failed else failed + {key}, after);
      }
    }
  }

  lemma AfterRefusal(out: BatchOutcome)
    requires out.error.Some? && out.error.value.NoAllowanceFound?
    ensures AfterBatch(out) == out.s
  {
  }

  // ---- the pass over the sorted groups ----

  /** The row is in a group in the chain's own currency that is paid. */
  ghost predicate InPaid(setup: PaymentSetup, groups: Groups, keys: seq<Key>, id: nat) {
    exists k :: k in keys && k in groups && k.token.None? && !Fails(setup, groups, k) && id in Ids(groups[k])
  }

  lemma InPaidCons(setup: PaymentSetup, groups: Groups, keys: seq<Key>, id: nat)
    requires keys != [] && keys[0] in groups
    ensures InPaid(setup, groups, keys, id) <==>
            (keys[0].token.None? && !Fails(setup, groups, keys[0]) && id in Ids(groups[keys[0]])) ||
            InPaid(setup, groups, keys[1..], id)
  {
    hide Fails, Ids;
    assert keys == [keys[0]] + keys[1..] && keys[0] in keys;
  }

  lemma {:induction false} PassAlike(setup: PaymentSetup, p: Tables, a: State, b: State, groups: Groups,
                                     keys: seq<Key>, multi: MultiMap, failed: set<Key>, written: set<nat>)
    returns (after: set<nat>)
    requires Alike(p, a, b, written) && ReceiversParse(groups, keys)
    requires forall k | k in keys :: InTable(p, groups[k])
    ensures var x, z := SortedPass(setup, a, groups, keys, multi, failed),
                      SortedPass(setup, b, groups, keys, multi, failed);
            x.multi == z.multi && x.failed == z.failed && x.error == z.error && Alike(p, x.s, z.s, after)
    ensures forall id :: id in after <==> id in written || InPaid(setup, groups, keys, id)
    decreases |keys|
  {
    if keys == [] {
      after := written;
    } else {
      hide NativeTx, Alike, Commit, InPaid, Ids;
      var key, rest := keys[0], keys[1..];
      assert keys == [key] + rest && key in keys;
      forall id ensures InPaid(setup, groups, keys, id) <==>
          (key.token.None? && !Fails(setup, groups, key) && id in Ids(groups[key])) || InPaid(setup, groups, rest, id)
      {
        InPaidCons(setup, groups, keys, id);
      }
      if key.token.Some? {
        after := PassAlike(setup, p, a, b, groups, rest, PushOrder(multi, key.Multi(), OrderOf(groups, key)), failed,
                           written);
      } else {
        match NativeTx(setup, key, groups[key])
        case Err(_) => after := PassAlike(setup, p, a, b, groups, rest, multi, failed + {key}, written);
        case Ok(tx) =>
          CommitAlike(p, a, b, tx, groups[key], written);
          after := PassAlike(setup, p, Commit(a, tx, groups[key]), Commit(b, tx, groups[key]), groups, rest, multi,
                             failed, written + Ids(groups[key]));
      }
    }
  }

  // ---- the whole second stage ----

  /** The second stage writes the row back from its copy. */
  ghost predicate WritesBack(setup: PaymentSetup, g: Gather, id: nat) {
    InPaid(setup, g.pre.groups, g.keys, id) || InBatches(g.pass.multi, g.order, id)
  }

  /** Same outcome, up to the rows not written. */
  ghost predicate SameOutcome(g: Gather, h: Gather) {
    && h.keys == g.keys && h.order == g.order && h.Error() == g.Error()
    && h.pass.multi == g.pass.multi && h.pass.failed == g.pass.failed && h.multi.failed == g.multi.failed
    && h.multi.s.txs == g.multi.s.txs
  }

  /** The gather as it would have run undisturbed. */
  lemma Undisturbed(setup: PaymentSetup, allowances: Allowances, account: Address, chainId: int, s: State, mid: State,
                    h: Gather) returns (g: Gather, written: set<nat>)
    requires ValidSetup(setup) && Inv(s) && IsSplitGather(setup, allowances, account, chainId, s, mid, h)
    requires var first := PreRun(setup, s, map[], Pending(s.transfers, account, chainId)).s;
             mid.txs == first.txs && |first.transfers| <= |mid.transfers|
    ensures IsGather(setup, allowances, account, chainId, s, g) && SameOutcome(g, h)
    ensures Alike(Tables(g.pre.s.transfers, mid.transfers), g.multi.s, h.multi.s, written)
    ensures forall id | id in written :: WritesBack(setup, g, id)
    ensures g.Error().None? ==> forall id | WritesBack(setup, g, id) :: id in written
  {
    hide Inv, PreRun, Pending, SortedPass, MultiRun;
    var pre := PreRun(setup, s, map[], Pending(s.transfers, account, chainId));
    var p := Tables(pre.s.transfers, mid.transfers);
    if pre.error.Some? {
      g := Gather(pre, [], PassOutcome(pre.s, map[], {}, None), [], MultiOutcome(pre.s, {}, None));
      written := {};
    } else {
      PreStage(setup, s, account, chainId, pre);
      GroupsParse(setup, pre.s.transfers, pre.groups, h.keys);
      written := PassAlike(setup, p, pre.s, mid, pre.groups, h.keys, map[], {}, {});
      var pass := SortedPass(setup, pre.s, pre.groups, h.keys, map[], {});
      PassStage(setup, pre, h.keys, pass);
      written := MultiAlike(setup, allowances, p, pass.s, h.pass.s, pass.multi, h.order, {}, written);
      g := Gather(pre, h.keys, pass, h.order, MultiRun(setup, allowances, pass.s, pass.multi, h.order, {}));
    }
  }

  /** Every gather can be split over any such table. */
  lemma SplitExists(setup: PaymentSetup, allowances: Allowances, account: Address, chainId: int, s: State, g: Gather,
                    mid: State) returns (h: Gather)
    requires ValidSetup(setup) && Inv(s) && IsGather(setup, allowances, account, chainId, s, g)
    requires mid.txs == g.pre.s.txs && |g.pre.s.transfers| <= |mid.transfers|
    ensures IsSplitGather(setup, allowances, account, chainId, s, mid, h)
  {
    hide Inv, PreRun, Pending, SortedPass, MultiRun;
    var pre := g.pre.(s := mid);
    if pre.error.Some? {
      h := Gather(pre, [], PassOutcome(mid, map[], {}, None), [], MultiOutcome(mid, {}, None));
    } else {
      PreStage(setup, s, account, chainId, g.pre);
      GroupsParse(setup, g.pre.s.transfers, g.pre.groups, g.keys);
      PassStage(setup, g.pre, g.keys, g.pass);
      var p := Tables(g.pre.s.transfers, mid.transfers);
      var written := PassAlike(setup, p, g.pre.s, mid, g.pre.groups, g.keys, map[], {}, {});
      var pass := SortedPass(setup, mid, g.pre.groups, g.keys, map[], {});
      h := Gather(pre, g.keys, pass, g.order, MultiRun(setup, allowances, pass.s, pass.multi, g.order, {}));
    }
  }

  /** With nothing changed in between it is the gather itself. */
  lemma SplitOverNothing(setup: PaymentSetup, allowances: Allowances, account: Address, chainId: int, s: State,
                         g: Gather)
    requires ValidSetup(setup)
    ensures IsSplitGather(setup, allowances, account, chainId, s,
                          PreRun(setup, s, map[], Pending(s.transfers, account, chainId)).s, g) <==>
            IsGather(setup, allowances, account, chainId, s, g)
  {
  }

  /** What the second stage does to the ledger of the first. */
  lemma PostGrows(setup: PaymentSetup, allowances: Allowances, account: Address, chainId: int, s: State, g: Gather)
    requires ValidSetup(setup) && Inv(s) && IsGather(setup, allowances, account, chainId, s, g)
    ensures s.txs <= g.pre.s.txs <= g.multi.s.txs && Evolves(s, g.pre.s) && Evolves(g.pre.s, g.multi.s)
    ensures Inv(g.pre.s) && Inv(g.multi.s)
  {
    hide Inv, PreRun, SortedPass, MultiRun, Pending, SortedKeys, Evolves;
    PreStage(setup, s, account, chainId, g.pre);
    if g.pre.error.None? {
      PassStage(setup, g.pre, g.keys, g.pass);
      MultiStage(setup, allowances, g.pass, g.order, g.multi);
      GrowsLinks(g.pre.s, g.pass.s, g.multi.s);
    } else {
      NothingChanges(g.pre.s);
    }
  }

  lemma NothingChanges(s: State)
    ensures Evolves(s, s)
  {
  }
}
