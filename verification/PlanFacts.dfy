/** Every gather follows the plan: its groups, errors, links and transaction count are read off the pending rows. */
module PlanFacts {
  import opened Prelude
  import opened Text
  import opened Contracts
  import opened Ledger
  import opened Orders
  import opened Chunks
  import opened Gathering
  import opened GatherFacts
  import opened PostFacts
  import opened MultiFacts
  import opened Plan

  // ---- the pass over the sorted groups ----

  function Had(multi: MultiMap, mk: MultiKey): seq<Order> {
    if mk in multi then multi[mk] else []
  }

  predicate ReceiversParse(groups: Groups, keys: seq<Key>) {
    forall k | k in keys :: k in groups && ParseAddress(k.receiver).Some?
  }

  predicate Fails(setup: PaymentSetup, groups: Groups, key: Key) {
    key in groups && key.token.None? && NativeTx(setup, key, groups[key]).Err?
  }

  /** How many groups in the chain's own currency are paid. */
  function NativeCount(setup: PaymentSetup, groups: Groups, keys: seq<Key>): nat {
    if keys == [] then 0
    else (if keys[0].token.None? && !Fails(setup, groups, keys[0]) then 1 else 0) +
         NativeCount(setup, groups, keys[1..])
  }

  /** The outcome of the pass for the groups it meets. */
  ghost predicate PassAsPlanned(setup: PaymentSetup, groups: Groups, keys: seq<Key>, multi: MultiMap, failed: set<Key>,
                                s: State, out: PassOutcome)
    requires forall k | k in keys :: k in groups
  {
    && out.error.None?
    && (forall k :: k in out.failed <==> k in failed || (k in keys && Fails(setup, groups, k)))
    && |out.s.txs| == |s.txs| + NativeCount(setup, groups, keys)
    && forall mk: MultiKey | mk.token.Some? :: CollectedAs(groups, keys, multi, out.multi, mk)
  }

  ghost predicate CollectedAs(groups: Groups, keys: seq<Key>, multi: MultiMap, multi': MultiMap, mk: MultiKey)
    requires forall k | k in keys :: k in groups
  {
    KeysOfFacts(keys, mk);
    && Had(multi', mk) == Had(multi, mk) + OrdersOf(groups, KeysOf(keys, mk))
    && (mk in multi' <==> mk in multi || KeysOf(keys, mk) != [])
  }

  /** The first key's group, then the others'. */
  lemma OrdersUnroll(groups: Groups, keys: seq<Key>, mk: MultiKey)
    requires keys != [] && forall k | k in keys :: k in groups
    ensures forall k | k in KeysOf(keys, mk) :: k in groups
    ensures forall k | k in KeysOf(keys[1..], mk) :: k in groups
    ensures var rest := OrdersOf(groups, KeysOf(keys[1..], mk));
            if keys[0].Multi() == mk
            then KeysOf(keys, mk) != [] && OrdersOf(groups, KeysOf(keys, mk)) == [OrderOf(groups, keys[0])] + rest
            else KeysOf(keys, mk) == KeysOf(keys[1..], mk)
  {
    KeysOfFacts(keys, mk);
    KeysOfFacts(keys[1..], mk);
    assert keys[1..] <= keys[1..];
    if keys[0].Multi() == mk {
      var all := KeysOf(keys, mk);
      assert all[0] == keys[0] && all[1..] == KeysOf(keys[1..], mk);
    }
  }

  lemma HadPushed(multi: MultiMap, key: MultiKey, order: Order, mk: MultiKey)
    ensures var multi1 := PushOrder(multi, key, order);
            && Had(multi1, mk) == Had(multi, mk) + (if key == mk then [order] else [])
            && (mk in multi1 <==> mk in multi || key == mk)
  {
    assert Had(multi, mk) + [] == Had(multi, mk) && [] + [order] == [order];
  }

  lemma Regroup(h: seq<Order>, h1: seq<Order>, h2: seq<Order>, x: seq<Order>, rest: seq<Order>, all: seq<Order>)
    requires h1 == h + x && h2 == h1 + rest && all == x + rest
    ensures h2 == h + all
  {
  }

  lemma CollectStep(groups: Groups, keys: seq<Key>, multi: MultiMap, multi1: MultiMap, multi2: MultiMap, mk: MultiKey)
    requires keys != [] && (forall k | k in keys :: k in groups) && mk.token.Some?
    requires forall k | k in keys[1..] :: k in groups
    requires multi1 == if keys[0].token.None? then multi
                       else PushOrder(multi, keys[0].Multi(), OrderOf(groups, keys[0]))
    requires CollectedAs(groups, keys[1..], multi1, multi2, mk)
    ensures CollectedAs(groups, keys, multi, multi2, mk)
  {
    assert keys[0] in keys;
    OrdersUnroll(groups, keys, mk);
    HadPushed(multi, keys[0].Multi(), OrderOf(groups, keys[0]), mk);
    KeysOfFacts(keys, mk);
    if keys[0].Multi() == mk {
      CollectMore(groups, keys, multi, multi1, multi2, mk);
    } else {
      assert Had(multi, mk) + [] == Had(multi, mk);
    }
  }

  lemma CollectMore(groups: Groups, keys: seq<Key>, multi: MultiMap, multi1: MultiMap, multi2: MultiMap, mk: MultiKey)
    requires keys != [] && (forall k | k in keys :: k in groups) && mk.token.Some? && keys[0].Multi() == mk
    requires forall k | k in keys[1..] :: k in groups
    requires Had(multi1, mk) == Had(multi, mk) + [OrderOf(groups, keys[0])] && mk in multi1
    requires CollectedAs(groups, keys[1..], multi1, multi2, mk)
    ensures CollectedAs(groups, keys, multi, multi2, mk)
  {
    OrdersUnroll(groups, keys, mk);
    KeysOfFacts(keys, mk);
    hide Had, KeysOf, OrdersOf, OrderOf;
    var x := [OrderOf(groups, keys[0])];
    var rest, all := OrdersOf(groups, KeysOf(keys[1..], mk)), OrdersOf(groups, KeysOf(keys, mk));
    Regroup(Had(multi, mk), Had(multi1, mk), Had(multi2, mk), x, rest, all);
  }

  lemma PassPlanStep(setup: PaymentSetup, groups: Groups, keys: seq<Key>, multi: MultiMap, multi1: MultiMap,
                     failed: set<Key>, failed1: set<Key>, s: State, s1: State, out: PassOutcome)
    requires keys != [] && (forall k | k in keys :: k in groups) && forall k | k in keys[1..] :: k in groups
    requires multi1 == if keys[0].token.None? then multi
                       else PushOrder(multi, keys[0].Multi(), OrderOf(groups, keys[0]))
    requires failed1 == failed + if Fails(setup, groups, keys[0]) then {keys[0]} else {}
    requires |s1.txs| == |s.txs| + if keys[0].token.None? && !Fails(setup, groups, keys[0]) then 1 else 0
    requires PassAsPlanned(setup, groups, keys[1..], multi1, failed1, s1, out)
    ensures PassAsPlanned(setup, groups, keys, multi, failed, s, out)
  {
    hide Fails, CollectedAs, PushOrder;
    assert keys == [keys[0]] + keys[1..];
    forall mk: MultiKey | mk.token.Some? ensures CollectedAs(groups, keys, multi, out.multi, mk) {
      CollectStep(groups, keys, multi, multi1, out.multi, mk);
    }
  }

  lemma {:induction false} PassPlan(setup: PaymentSetup, s: State, groups: Groups, keys: seq<Key>, multi: MultiMap,
                                    failed: set<Key>)
    requires ReceiversParse(groups, keys)
    ensures PassAsPlanned(setup, groups, keys, multi, failed, s, SortedPass(setup, s, groups, keys, multi, failed))
    decreases |keys|
  {
    hide NativeTx;
    if keys == [] {
      forall mk: MultiKey | mk.token.Some? ensures CollectedAs(groups, keys, multi, multi, mk) {
        assert Had(multi, mk) + [] == Had(multi, mk);
      }
    } else {
      hide CollectedAs, PassAsPlanned;
      var key, rest := keys[0], keys[1..];
      var s1, multi1, failed1 := s, multi, failed;
      if key.token.None? {
        match NativeTx(setup, key, groups[key])
        case Ok(tx) => s1 := Commit(s, tx, groups[key]);
        case Err(_) => failed1 := failed + {key};
      } else {
        multi1 := PushOrder(multi, key.Multi(), OrderOf(groups, key));
      }
      PassPlan(setup, s1, groups, rest, multi1, failed1);
      var out := SortedPass(setup, s1, groups, rest, multi1, failed1);
      PassPlanStep(setup, groups, keys, multi, multi1, failed, failed1, s, s1, out);
    }
  }

  /** Transaction t pays one group in the chain's own currency, and exactly the group's rows are linked to it. */
  ghost predicate CarriesGroup(setup: PaymentSetup, key: Key, rows: seq<Transfer>, s: State, t: nat) {
    && t < |s.txs| && NativeTx(setup, key, rows) == Ok(s.txs[t])
    && forall i :: Linked(s.transfers, i, t) <==> i in Ids(rows)
  }

  lemma GroupStays(setup: PaymentSetup, key: Key, rows: seq<Transfer>, s: State, s': State, t: nat)
    requires CarriesGroup(setup, key, rows, s, t) && Evolves(s, s') && s.txs <= s'.txs
    ensures CarriesGroup(setup, key, rows, s', t)
  {
    forall i ensures Linked(s'.transfers, i, t) <==> i in Ids(rows) {
      assert Linked(s.transfers, i, t) <==> Linked(s'.transfers, i, t);
    }
  }

  lemma NativeReady(setup: PaymentSetup, s: State, groups: Groups, keys: seq<Key>, multi: MultiMap)
    requires PassReady(setup, s, groups, keys, multi) && keys != []
    ensures PassReady(setup, s, groups, keys[1..], multi)
  {
    assert keys == [keys[0]] + keys[1..];
  }

  /** Every native group that can be paid has its own transaction after the pass. */
  lemma {:induction false} PassNative(setup: PaymentSetup, s: State, groups: Groups, keys: seq<Key>, multi: MultiMap,
                                      failed: set<Key>, out: PassOutcome, key: Key) returns (t: nat)
    requires PassReady(setup, s, groups, keys, multi) && forall k | k in keys :: k !in failed
    requires out == SortedPass(setup, s, groups, keys, multi, failed)
    requires key in keys && key in groups && key.token.None? && !Fails(setup, groups, key)
    ensures |s.txs| <= t && CarriesGroup(setup, key, groups[key], out.s, t)
    decreases |keys|
  {
    hide NativeTx, PassReady, CarriesGroup, Fails;
    var first, rest := keys[0], keys[1..];
    assert keys == [first] + rest && first in groups && forall k | k in rest :: k in groups by {
      assert PassReady(setup, s, groups, keys, multi);
      KeysHaveGroups(setup, s, groups, keys, multi);
    }
    var s1, multi1, failed1 := s, multi, failed;
    NativeReady(setup, s, groups, keys, multi);
    FirstIsNew(setup, s, groups, keys, multi);
    if first.token.Some? {
      TokenStep(setup, s, groups, keys, multi);
      multi1 := PushOrder(multi, first.Multi(), Order(ParseAddress(first.receiver).value, groups[first]));
    } else {
      match NativeTx(setup, first, groups[first])
      case Err(_) => failed1 := failed + {first};
      case Ok(tx) =>
        NativeCommitStep(setup, s, groups, keys, multi, tx);
        s1 := Commit(s, tx, groups[first]);
    }
    assert out == SortedPass(setup, s1, groups, rest, multi1, failed1);
    if key == first {
      CommittedGroup(setup, s, groups, keys, multi);
      PassFacts(setup, s1, groups, rest, multi1, failed1, out);
      t := |s.txs|;
      GroupStays(setup, key, groups[key], s1, out.s, t);
    } else {
      t := PassNative(setup, s1, groups, rest, multi1, failed1, out, key);
    }
  }

  lemma KeysHaveGroups(setup: PaymentSetup, s: State, groups: Groups, keys: seq<Key>, multi: MultiMap)
    requires PassReady(setup, s, groups, keys, multi)
    ensures forall k | k in keys :: k in groups
  {
  }

  lemma FirstIsNew(setup: PaymentSetup, s: State, groups: Groups, keys: seq<Key>, multi: MultiMap)
    requires PassReady(setup, s, groups, keys, multi) && keys != []
    ensures keys[0] !in keys[1..]
  {
  }

  lemma CommittedGroup(setup: PaymentSetup, s: State, groups: Groups, keys: seq<Key>, multi: MultiMap)
    requires PassReady(setup, s, groups, keys, multi) && keys != [] && keys[0] in groups
    requires keys[0].token.None? && !Fails(setup, groups, keys[0])
    ensures var tx := NativeTx(setup, keys[0], groups[keys[0]]).value;
            CarriesGroup(setup, keys[0], groups[keys[0]], Commit(s, tx, groups[keys[0]]), |s.txs|)
  {
    var key := keys[0];
    assert key in keys && GroupOk(setup, s.transfers, key, groups[key]);
    CommitLinks(s, NativeTx(setup, key, groups[key]).value, groups[key]);
  }

  // ---- the batches ----

  /** The row is in one of the chunks that are committed. */
  ghost predicate RowCommitted(setup: PaymentSetup, allowances: Allowances, key: MultiKey, orders: seq<Order>,
                               row: Transfer)
    requires ValidSetup(setup)
  {
    key.chainId in setup.chains && exists k: nat ::
      k < Committed(setup, allowances, key, orders) &&
      k < ChunkCount(|orders|, setup.chains[key.chainId].maxAtOnce) &&
      row in AllRows(ChunkAt(orders, setup.chains[key.chainId].maxAtOnce, k))
  }

  /** Transactions lo, lo + 1, ... carry the committed chunks, one each; the rows of the others are not linked. */
  ghost predicate BatchPlaced(setup: PaymentSetup, allowances: Allowances, key: MultiKey, orders: seq<Order>, s: State,
                              lo: nat)
    requires ValidSetup(setup) && key.token.Some?
  {
    && lo + Committed(setup, allowances, key, orders) <= |s.txs|
    && (forall k: nat | k < Committed(setup, allowances, key, orders) :: ChunkPlaced(setup, key, orders, s, lo, k))
    && forall row | row in AllRows(orders) ::
         row.id < |s.transfers| &&
         (s.transfers[row.id].txId.Some? <==> RowCommitted(setup, allowances, key, orders, row))
  }

  ghost predicate ChunkPlaced(setup: PaymentSetup, key: MultiKey, orders: seq<Order>, s: State, lo: nat, k: nat)
    requires ValidSetup(setup) && key.token.Some?
  {
    && key.chainId in setup.chains && k < ChunkCount(|orders|, setup.chains[key.chainId].maxAtOnce)
    && CarriesChunk(setup, setup.chains[key.chainId], key, s, lo + k,
                    ChunkAt(orders, setup.chains[key.chainId].maxAtOnce, k))
  }

  lemma RunPlaced(setup: PaymentSetup, allowances: Allowances, key: MultiKey, s: State, orders: seq<Order>)
    requires ValidSetup(setup) && Inv(s) && OrdersOk(s.transfers, orders) && OfKey(orders, key) && key.token.Some?
    requires key.chainId in setup.chains && CheckAllowance(setup, setup.chains[key.chainId], allowances, key).None?
    ensures BatchPlaced(setup, allowances, key, orders, BatchRun(setup, setup.chains[key.chainId], key, s, orders).s,
                        |s.txs|)
  {
    hide BatchRun, OkChunks, CarriesChunk, OrdersOk, OfKey, CheckAllowance;
    var chain := setup.chains[key.chainId];
    var out := BatchRun(setup, chain, key, s, orders);
    BatchCount(setup, chain, key, s, orders);
    OkChunksBound(setup, chain, key, orders);
    forall k: nat | k < OkChunks(setup, chain, key, orders)
      ensures CarriesChunk(setup, chain, key, out.s, |s.txs| + k, ChunkAt(orders, chain.maxAtOnce, k))
    {
      BatchLinkage(setup, chain, key, s, orders, k, out.s, |s.txs| + k, ChunkAt(orders, chain.maxAtOnce, k));
    }
    forall row | row in AllRows(orders)
      ensures row.id < |out.s.transfers|
      ensures out.s.transfers[row.id].txId.Some? <==> RowCommitted(setup, allowances, key, orders, row)
    {
      RowPlaced(setup, allowances, key, s, orders, row);
    }
  }

  lemma RowPlaced(setup: PaymentSetup, allowances: Allowances, key: MultiKey, s: State, orders: seq<Order>,
                  row: Transfer)
    requires ValidSetup(setup) && WellFormed(s) && OrdersOk(s.transfers, orders) && OfKey(orders, key) &&
             key.token.Some?
    requires key.chainId in setup.chains && CheckAllowance(setup, setup.chains[key.chainId], allowances, key).None?
    requires row in AllRows(orders)
    ensures var s' := BatchRun(setup, setup.chains[key.chainId], key, s, orders).s;
            && row.id < |s'.transfers|
            && (s'.transfers[row.id].txId.Some? <==> RowCommitted(setup, allowances, key, orders, row))
  {
    hide BatchRun, OkChunks, OfKey, CheckAllowance, WellFormed, ChunkAt, ChunkCount;
    var chain := setup.chains[key.chainId];
    var max, ok := chain.maxAtOnce, OkChunks(setup, chain, key, orders);
    FreshRow(s.transfers, orders, row);
    if k: nat :| k < ok && k < ChunkCount(|orders|, max) && row in AllRows(ChunkAt(orders, max, k)) {
      RowInPlace(setup, chain, key, s, orders, k, row);
    } else {
      var k := RowInChunk(orders, max, row);
      LaterUntouched(setup, chain, key, s, orders, k, row);
      assert row.txId.None?;
    }
  }

  lemma RowInPlace(setup: PaymentSetup, chain: ChainSetup, key: MultiKey, s: State, orders: seq<Order>, k: nat,
                   row: Transfer)
    requires WellFormed(s) && OrdersOk(s.transfers, orders) && OfKey(orders, key)
    requires key.token.Some? && chain.maxAtOnce > 0 && k < OkChunks(setup, chain, key, orders)
    requires k < ChunkCount(|orders|, chain.maxAtOnce) && row in AllRows(ChunkAt(orders, chain.maxAtOnce, k))
    ensures Linked(BatchRun(setup, chain, key, s, orders).s.transfers, row.id, |s.txs| + k)
  {
    hide BatchRun, OkChunks, OrdersOk, OfKey, WellFormed, ChunkAt, ChunkCount, AllRows, ChunkTx, Linked;
    var after, chunk := BatchRun(setup, chain, key, s, orders).s, ChunkAt(orders, chain.maxAtOnce, k);
    BatchLinkage(setup, chain, key, s, orders, k, after, |s.txs| + k, chunk);
    assert row.id in Ids(AllRows(chunk));
  }

  /** A batch fails as planned, and places its committed chunks one after the other. */
  lemma BatchPlan(setup: PaymentSetup, allowances: Allowances, key: MultiKey, s: State, orders: seq<Order>)
    requires ValidSetup(setup) && Inv(s) && OrdersOk(s.transfers, orders) && OfKey(orders, key) && key.token.Some?
    ensures var out := BatchMulti(setup, allowances, key, s, orders);
            && out.error == BatchError(setup, allowances, key, orders)
            && |out.s.txs| == |s.txs| + Committed(setup, allowances, key, orders)
            && BatchPlaced(setup, allowances, key, orders, out.s, |s.txs|)
  {
    hide BatchRun, OkChunks, ChunkError, CheckAllowance, Inv;
    if key.chainId in setup.chains && CheckAllowance(setup, setup.chains[key.chainId], allowances, key).None? {
      hide OrdersOk, OfKey, BatchPlaced;
      BatchCount(setup, setup.chains[key.chainId], key, s, orders);
      RunPlaced(setup, allowances, key, s, orders);
    } else {
      NothingPlaced(setup, allowances, key, s, orders);
    }
  }

  lemma NothingPlaced(setup: PaymentSetup, allowances: Allowances, key: MultiKey, s: State, orders: seq<Order>)
    requires ValidSetup(setup) && OrdersOk(s.transfers, orders) && key.token.Some?
    requires Committed(setup, allowances, key, orders) == 0
    ensures BatchPlaced(setup, allowances, key, orders, s, |s.txs|)
  {
    hide Committed;
    forall row | row in AllRows(orders) ensures row.id < |s.transfers| && s.transfers[row.id].txId.None? {
      FreshRow(s.transfers, orders, row);
    }
  }

  lemma PlacedStays(setup: PaymentSetup, allowances: Allowances, key: MultiKey, orders: seq<Order>, s: State, s': State,
                    lo: nat)
    requires ValidSetup(setup) && key.token.Some? && BatchPlaced(setup, allowances, key, orders, s, lo)
    requires Evolves(s, s') && s.txs <= s'.txs
    requires forall row | row in AllRows(orders) :: row.id < |s.transfers| && row.id < |s'.transfers| &&
               s'.transfers[row.id].txId == s.transfers[row.id].txId
    ensures BatchPlaced(setup, allowances, key, orders, s', lo)
  {
    hide Committed, RowCommitted, ChunkTx;
    forall k: nat | k < Committed(setup, allowances, key, orders) ensures ChunkPlaced(setup, key, orders, s', lo, k) {
      assert ChunkPlaced(setup, key, orders, s, lo, k);
      var t := lo + k;
      forall i ensures Linked(s'.transfers, i, t) <==> Linked(s.transfers, i, t) {}
    }
  }

  /** Marking a failed batch moves no link. */
  lemma PlacedAfter(setup: PaymentSetup, allowances: Allowances, key: MultiKey, s: State, orders: seq<Order>)
    requires ValidSetup(setup) && Inv(s) && OrdersOk(s.transfers, orders) && OfKey(orders, key) && key.token.Some?
    ensures var s1 := AfterBatch(BatchMulti(setup, allowances, key, s, orders));
            && |s1.txs| == |s.txs| + Committed(setup, allowances, key, orders)
            && BatchPlaced(setup, allowances, key, orders, s1, |s.txs|)
  {
    hide BatchPlaced, Committed, BatchMulti, OrdersOk, OfKey, Inv;
    var out := BatchMulti(setup, allowances, key, s, orders);
    BatchPlan(setup, allowances, key, s, orders);
    BatchMultiFacts(setup, allowances, key, s, orders);
    if out.error.Some? && out.error.value.Custom? {
      MarkFacts(out.s, AllRows(out.orders));
      ErrorsEvolve(out.s, AfterBatch(out));
      PlacedRows(setup, allowances, key, orders, out.s, |s.txs|);
      PlacedStays(setup, allowances, key, orders, out.s, AfterBatch(out), |s.txs|);
    }
  }

  lemma PlacedRows(setup: PaymentSetup, allowances: Allowances, key: MultiKey, orders: seq<Order>, s: State, lo: nat)
    requires ValidSetup(setup) && key.token.Some? && BatchPlaced(setup, allowances, key, orders, s, lo)
    ensures forall row | row in AllRows(orders) :: row.id < |s.transfers|
  {
  }

  // ---- the run over all four-part keys ----

  predicate LacksAllowance(setup: PaymentSetup, allowances: Allowances, multi: MultiMap, key: MultiKey)
    requires ValidSetup(setup)
  {
    key in multi && BatchError(setup, allowances, key, multi[key]).Some? &&
    BatchError(setup, allowances, key, multi[key]).value.NoAllowanceFound?
  }

  function CommittedSum(setup: PaymentSetup, allowances: Allowances, multi: MultiMap, order: seq<MultiKey>): nat
    requires ValidSetup(setup)
  {
    if order == [] then 0
    else (if order[0] in multi then Committed(setup, allowances, order[0], multi[order[0]]) else 0) +
         CommittedSum(setup, allowances, multi, order[1..])
  }

  ghost predicate PlacedSomewhere(setup: PaymentSetup, allowances: Allowances, key: MultiKey, orders: seq<Order>,
                                  s: State, from: nat)
    requires ValidSetup(setup) && key.token.Some?
  {
    exists lo: nat :: from <= lo && BatchPlaced(setup, allowances, key, orders, s, lo)
  }

  ghost predicate MultiAsPlanned(setup: PaymentSetup, allowances: Allowances, s: State, multi: MultiMap,
                                 order: seq<MultiKey>, failed: set<MultiKey>, out: MultiOutcome)
    requires ValidSetup(setup) && forall k | k in order :: k in multi && k.token.Some?
  {
    && (forall k :: k in out.failed <==>
          k in failed || (k in order && BatchError(setup, allowances, k, multi[k]).Some?))
    && |out.s.txs| == |s.txs| + CommittedSum(setup, allowances, multi, order)
    && forall k | k in order :: PlacedSomewhere(setup, allowances, k, multi[k], out.s, |s.txs|)
  }

  /** The first key's batch stays in place while the others run. */
  lemma FirstPlaced(setup: PaymentSetup, allowances: Allowances, s: State, s1: State, s2: State, multi: MultiMap,
                    order: seq<MultiKey>)
    requires ValidSetup(setup) && MultiReady(s, multi, order) && order != [] && order[0] !in order[1..]
    requires s1 == AfterBatch(BatchMulti(setup, allowances, order[0], s, multi[order[0]]))
    requires Evolves(s, s1) && MultiFrame(s1, s2, multi, order[1..])
    ensures PlacedSomewhere(setup, allowances, order[0], multi[order[0]], s2, |s.txs|)
    ensures |s1.txs| == |s.txs| + Committed(setup, allowances, order[0], multi[order[0]])
  {
    hide BatchPlaced, Committed, BatchMulti, Inv, OrdersOk;
    var key := order[0];
    assert key in order;
    PlacedAfter(setup, allowances, key, s, multi[key]);
    PlacedRows(setup, allowances, key, multi[key], s1, |s.txs|);
    forall row | row in AllRows(multi[key])
      ensures row.id < |s2.transfers| && s2.transfers[row.id].txId == s1.transfers[row.id].txId
    {
      SameMulti(s, s1, multi[key], row);
      FirstKeyStays(s, s1, s2, multi, order, row);
    }
    PlacedStays(setup, allowances, key, multi[key], s1, s2, |s.txs|);
  }

  lemma SameMulti(s: State, s1: State, orders: seq<Order>, row: Transfer)
    requires OrdersOk(s.transfers, orders) && row in AllRows(orders) && Evolves(s, s1)
    ensures row.id < |s1.transfers| && s1.transfers[row.id].Multi() == row.Multi()
  {
    FreshRow(s.transfers, orders, row);
    assert SameTransfer(s.transfers[row.id], s1.transfers[row.id]);
  }

  lemma FirstBatch(setup: PaymentSetup, allowances: Allowances, s: State, multi: MultiMap, order: seq<MultiKey>)
    requires ValidSetup(setup) && MultiReady(s, multi, order) && order != []
    ensures var b := BatchMulti(setup, allowances, order[0], s, multi[order[0]]);
            && b.error == BatchError(setup, allowances, order[0], multi[order[0]])
            && Evolves(s, AfterBatch(b)) && MultiReady(AfterBatch(b), multi, order[1..])
    ensures order[0] !in order[1..] && forall k | k in order :: k in multi && k.token.Some?
  {
    hide BatchMulti, BatchError, BatchPlaced, Committed, AfterBatch, Inv, OrdersOk, OfKey, Together, Progress;
    hide AllLinked, AllMarked, Evolves;
    var key := order[0];
    assert key in order;
    var s1 := AfterBatch(BatchMulti(setup, allowances, key, s, multi[key]));
    MultiStep(setup, allowances, key, s, multi[key]);
    BatchPlan(setup, allowances, key, s, multi[key]);
    MultiStepReady(s, s1, multi, order);
  }

  lemma RunUnfolds(setup: PaymentSetup, allowances: Allowances, s: State, multi: MultiMap, order: seq<MultiKey>,
                   failed: set<MultiKey>)
    requires ValidSetup(setup) && order != [] && forall k | k in order :: k in multi
    ensures forall k | k in order[1..] :: k in multi
    ensures var b := BatchMulti(setup, allowances, order[0], s, multi[order[0]]);
            if b.error.Some? && b.error.value.NoAllowanceFound?
            then MultiRun(setup, allowances, s, multi, order, failed) == MultiOutcome(b.s, failed, b.error)
            else MultiRun(setup, allowances, s, multi, order, failed) ==
                 MultiRun(setup, allowances, AfterBatch(b), multi, order[1..],
                          if b.error.None? then failed else failed + {order[0]})
  {
    hide BatchMulti;
  }

  /** The run fails as planned; if no allowance is missing, every batch is placed as planned, for any order. */
  lemma {:induction false} MultiPlan(setup: PaymentSetup, allowances: Allowances, s: State, multi: MultiMap,
                                     order: seq<MultiKey>, failed: set<MultiKey>, out: MultiOutcome)
    requires ValidSetup(setup) && MultiReady(s, multi, order) && forall k | k in order :: k !in failed
    requires out == MultiRun(setup, allowances, s, multi, order, failed)
    ensures out.error.None? <==> forall k | k in order :: !LacksAllowance(setup, allowances, multi, k)
    ensures out.error.None? ==> MultiAsPlanned(setup, allowances, s, multi, order, failed, out)
    decreases |order|
  {
    if order != [] {
      hide MultiReady, MultiRun, AfterBatch, BatchMulti, BatchError, Evolves, MultiAsPlanned, LacksAllowance;
      var key, rest := order[0], order[1..];
      assert key in order && order == [key] + rest;
      var b := BatchMulti(setup, allowances, key, s, multi[key]);
      var s1 := AfterBatch(b);
      FirstBatch(setup, allowances, s, multi, order);
      RunUnfolds(setup, allowances, s, multi, order, failed);
      ErrorsOfAll(setup, allowances, multi, order);
      if !(b.error.Some? && b.error.value.NoAllowanceFound?) {
        var failed1 := if b.error.None? then failed else failed + {key};
        forall k | k in rest ensures k in order && k !in failed1 {}
        MultiPlan(setup, allowances, s1, multi, rest, failed1, out);
        if out.error.None? { MultiPlanMore(setup, allowances, s, s1, multi, order, failed, failed1, out); }
      }
    }
  }

  /** Whether an allowance is missing, key by key. */
  lemma ErrorsOfAll(setup: PaymentSetup, allowances: Allowances, multi: MultiMap, order: seq<MultiKey>)
    requires ValidSetup(setup) && order != [] && order[0] in multi
    ensures var first := BatchError(setup, allowances, order[0], multi[order[0]]);
            (forall k | k in order :: !LacksAllowance(setup, allowances, multi, k)) <==>
            !(first.Some? && first.value.NoAllowanceFound?) &&
            forall k | k in order[1..] :: !LacksAllowance(setup, allowances, multi, k)
  {
    hide BatchError;
    assert order == [order[0]] + order[1..];
    assert LacksAllowance(setup, allowances, multi, order[0]) <==>
           BatchError(setup, allowances, order[0], multi[order[0]]).Some? &&
           BatchError(setup, allowances, order[0], multi[order[0]]).value.NoAllowanceFound?;
  }

  lemma MultiPlanMore(setup: PaymentSetup, allowances: Allowances, s: State, s1: State, multi: MultiMap,
                      order: seq<MultiKey>, failed: set<MultiKey>, failed1: set<MultiKey>, out: MultiOutcome)
    requires ValidSetup(setup) && MultiReady(s, multi, order) && order != [] && order[0] !in order[1..]
    requires s1 == AfterBatch(BatchMulti(setup, allowances, order[0], s, multi[order[0]]))
    requires Evolves(s, s1) && MultiReady(s1, multi, order[1..])
    requires failed1 == if BatchError(setup, allowances, order[0], multi[order[0]]).None? then failed
                        else failed + {order[0]}
    requires forall k | k in order[1..] :: k !in failed1
    requires out == MultiRun(setup, allowances, s1, multi, order[1..], failed1)
    requires MultiAsPlanned(setup, allowances, s1, multi, order[1..], failed1, out)
    ensures MultiAsPlanned(setup, allowances, s, multi, order, failed, out)
  {
    hide BatchMulti, BatchError, AfterBatch, MultiRun, MultiFrame, MultiRows, PlacedSomewhere, Committed;
    hide MultiAsPlanned, Inv, OrdersOk, OfKey, Evolves;
    MultiRunFacts(setup, allowances, s1, multi, order[1..], failed1, out);
    FirstPlaced(setup, allowances, s, s1, out.s, multi, order);
    MultiPlanStep(setup, allowances, s, s1, multi, order, failed, failed1, out);
  }

  lemma MultiPlanStep(setup: PaymentSetup, allowances: Allowances, s: State, s1: State, multi: MultiMap,
                      order: seq<MultiKey>, failed: set<MultiKey>, failed1: set<MultiKey>, out: MultiOutcome)
    requires ValidSetup(setup) && order != [] && forall k | k in order :: k in multi && k.token.Some?
    requires forall k | k in order[1..] :: k in multi && k.token.Some?
    requires failed1 == if BatchError(setup, allowances, order[0], multi[order[0]]).None? then failed
                        else failed + {order[0]}
    requires |s1.txs| == |s.txs| + Committed(setup, allowances, order[0], multi[order[0]])
    requires PlacedSomewhere(setup, allowances, order[0], multi[order[0]], out.s, |s.txs|)
    requires MultiAsPlanned(setup, allowances, s1, multi, order[1..], failed1, out)
    ensures MultiAsPlanned(setup, allowances, s, multi, order, failed, out)
  {
    hide BatchError, Committed, BatchPlaced;
    assert order == [order[0]] + order[1..] && order[0] in order;
    forall k | k in order ensures PlacedSomewhere(setup, allowances, k, multi[k], out.s, |s.txs|) {
      if k != order[0] {
        assert k in order[1..];
        assert PlacedSomewhere(setup, allowances, k, multi[k], out.s, |s1.txs|);
      }
    }
  }
}
