/** Batching preserves meaning: the exact condition, told from the pending rows and the settings. */
module Preservation {
  import opened Prelude
  import opened Contracts
  import opened Ledger
  import opened Orders
  import opened Chunks
  import opened Gathering
  import opened GatherFacts
  import opened PostFacts
  import opened GatherTheorems
  import opened Conservation
  import opened Plan
  import opened PlanFacts
  import opened GatherPlan

  // ---- how a row is encoded ----

  /** A token group at position i among its four-part key's groups is paid in packed words. */
  predicate PackedAt(setup: PaymentSetup, keys: seq<Key>, mk: MultiKey, i: nat)
    requires ValidSetup(setup)
  {
    && mk.token.Some? && mk.chainId in setup.chains && i < |KeysOf(keys, mk)|
    && Packs(setup, setup.chains[mk.chainId], mk, SizeAround(|KeysOf(keys, mk)|, setup.chains[mk.chainId].maxAtOnce, i))
  }

  /** The group is owed exactly 2^96 and will be packed. */
  ghost predicate FullAndPacked(setup: PaymentSetup, rows: seq<Transfer>, key: Key)
    requires ValidSetup(setup)
  {
    && RowsSum(KeyRows(setup, rows, key)) == TWO_96
    && exists i: nat :: PackedAt(setup, PayKeys(setup, rows), key.Multi(), i) &&
                        KeysOf(PayKeys(setup, rows), key.Multi())[i] == key
  }

  lemma {:induction false} RowsSumAppend(rows: seq<Transfer>, row: Transfer)
    ensures RowsSum(rows + [row]) == RowsSum(rows) + row.Amount()
  {
    if rows == [] {
      assert rows + [row] == [row] && [row][1..] == [];
    } else {
      assert (rows + [row])[1..] == rows[1..] + [row];
      RowsSumAppend(rows[1..], row);
    }
  }

  /** What a group is owed, counted over the whole table or over the group's rows. */
  lemma {:induction false} GroupOwedIsSum(setup: PaymentSetup, ts: seq<Transfer>, account: Address, chainId: int,
                                          key: Key)
    ensures GroupOwed(setup, ts, account, chainId, key) == RowsSum(KeyRows(setup, Pending(ts, account, chainId), key))
  {
    hide Classify, IsPending;
    if ts != [] {
      var front, last := ts[..|ts| - 1], ts[|ts| - 1];
      var before := Pending(front, account, chainId);
      GroupOwedIsSum(setup, front, account, chainId, key);
      if IsPending(last, account, chainId) {
        assert (before + [last])[..|before|] == before;
        RowsSumAppend(KeyRows(setup, before, key), last);
        assert KeyRows(setup, before, key) + [] == KeyRows(setup, before, key);
      } else {
        assert Pending(ts, account, chainId) == before;
      }
    }
  }

  // ---- which rows get paid ----

  /** A row to be paid whose group, or whose chunk, goes through. */
  ghost predicate GetsPaid(setup: PaymentSetup, allowances: Allowances, rows: seq<Transfer>, row: Transfer)
    requires ValidSetup(setup)
  {
    && Classify(setup, row).Grouped?
    && if row.tokenAddr.None? then !NativeFails(setup, rows, row.KeyOf())
       else RowCommitted(setup, allowances, row.Multi(), PlanOrders(setup, rows, row.Multi()), row)
  }

  function PaidShare(row: Transfer, key: MultiKey, a: Address): nat {
    if row.Multi() == key then Share(row, ToAddress(a)) else 0
  }

  /** Paying one by one the pending transfers that get paid: what is owed to `a` under one four-part key. */
  ghost function OwedToPaid(setup: PaymentSetup, allowances: Allowances, rows: seq<Transfer>, ts: seq<Transfer>,
                            account: Address, chainId: int, key: MultiKey, a: Address): nat
    requires ValidSetup(setup)
  {
    if ts == [] then 0
    else
      var last := ts[|ts| - 1];
      OwedToPaid(setup, allowances, rows, ts[..|ts| - 1], account, chainId, key, a) +
      if IsPending(last, account, chainId) && GetsPaid(setup, allowances, rows, last)
      then PaidShare(last, key, a) else 0
  }

  lemma {:induction false} PointwisePaid(setup: PaymentSetup, allowances: Allowances, rows: seq<Transfer>,
                                         ts: seq<Transfer>, ts': seq<Transfer>, account: Address, chainId: int, lo: nat,
                                         hi: nat, key: MultiKey, a: Address)
    requires ValidSetup(setup) && |ts| == |ts'|
    requires forall i | 0 <= i < |ts| ::
               RangeShare(ts'[i], lo, hi, key, a) ==
               if IsPending(ts[i], account, chainId) && GetsPaid(setup, allowances, rows, ts[i])
               then PaidShare(ts[i], key, a) else 0
    ensures RangeTotal(ts', lo, hi, key, a) == OwedToPaid(setup, allowances, rows, ts, account, chainId, key, a)
  {
    hide GetsPaid, PaidShare, RangeShare, IsPending;
    if ts != [] {
      var n := |ts| - 1;
      PointwisePaid(setup, allowances, rows, ts[..n], ts'[..n], account, chainId, lo, hi, key, a);
    }
  }

  lemma {:induction false} PointwiseOwed(setup: PaymentSetup, allowances: Allowances, rows: seq<Transfer>,
                                         ts: seq<Transfer>, account: Address, chainId: int, key: MultiKey, a: Address)
    requires ValidSetup(setup)
    requires forall i | 0 <= i < |ts| && IsPending(ts[i], account, chainId) ::
               GetsPaid(setup, allowances, rows, ts[i]) <==> Classify(setup, ts[i]).Grouped?
    ensures OwedToPaid(setup, allowances, rows, ts, account, chainId, key, a) ==
            Owed(setup, ts, account, chainId, key, a)
  {
    hide GetsPaid, IsPending, Classify, Share;
    if ts != [] {
      PointwiseOwed(setup, allowances, rows, ts[..|ts| - 1], account, chainId, key, a);
    }
  }

  lemma ShareOfPlanned(setup: PaymentSetup, allowances: Allowances, rows: seq<Transfer>, row: Transfer, row': Transfer,
                       lo: nat, hi: nat, key: MultiKey, a: Address)
    requires ValidSetup(setup) && row.txId.None? && PlannedFate(setup, allowances, rows, row, row', lo, hi)
    requires Classify(setup, row).Grouped? && row.tokenAddr.Some? ==>
               (row'.txId.Some? <==> RowCommitted(setup, allowances, row.Multi(),
                                                  PlanOrders(setup, rows, row.Multi()), row))
    ensures RangeShare(row', lo, hi, key, a) ==
            if GetsPaid(setup, allowances, rows, row) then PaidShare(row, key, a) else 0
  {
    hide NativeFails, RowCommitted, PlanOrders, PlanError;
    if Classify(setup, row).Closing? {
      ClosingOwesNothing(setup, row);
    }
  }

  lemma ClosingOwesNothing(setup: PaymentSetup, row: Transfer)
    requires Classify(setup, row).Closing?
    ensures row.Amount() == 0
  {
  }

  /** What a row ends up being paid. */
  lemma RowIsPaid(setup: PaymentSetup, allowances: Allowances, account: Address, chainId: int, s: State, g: Gather,
                  i: nat, key: MultiKey, a: Address)
    requires ValidSetup(setup) && Inv(s) && IsGather(setup, allowances, account, chainId, s, g) && g.Error().None?
    requires i < |s.transfers| && i < |g.multi.s.transfers|
    ensures RangeShare(g.multi.s.transfers[i], |s.txs|, |g.multi.s.txs|, key, a) ==
            if IsPending(s.transfers[i], account, chainId) &&
               GetsPaid(setup, allowances, Pending(s.transfers, account, chainId), s.transfers[i])
            then PaidShare(s.transfers[i], key, a) else 0
  {
    hide Inv, IsGather, Pending, GetsPaid, PlannedFate, Classify;
    WellFormedLedger(s);
    var row := s.transfers[i];
    GatherFollowsPlan(setup, allowances, account, chainId, s, g, i);
    if IsPending(row, account, chainId) {
      PendingComplete(s.transfers, account, chainId, i);
      if Classify(setup, row).Grouped? && row.tokenAddr.Some? {
        LinkedIffCommitted(setup, allowances, account, chainId, s, g, row);
      }
      ShareOfPlanned(setup, allowances, Pending(s.transfers, account, chainId), row, g.multi.s.transfers[i], |s.txs|,
                     |g.multi.s.txs|, key, a);
    }
  }

  // ---- how its transaction is encoded ----

  /** The transaction of a token row is packed exactly as its position says. */
  lemma RowPacking(setup: PaymentSetup, allowances: Allowances, account: Address, chainId: int, s: State, g: Gather,
                   row: Transfer, i: nat, t: nat)
    requires ValidSetup(setup) && Inv(s) && IsGather(setup, allowances, account, chainId, s, g) && g.Error().None?
    requires row in Pending(s.transfers, account, chainId) && Classify(setup, row).Grouped? && row.tokenAddr.Some?
    requires i < |KeysOf(PayKeys(setup, Pending(s.transfers, account, chainId)), row.Multi())|
    requires KeysOf(PayKeys(setup, Pending(s.transfers, account, chainId)), row.Multi())[i] == row.KeyOf()
    requires Linked(g.multi.s.transfers, row.id, t)
    ensures t < |g.multi.s.txs|
    ensures g.multi.s.txs[t].call.IsPacked() <==>
            PackedAt(setup, PayKeys(setup, Pending(s.transfers, account, chainId)), row.Multi(), i)
  {
    hide Inv, IsGather, Pending, PayKeys, BatchPlaced, Classify, Packs, PlanOrders;
    var rows, mk := Pending(s.transfers, account, chainId), row.Multi();
    GroupedIsPaid(setup, rows, row);
    BatchesArePlaced(setup, allowances, account, chainId, s, g, mk);
    var lo: nat :| BatchPlaced(setup, allowances, mk, PlanOrders(setup, rows, mk), g.multi.s, lo);
    RowOfOrder(setup, rows, row, i);
    PlacedPacking(setup, allowances, mk, PlanOrders(setup, rows, mk), g.multi.s, lo, row, i, t);
  }

  lemma RowOfOrder(setup: PaymentSetup, rows: seq<Transfer>, row: Transfer, i: nat)
    requires row in rows && Classify(setup, row).Grouped?
    requires i < |KeysOf(PayKeys(setup, rows), row.Multi())| &&
             KeysOf(PayKeys(setup, rows), row.Multi())[i] == row.KeyOf()
    ensures var orders := PlanOrders(setup, rows, row.Multi());
            && |orders| == |KeysOf(PayKeys(setup, rows), row.Multi())|
            && row in orders[i].rows && row in AllRows(orders)
            && forall j: nat | j < |orders| && row in orders[j].rows :: j == i
  {
    hide Classify;
    var keys, mk := PayKeys(setup, rows), row.Multi();
    KeyRowsFacts(setup, rows, row.KeyOf());
    PayKeysFacts(setup, rows);
    KeysOfFacts(keys, mk);
    var orders := PlanOrders(setup, rows, mk);
    forall j: nat | j < |orders| && row in orders[j].rows ensures j == i {
      KeyRowsFacts(setup, rows, KeysOf(keys, mk)[j]);
    }
    OrderRowsIn(orders, orders[i], row);
  }

  lemma PlacedPacking(setup: PaymentSetup, allowances: Allowances, mk: MultiKey, orders: seq<Order>, s: State, lo: nat,
                      row: Transfer, i: nat, t: nat)
    requires ValidSetup(setup) && mk.token.Some? && BatchPlaced(setup, allowances, mk, orders, s, lo)
    requires i < |orders| && row in AllRows(orders) && Linked(s.transfers, row.id, t)
    requires forall j: nat | j < |orders| && row in orders[j].rows :: j == i
    ensures mk.chainId in setup.chains && t < |s.txs|
    ensures s.txs[t].call.IsPacked() <==>
            Packs(setup, setup.chains[mk.chainId], mk,
                  SizeAround(|orders|, setup.chains[mk.chainId].maxAtOnce, i))
  {
    hide Committed, ChunkTx, Packs;
    var chain := setup.chains[mk.chainId];
    var k: nat :| k < Committed(setup, allowances, mk, orders) && k < ChunkCount(|orders|, chain.maxAtOnce) &&
                  row in AllRows(ChunkAt(orders, chain.maxAtOnce, k));
    var j := ChunkRowAt(orders, chain.maxAtOnce, k, row);
    assert ChunkPlaced(setup, mk, orders, s, lo, k);
    var chunk := ChunkAt(orders, chain.maxAtOnce, k);
    assert row.id in Ids(AllRows(chunk));
    assert Linked(s.transfers, row.id, lo + k);
    ChunkPacking(setup, chain, mk, chunk);
  }

  lemma ChunkPacking(setup: PaymentSetup, chain: ChainSetup, mk: MultiKey, chunk: seq<Order>)
    requires chunk != [] && mk.token.Some? && ChunkTx(setup, chain, mk, chunk).Ok?
    ensures ChunkTx(setup, chain, mk, chunk).value.call.IsPacked() <==> Packs(setup, chain, mk, |chunk|)
  {
    hide EncodeChunk;
    EncodingPacks(setup, chain, mk, Receivers(chunk), Sums(chunk), AnyFinish(AllRows(chunk)));
  }

  /** The transaction of a row in the chain's own currency is never packed. */
  lemma NativeRowPlain(setup: PaymentSetup, allowances: Allowances, account: Address, chainId: int, s: State, g: Gather,
                       row: Transfer, t: nat)
    requires ValidSetup(setup) && Inv(s) && IsGather(setup, allowances, account, chainId, s, g) && g.Error().None?
    requires row in Pending(s.transfers, account, chainId) && Classify(setup, row).Grouped? && row.tokenAddr.None?
    requires Linked(g.multi.s.transfers, row.id, t)
    ensures t < |g.multi.s.txs| && !g.multi.s.txs[t].call.IsPacked()
  {
    hide Inv, IsGather, Pending, PayKeys, Classify, NativeTx, PlanError, RowCommitted, PlanOrders;
    var rows, key := Pending(s.transfers, account, chainId), row.KeyOf();
    GroupedIsPaid(setup, rows, row);
    WellFormedLedger(s);
    PendingSound(s.transfers, account, chainId);
    GatherFollowsPlan(setup, allowances, account, chainId, s, g, row.id);
    var u := NativeIsPlaced(setup, allowances, account, chainId, s, g, key);
    KeyRowsFacts(setup, rows, key);
    assert row.id in Ids(KeyRows(setup, rows, key));
    assert Linked(g.multi.s.transfers, row.id, u);
    NativeTxPlain(setup, key, KeyRows(setup, rows, key));
  }

  lemma NativeTxPlain(setup: PaymentSetup, key: Key, rows: seq<Transfer>)
    requires NativeTx(setup, key, rows).Ok?
    ensures !NativeTx(setup, key, rows).value.call.IsPacked()
  {
  }

  // ---- the exact condition ----

  /** A pending row that gets paid, and its new transaction. */
  lemma PaidRow(setup: PaymentSetup, allowances: Allowances, account: Address, chainId: int, s: State, g: Gather,
                row: Transfer) returns (t: nat)
    requires ValidSetup(setup) && Inv(s) && IsGather(setup, allowances, account, chainId, s, g) && g.Error().None?
    requires row in Pending(s.transfers, account, chainId)
    requires GetsPaid(setup, allowances, Pending(s.transfers, account, chainId), row)
    ensures row.id < |s.transfers| && s.transfers[row.id] == row && IsPending(row, account, chainId)
    ensures |s.txs| <= t < |g.multi.s.txs| && Linked(g.multi.s.transfers, row.id, t)
  {
    hide Inv, IsGather, Pending, NativeFails, RowCommitted, PlanOrders, PlanError;
    WellFormedLedger(s);
    PendingSound(s.transfers, account, chainId);
    GatherFollowsPlan(setup, allowances, account, chainId, s, g, row.id);
    t := g.multi.s.transfers[row.id].txId.value;
  }

  lemma Position(keys: seq<Key>, key: Key) returns (i: nat)
    requires key in keys
    ensures i < |KeysOf(keys, key.Multi())| && KeysOf(keys, key.Multi())[i] == key
  {
    KeysOfFacts(keys, key.Multi());
    i :| 0 <= i < |KeysOf(keys, key.Multi())| && KeysOf(keys, key.Multi())[i] == key;
  }

  /** A full, packed group that gets paid makes its transaction overfull. */
  lemma FullIsOverfull(setup: PaymentSetup, allowances: Allowances, account: Address, chainId: int, s: State, g: Gather,
                       row: Transfer)
    requires ValidSetup(setup) && Inv(s) && IsGather(setup, allowances, account, chainId, s, g) && g.Error().None?
    requires row in Pending(s.transfers, account, chainId)
    requires GetsPaid(setup, allowances, Pending(s.transfers, account, chainId), row)
    requires FullAndPacked(setup, Pending(s.transfers, account, chainId), row.KeyOf())
    ensures !NoneOverfull(g.multi.s, |s.txs|, |g.multi.s.txs|)
  {
    hide Inv, IsGather, Pending, PayKeys, PackedAt, KeyRows, LinkedTotal, GroupOwed, Classify, RowCommitted;
    var rows := Pending(s.transfers, account, chainId);
    var i := FullPosition(setup, rows, row.KeyOf());
    var t := PaidRow(setup, allowances, account, chainId, s, g, row);
    RowPacking(setup, allowances, account, chainId, s, g, row, i, t);
    GatherKeepsInv(setup, allowances, account, chainId, s, g);
    TotalIsGroup(setup, allowances, account, chainId, s, g, row.id, t);
    GroupOwedIsSum(setup, s.transfers, account, chainId, row.KeyOf());
    assert Overfull(g.multi.s.transfers, t);
  }

  lemma FullPosition(setup: PaymentSetup, rows: seq<Transfer>, key: Key) returns (i: nat)
    requires ValidSetup(setup) && FullAndPacked(setup, rows, key)
    ensures key.token.Some? && PackedAt(setup, PayKeys(setup, rows), key.Multi(), i)
    ensures i < |KeysOf(PayKeys(setup, rows), key.Multi())| && KeysOf(PayKeys(setup, rows), key.Multi())[i] == key
  {
    i :| PackedAt(setup, PayKeys(setup, rows), key.Multi(), i) && KeysOf(PayKeys(setup, rows), key.Multi())[i] == key;
  }

  /** An overfull transaction comes from a full, packed group. */
  lemma OverfullIsFull(setup: PaymentSetup, allowances: Allowances, account: Address, chainId: int, s: State, g: Gather,
                       t: nat) returns (row: Transfer)
    requires ValidSetup(setup) && Inv(s) && IsGather(setup, allowances, account, chainId, s, g) && g.Error().None?
    requires |s.txs| <= t < |g.multi.s.txs| && g.multi.s.txs[t].call.IsPacked() && Overfull(g.multi.s.transfers, t)
    ensures row in Pending(s.transfers, account, chainId)
    ensures GetsPaid(setup, allowances, Pending(s.transfers, account, chainId), row)
    ensures FullAndPacked(setup, Pending(s.transfers, account, chainId), row.KeyOf())
  {
    hide Inv, IsGather, Pending, PayKeys, PackedAt, KeyRows, LinkedTotal, LinkedShare, GroupOwed, Classify, IsPending;
    hide GetsPaid;
    var rows := Pending(s.transfers, account, chainId);
    GatherKeepsInv(setup, allowances, account, chainId, s, g);
    var text :| LinkedTotal(g.multi.s.transfers, t, ToText(text)) == TWO_96;
    var i0 := PositiveTotal(g.multi.s.transfers, t, ToText(text));
    ShareIsLinked(g.multi.s.transfers, i0, t, ToText(text));
    FirstLinkedRow(setup, allowances, account, chainId, s, g, i0, t, text);
    row := s.transfers[i0];
    PendingComplete(s.transfers, account, chainId, i0);
    RowIsIn(s, i0);
    TotalIsGroup(setup, allowances, account, chainId, s, g, i0, t);
    GroupOwedIsSum(setup, s.transfers, account, chainId, row.KeyOf());
    GroupedIsPaid(setup, rows, row);
    if row.tokenAddr.None? {
      NativeRowPlain(setup, allowances, account, chainId, s, g, row, t);
    } else {
      var i := Position(PayKeys(setup, rows), row.KeyOf());
      RowPacking(setup, allowances, account, chainId, s, g, row, i, t);
      LinkedIffCommitted(setup, allowances, account, chainId, s, g, row);
      assert GetsPaid(setup, allowances, rows, row) by { TokenGetsPaid(setup, allowances, rows, row); }
    }
  }

  lemma TokenGetsPaid(setup: PaymentSetup, allowances: Allowances, rows: seq<Transfer>, row: Transfer)
    requires ValidSetup(setup) && Classify(setup, row).Grouped? && row.tokenAddr.Some?
    ensures GetsPaid(setup, allowances, rows, row) <==>
            RowCommitted(setup, allowances, row.Multi(), PlanOrders(setup, rows, row.Multi()), row)
  {
  }

  lemma ShareIsLinked(ts: seq<Transfer>, i: nat, t: nat, pick: Pick)
    requires i < |ts| && LinkedShare(ts[i], t, pick) > 0
    ensures Linked(ts, i, t)
  {
  }

  /** Nobody who gets paid is owed exactly 2^96 in packed words. */
  ghost predicate NothingPaidFull(setup: PaymentSetup, allowances: Allowances, rows: seq<Transfer>)
    requires ValidSetup(setup)
  {
    forall row | row in rows && GetsPaid(setup, allowances, rows, row) :: !FullAndPacked(setup, rows, row.KeyOf())
  }

  /** Whether a gather makes an overfull transaction can be told from the pending rows, the settings and the
      allowances. */
  lemma OverfullIff(setup: PaymentSetup, allowances: Allowances, account: Address, chainId: int, s: State, g: Gather)
    requires ValidSetup(setup) && Inv(s) && IsGather(setup, allowances, account, chainId, s, g) && g.Error().None?
    ensures NoneOverfull(g.multi.s, |s.txs|, |g.multi.s.txs|) <==>
            NothingPaidFull(setup, allowances, Pending(s.transfers, account, chainId))
  {
    hide Inv, IsGather, Pending, GetsPaid, FullAndPacked;
    var rows := Pending(s.transfers, account, chainId);
    if !NothingPaidFull(setup, allowances, rows) {
      var row :| row in rows && GetsPaid(setup, allowances, rows, row) && FullAndPacked(setup, rows, row.KeyOf());
      FullIsOverfull(setup, allowances, account, chainId, s, g, row);
    }
    if !NoneOverfull(g.multi.s, |s.txs|, |g.multi.s.txs|) {
      var t: nat :| |s.txs| <= t < |g.multi.s.txs| && g.multi.s.txs[t].call.IsPacked() &&
                  Overfull(g.multi.s.transfers, t);
      var row := OverfullIsFull(setup, allowances, account, chainId, s, g, t);
    }
  }

  ghost predicate PaysTheSettled(setup: PaymentSetup, allowances: Allowances, account: Address, chainId: int, s: State,
                                 s': State)
    requires ValidSetup(setup) && |s.txs| <= |s'.txs|
  {
    forall key, a: Address ::
      PaidFor(s', |s.txs|, |s'.txs|, key, a) ==
      OwedToPaid(setup, allowances, Pending(s.transfers, account, chainId), s.transfers, account, chainId, key, a)
  }

  /** The new transactions of an error-free gather, whatever batches and groups fail, pay every receiver, for each
      sender, chain, token and deposit, exactly what the rows that get paid owe, if and only if no packed group among
      them is owed exactly 2^96. */
  lemma SettledIsPaid(setup: PaymentSetup, allowances: Allowances, account: Address, chainId: int, s: State, g: Gather)
    requires ValidSetup(setup) && Inv(s) && IsGather(setup, allowances, account, chainId, s, g) && g.Error().None?
    ensures |s.txs| <= |g.multi.s.txs|
    ensures PaysTheSettled(setup, allowances, account, chainId, s, g.multi.s) <==>
            NothingPaidFull(setup, allowances, Pending(s.transfers, account, chainId))
  {
    hide Inv, IsGather, Pending, GetsPaid, RangeShare, RangeTotal, OwedToPaid, NothingPaidFull, NoneOverfull, Evolves;
    var s', rows := g.multi.s, Pending(s.transfers, account, chainId);
    GatherKeepsInv(setup, allowances, account, chainId, s, g);
    OverfullIff(setup, allowances, account, chainId, s, g);
    RangeConserves(s', |s.txs|, |s'.txs|);
    forall key, a: Address
      ensures RangeTotal(s'.transfers, |s.txs|, |s'.txs|, key, a) ==
              OwedToPaid(setup, allowances, rows, s.transfers, account, chainId, key, a)
    {
      forall i | 0 <= i < |s.transfers|
        ensures RangeShare(s'.transfers[i], |s.txs|, |s'.txs|, key, a) ==
                if IsPending(s.transfers[i], account, chainId) && GetsPaid(setup, allowances, rows, s.transfers[i])
                then PaidShare(s.transfers[i], key, a) else 0
      {
        RowIsPaid(setup, allowances, account, chainId, s, g, i, key, a);
      }
      PointwisePaid(setup, allowances, rows, s.transfers, s'.transfers, account, chainId, |s.txs|, |s'.txs|, key, a);
    }
    assert RangePaid(s', |s.txs|, |s'.txs|) <==> PaysTheSettled(setup, allowances, account, chainId, s, s');
  }

  // ---- when everything can be settled ----

  ghost predicate PaysWhatIsOwed(setup: PaymentSetup, account: Address, chainId: int, s: State, s': State)
    requires |s.txs| <= |s'.txs|
  {
    forall key, a: Address ::
      PaidFor(s', |s.txs|, |s'.txs|, key, a) == Owed(setup, s.transfers, account, chainId, key, a)
  }

  /** Nobody to be paid is owed exactly 2^96 in packed words. */
  ghost predicate NothingFull(setup: PaymentSetup, rows: seq<Transfer>)
    requires ValidSetup(setup)
  {
    forall key | key in PayKeys(setup, rows) :: !FullAndPacked(setup, rows, key)
  }

  /** When nothing fails every row to be paid gets paid. */
  lemma AllGetPaid(setup: PaymentSetup, allowances: Allowances, account: Address, chainId: int, s: State, g: Gather,
                   row: Transfer)
    requires ValidSetup(setup) && Inv(s) && IsGather(setup, allowances, account, chainId, s, g)
    requires Succeeds(setup, allowances, Pending(s.transfers, account, chainId)) && g.Error().None?
    requires row in Pending(s.transfers, account, chainId)
    ensures GetsPaid(setup, allowances, Pending(s.transfers, account, chainId), row) <==>
            Classify(setup, row).Grouped?
  {
    hide Inv, IsGather, Pending, NativeFails, RowCommitted, PlanOrders, BatchError, Stops, PayKeys, Classify;
    var rows := Pending(s.transfers, account, chainId);
    if Classify(setup, row).Grouped? {
      GroupedIsPaid(setup, rows, row);
      if row.tokenAddr.Some? {
        WellFormedLedger(s);
        PendingSound(s.transfers, account, chainId);
        GatherFollowsPlan(setup, allowances, account, chainId, s, g, row.id);
        LinkedIffCommitted(setup, allowances, account, chainId, s, g, row);
        assert PlanError(setup, allowances, rows, row.Multi()).None?;
      }
    }
  }

  lemma FullOrPaidFull(setup: PaymentSetup, allowances: Allowances, rows: seq<Transfer>)
    requires ValidSetup(setup)
    requires forall row | row in rows :: GetsPaid(setup, allowances, rows, row) <==> Classify(setup, row).Grouped?
    ensures NothingFull(setup, rows) <==> NothingPaidFull(setup, allowances, rows)
  {
    hide GetsPaid, Classify, FullAndPacked, PayKeys;
    PayKeysFacts(setup, rows);
    forall row | row in rows && Classify(setup, row).Grouped? ensures Pays(setup, rows, row.KeyOf()) {}
  }

  /** Meaning preserved: when the pending rows can all be settled, the gather pays every receiver, for each sender,
      chain, token and deposit, exactly what paying the rows one by one would, for every chunk size, encoding and
      hash map order, if and only if no group that will be packed is owed exactly 2^96. */
  lemma GatherConserves(setup: PaymentSetup, allowances: Allowances, account: Address, chainId: int, s: State,
                        g: Gather)
    requires ValidSetup(setup) && Inv(s) && IsGather(setup, allowances, account, chainId, s, g)
    requires Succeeds(setup, allowances, Pending(s.transfers, account, chainId))
    ensures |s.txs| <= |g.multi.s.txs|
    ensures PaysWhatIsOwed(setup, account, chainId, s, g.multi.s) <==>
            NothingFull(setup, Pending(s.transfers, account, chainId))
  {
    hide Inv, IsGather, Pending, NothingFull, NothingPaidFull, Succeeds, GetsPaid, OwedToPaid, Owed, PaidFor, Classify;
    hide IsPending;
    var rows := Pending(s.transfers, account, chainId);
    GatherErrors(setup, allowances, account, chainId, s, g);
    SettledIsPaid(setup, allowances, account, chainId, s, g);
    forall row | row in rows ensures GetsPaid(setup, allowances, rows, row) <==> Classify(setup, row).Grouped? {
      AllGetPaid(setup, allowances, account, chainId, s, g, row);
    }
    FullOrPaidFull(setup, allowances, rows);
    forall i | 0 <= i < |s.transfers| && IsPending(s.transfers[i], account, chainId) ensures s.transfers[i] in rows {
      PendingComplete(s.transfers, account, chainId, i);
    }
    forall key, a: Address ensures OwedToPaid(setup, allowances, rows, s.transfers, account, chainId, key, a) ==
                                   Owed(setup, s.transfers, account, chainId, key, a) {
      PointwiseOwed(setup, allowances, rows, s.transfers, account, chainId, key, a);
    }
  }

  /** The same for one receiver: nobody is paid less or more unless some packed group is owed exactly 2^96. */
  lemma GatherPaysEverybody(setup: PaymentSetup, allowances: Allowances, account: Address, chainId: int, s: State,
                            g: Gather, key: MultiKey, a: Address)
    requires ValidSetup(setup) && Inv(s) && IsGather(setup, allowances, account, chainId, s, g)
    requires Succeeds(setup, allowances, Pending(s.transfers, account, chainId))
    requires NothingFull(setup, Pending(s.transfers, account, chainId))
    ensures |s.txs| <= |g.multi.s.txs|
    ensures PaidFor(g.multi.s, |s.txs|, |g.multi.s.txs|, key, a) == Owed(setup, s.transfers, account, chainId, key, a)
  {
    hide Inv, IsGather, Pending, NothingFull, Succeeds;
    GatherConserves(setup, allowances, account, chainId, s, g);
  }

  /** Groups in the chain's own currency and unpacked batches never stand in the way, whatever they are owed. */
  lemma UnpackedNeverFull(setup: PaymentSetup, rows: seq<Transfer>, key: Key)
    requires ValidSetup(setup) && (key.token.None? || (key.deposit.None? && setup.useUnpackedMethod))
    ensures !FullAndPacked(setup, rows, key)
  {
  }

  /** So with the unpacked method and without deposits a gather that settles everything pays exactly what is owed. */
  lemma UnpackedConserves(setup: PaymentSetup, allowances: Allowances, account: Address, chainId: int, s: State,
                          g: Gather)
    requires ValidSetup(setup) && Inv(s) && IsGather(setup, allowances, account, chainId, s, g)
    requires Succeeds(setup, allowances, Pending(s.transfers, account, chainId))
    requires forall row | row in Pending(s.transfers, account, chainId) ::
               row.tokenAddr.None? || (row.depositId.None? && setup.useUnpackedMethod)
    ensures |s.txs| <= |g.multi.s.txs| && PaysWhatIsOwed(setup, account, chainId, s, g.multi.s)
  {
    hide Inv, IsGather, Pending, Succeeds, PayKeys, FullAndPacked, PaysWhatIsOwed, Classify;
    var rows := Pending(s.transfers, account, chainId);
    GatherConserves(setup, allowances, account, chainId, s, g);
    PayKeysFacts(setup, rows);
    forall key | key in PayKeys(setup, rows) ensures !FullAndPacked(setup, rows, key) {
      assert Pays(setup, rows, key);
      UnpackedNeverFull(setup, rows, key);
    }
  }
}
