/** Batching preserves meaning: what the new transactions pay is what the pending transfers owe. */
module Conservation {
  import opened Prelude
  import opened Contracts
  import opened Ledger
  import opened Orders
  import opened Chunks
  import opened Gathering
  import opened GatherFacts
  import opened PostFacts
  import opened MultiFacts
  import opened GatherTheorems

  /** Paying the pending transfers one by one: what is owed to `a` under one four-part key. */
  function OwedShare(setup: PaymentSetup, row: Transfer, account: Address, chainId: int, key: MultiKey,
                      a: Address): nat {
    if IsPending(row, account, chainId) && Classify(setup, row).Grouped? && row.Multi() == key
    then Share(row, ToAddress(a)) else 0
  }

  function Owed(setup: PaymentSetup, ts: seq<Transfer>, account: Address, chainId: int, key: MultiKey,
                a: Address): nat {
    if ts == [] then 0
    else Owed(setup, ts[..|ts| - 1], account, chainId, key, a) +
         OwedShare(setup, ts[|ts| - 1], account, chainId, key, a)
  }

  /** What the rows linked to transactions lo..hi-1 owe to `a` under one key. */
  function RangeShare(row: Transfer, lo: nat, hi: nat, key: MultiKey, a: Address): nat {
    if row.txId.Some? && lo <= row.txId.value < hi && row.Multi() == key then Share(row, ToAddress(a)) else 0
  }

  function RangeTotal(ts: seq<Transfer>, lo: nat, hi: nat, key: MultiKey, a: Address): nat {
    if ts == [] then 0
    else RangeTotal(ts[..|ts| - 1], lo, hi, key, a) + RangeShare(ts[|ts| - 1], lo, hi, key, a)
  }

  ghost predicate CarriesKey(ts: seq<Transfer>, t: nat, key: MultiKey) {
    exists i :: Linked(ts, i, t) && ts[i].Multi() == key
  }

  /** What transaction t pays to `a` on behalf of one key. */
  ghost function TxPays(s: State, t: nat, key: MultiKey, a: Address): nat
    requires t < |s.txs|
  {
    if CarriesKey(s.transfers, t, key) then Paid(Payouts(s.txs[t]), a) else 0
  }

  /** What transactions lo..hi-1 pay to `a` on behalf of one key. */
  ghost function PaidFor(s: State, lo: nat, hi: nat, key: MultiKey, a: Address): nat
    requires lo <= hi <= |s.txs|
    decreases hi - lo
  {
    if lo == hi then 0 else PaidFor(s, lo, hi - 1, key, a) + TxPays(s, hi - 1, key, a)
  }

  // ---- transactions pay their rows ----

  lemma {:induction false} RangeSplit(ts: seq<Transfer>, lo: nat, mid: nat, hi: nat, key: MultiKey, a: Address)
    requires lo <= mid <= hi
    ensures RangeTotal(ts, lo, hi, key, a) == RangeTotal(ts, lo, mid, key, a) + RangeTotal(ts, mid, hi, key, a)
  {
    if ts != [] { RangeSplit(ts[..|ts| - 1], lo, mid, hi, key, a); }
  }

  lemma {:induction false} EmptyRange(ts: seq<Transfer>, lo: nat, key: MultiKey, a: Address)
    ensures RangeTotal(ts, lo, lo, key, a) == 0
  {
    if ts != [] { EmptyRange(ts[..|ts| - 1], lo, key, a); }
  }

  /** If every row linked to t has the key, the key's share of t is all of it; if none has it, nothing. */
  lemma {:induction false} OneTxRange(ts: seq<Transfer>, t: nat, key: MultiKey, a: Address, has: bool)
    requires forall row | row in ts && row.txId == Some(t) :: row.Multi() == key <==> has
    ensures RangeTotal(ts, t, t + 1, key, a) == if has then LinkedTotal(ts, t, ToAddress(a)) else 0
  {
    if ts != [] { OneTxRange(ts[..|ts| - 1], t, key, a, has); }
  }

  lemma TxRange(s: State, t: nat, key: MultiKey, a: Address)
    requires Inv(s) && t < |s.txs|
    ensures var total := RangeTotal(s.transfers, t, t + 1, key, a);
            && TxPays(s, t, key, a) <= total
            && (!(s.txs[t].call.IsPacked() && Overfull(s.transfers, t)) ==> TxPays(s, t, key, a) == total)
            && (CarriesKey(s.transfers, t, key) ==> total == LinkedTotal(s.transfers, t, ToAddress(a)))
  {
    var has := CarriesKey(s.transfers, t, key);
    assert TxOk(s.transfers, t, s.txs[t]);
    forall row | row in s.transfers && row.txId == Some(t) ensures row.Multi() == key <==> has {
      var i :| 0 <= i < |s.transfers| && s.transfers[i] == row;
      assert Linked(s.transfers, i, t);
    }
    OneTxRange(s.transfers, t, key, a, has);
  }

  /** No transaction in the range is packed with a receiver owed exactly 2^96. */
  ghost predicate NoneOverfull(s: State, lo: nat, hi: nat) {
    forall t | lo <= t < hi && t < |s.txs| :: !(s.txs[t].call.IsPacked() && Overfull(s.transfers, t))
  }

  /** In every ledger: a range of transactions never pays more than its rows owe, and pays exactly that if
      none of them is overfull. */
  lemma {:induction false} RangePays(s: State, lo: nat, hi: nat, key: MultiKey, a: Address)
    requires Inv(s) && lo <= hi <= |s.txs|
    ensures PaidFor(s, lo, hi, key, a) <= RangeTotal(s.transfers, lo, hi, key, a)
    ensures NoneOverfull(s, lo, hi) ==> PaidFor(s, lo, hi, key, a) == RangeTotal(s.transfers, lo, hi, key, a)
    decreases hi - lo
  {
    hide Inv, RangeTotal;
    if lo == hi {
      EmptyRange(s.transfers, lo, key, a);
    } else {
      RangePays(s, lo, hi - 1, key, a);
      RangeSplit(s.transfers, lo, hi - 1, hi, key, a);
      TxRange(s, hi - 1, key, a);
    }
  }

  /** An overfull packed transaction makes the range pay somebody strictly less than owed. */
  lemma {:induction false} RangeUnderpays(s: State, lo: nat, hi: nat, t: nat, key: MultiKey, a: Address)
    requires Inv(s) && lo <= t < hi <= |s.txs|
    requires CarriesKey(s.transfers, t, key)
    requires Paid(Payouts(s.txs[t]), a) < LinkedTotal(s.transfers, t, ToAddress(a))
    ensures PaidFor(s, lo, hi, key, a) < RangeTotal(s.transfers, lo, hi, key, a)
    decreases hi - lo
  {
    hide Inv, RangeTotal, LinkedTotal;
    RangeSplit(s.transfers, lo, hi - 1, hi, key, a);
    TxRange(s, hi - 1, key, a);
    if t == hi - 1 { RangePays(s, lo, hi - 1, key, a); }
    else { RangeUnderpays(s, lo, hi - 1, t, key, a); }
  }

  ghost predicate RangePaid(s: State, lo: nat, hi: nat)
    requires lo <= hi <= |s.txs|
  {
    forall key, a: Address :: PaidFor(s, lo, hi, key, a) == RangeTotal(s.transfers, lo, hi, key, a)
  }

  /** Paid equals owed for every key and address exactly when nothing in the range is overfull. */
  lemma RangeConserves(s: State, lo: nat, hi: nat)
    requires Inv(s) && lo <= hi <= |s.txs|
    ensures RangePaid(s, lo, hi) <==> NoneOverfull(s, lo, hi)
  {
    if NoneOverfull(s, lo, hi) {
      forall key, a: Address ensures PaidFor(s, lo, hi, key, a) == RangeTotal(s.transfers, lo, hi, key, a) {
        RangePays(s, lo, hi, key, a);
      }
    } else {
      var t :| lo <= t < hi && t < |s.txs| && s.txs[t].call.IsPacked() && Overfull(s.transfers, t);
      assert TxOk(s.transfers, t, s.txs[t]);
      var i :| Linked(s.transfers, i, t);
      var a: Address :| Paid(Payouts(s.txs[t]), a) != LinkedTotal(s.transfers, t, ToAddress(a));
      RangeUnderpays(s, lo, hi, t, s.transfers[i].Multi(), a);
    }
  }

  // ---- the groups behind the new transactions ----

  /** What one receiver group of pending transfers adds up to. */
  function GroupShare(setup: PaymentSetup, row: Transfer, account: Address, chainId: int, key: Key): nat {
    if IsPending(row, account, chainId) && Classify(setup, row).Grouped? && row.KeyOf() == key then row.Amount() else 0
  }

  function GroupOwed(setup: PaymentSetup, ts: seq<Transfer>, account: Address, chainId: int, key: Key): nat {
    if ts == [] then 0
    else GroupOwed(setup, ts[..|ts| - 1], account, chainId, key) +
         GroupShare(setup, ts[|ts| - 1], account, chainId, key)
  }

  lemma {:induction false} PointwiseGroup(setup: PaymentSetup, ts: seq<Transfer>, ts': seq<Transfer>, account: Address,
                                          chainId: int, t: nat, key: Key)
    requires |ts| == |ts'|
    requires forall i | 0 <= i < |ts| ::
               LinkedShare(ts'[i], t, ToText(key.receiver)) == GroupShare(setup, ts[i], account, chainId, key)
    ensures LinkedTotal(ts', t, ToText(key.receiver)) == GroupOwed(setup, ts, account, chainId, key)
  {
    if ts != [] {
      var n := |ts| - 1;
      PointwiseGroup(setup, ts[..n], ts'[..n], account, chainId, t, key);
    }
  }

  lemma {:induction false} PositiveTotal(ts: seq<Transfer>, t: nat, pick: Pick) returns (i: nat)
    requires LinkedTotal(ts, t, pick) > 0
    ensures i < |ts| && LinkedShare(ts[i], t, pick) > 0
  {
    var n := |ts| - 1;
    if LinkedShare(ts[n], t, pick) > 0 { i := n; } else { i := PositiveTotal(ts[..n], t, pick); }
  }

  /** Pending transfers of one receiver group always end in the same transaction. */
  lemma GroupTogether(setup: PaymentSetup, allowances: Allowances, account: Address, chainId: int, s: State, g: Gather,
                      i: nat, j: nat)
    requires ValidSetup(setup) && Inv(s) && IsGather(setup, allowances, account, chainId, s, g) && g.Error().None?
    requires i < |s.transfers| && j < |s.transfers|
    requires IsPending(s.transfers[i], account, chainId) && IsPending(s.transfers[j], account, chainId)
    requires Classify(setup, s.transfers[i]).Grouped? && Classify(setup, s.transfers[j]).Grouped?
    requires s.transfers[i].KeyOf() == s.transfers[j].KeyOf()
    ensures i < |g.multi.s.transfers| && j < |g.multi.s.transfers|
    ensures g.multi.s.transfers[i].txId == g.multi.s.transfers[j].txId
  {
    hide PreRun, SortedPass, MultiRun, Pending;
    PreStage(setup, s, account, chainId, g.pre);
    PassStage(setup, g.pre, g.keys, g.pass);
    MultiStage(setup, allowances, g.pass, g.order, g.multi);
    PendingComplete(s.transfers, account, chainId, i);
    PendingComplete(s.transfers, account, chainId, j);
    var x, y := s.transfers[i], s.transfers[j];
    assert PreDone(setup, s, g.pre.s, g.pre.groups, x) && PreDone(setup, s, g.pre.s, g.pre.groups, y);
    TogetherAfterPost(g, x, y);
  }

  lemma TogetherAfterPost(g: Gather, x: Transfer, y: Transfer)
    requires x.KeyOf() == y.KeyOf() && InGroups(g.pre.groups, x) && InGroups(g.pre.groups, y)
    requires x.KeyOf() in g.keys && Enumerates(g.order, g.pass.multi.Keys)
    requires MapOk(g.pass.s.transfers, g.pass.multi)
    requires PassRows(g.pre.s, g.pass, g.pre.groups, g.keys)
    requires MultiFrame(g.pass.s, g.multi.s, g.pass.multi, g.order)
    requires MultiRows(g.pass.s, g.multi, g.pass.multi, g.order)
    ensures x.id < |g.multi.s.transfers| && y.id < |g.multi.s.transfers|
    ensures g.multi.s.transfers[x.id].txId == g.multi.s.transfers[y.id].txId
  {
    assert PassDone(g.pre.s, g.pass.s, g.pass.multi, g.pass.failed, x);
    assert PassDone(g.pre.s, g.pass.s, g.pass.multi, g.pass.failed, y);
    if x.tokenAddr.None? {
      assert Together(g.pass.s, g.pre.groups[x.KeyOf()]);
      var x1, y1 := g.pass.s.transfers[x.id], g.pass.s.transfers[y.id];
      assert x1.Multi().token.None? && y1.Multi().token.None?;
      assert !OrderRow(g.pass.multi, g.order, x1) && !OrderRow(g.pass.multi, g.order, y1);
    } else {
      assert x.Multi() == y.Multi();
      assert Together(g.multi.s, AllRows(g.pass.multi[x.Multi()]));
    }
  }

  lemma GroupRowShare(setup: PaymentSetup, allowances: Allowances, account: Address, chainId: int, s: State, g: Gather,
                      i0: nat, i: nat, t: nat)
    requires ValidSetup(setup) && Inv(s) && IsGather(setup, allowances, account, chainId, s, g) && g.Error().None?
    requires Inv(g.multi.s) && |g.multi.s.transfers| == |s.transfers| && |s.txs| <= t < |g.multi.s.txs|
    requires i0 < |s.transfers| && i < |s.transfers| && Linked(g.multi.s.transfers, i0, t)
    requires IsPending(s.transfers[i0], account, chainId) && Classify(setup, s.transfers[i0]).Grouped?
    ensures LinkedShare(g.multi.s.transfers[i], t, ToText(s.transfers[i0].receiverAddr))
         == GroupShare(setup, s.transfers[i], account, chainId, s.transfers[i0].KeyOf())
  {
    hide IsGather, Classify, Gather.Error;
    var ts, ts' := s.transfers, g.multi.s.transfers;
    var x, x', y, y' := ts[i0], ts'[i0], ts[i], ts'[i];
    LinkedRowIsNew(setup, allowances, account, chainId, s, g, i, t);
    LinkedRowIsNew(setup, allowances, account, chainId, s, g, i0, t);
    if Linked(ts', i, t) {
      SameKeyLinked(g.multi.s, t, i, i0);
      assert y.KeyOf() == Key(x.fromAddr, y.receiverAddr, x.chainId, x.tokenAddr, x.depositId);
    } else if y.KeyOf() == x.KeyOf() && IsPending(y, account, chainId) && Classify(setup, y).Grouped? {
      GroupTogether(setup, allowances, account, chainId, s, g, i, i0);
    }
  }

  lemma SameKeyLinked(s: State, t: nat, i: nat, j: nat)
    requires Inv(s) && t < |s.txs| && Linked(s.transfers, i, t) && Linked(s.transfers, j, t)
    ensures s.transfers[i].Multi() == s.transfers[j].Multi()
  {
    assert TxOk(s.transfers, t, s.txs[t]);
  }

  /** A row of a new transaction was pending; if it was not queued for payment it owed nothing. */
  lemma LinkedRowIsNew(setup: PaymentSetup, allowances: Allowances, account: Address, chainId: int, s: State, g: Gather,
                       i: nat, t: nat)
    requires ValidSetup(setup) && Inv(s) && IsGather(setup, allowances, account, chainId, s, g) && g.Error().None?
    requires i < |s.transfers| && i < |g.multi.s.transfers| && |s.txs| <= t
    ensures SameTransfer(s.transfers[i], g.multi.s.transfers[i])
    ensures Linked(g.multi.s.transfers, i, t) ==>
              IsPending(s.transfers[i], account, chainId) &&
              (Classify(setup, s.transfers[i]).Grouped? || s.transfers[i].Amount() == 0)
  {
    GatherFates(setup, allowances, account, chainId, s, g, i);
    GatherKeepsInv(setup, allowances, account, chainId, s, g);
    var row, row' := s.transfers[i], g.multi.s.transfers[i];
    if IsPending(row, account, chainId) {
      LinkedFromFate(setup, s, g, row, row');
    }
  }

  /** A row that ends up linked was queued for payment, or owes nothing. */
  lemma LinkedFromFate(setup: PaymentSetup, s: State, g: Gather, row: Transfer, row': Transfer)
    requires Fate(setup, s, g, row, row') && row.txId.None?
    ensures row'.txId.Some? ==> Classify(setup, row).Grouped? || row.Amount() == 0
  {
  }

  lemma FirstLinkedRow(setup: PaymentSetup, allowances: Allowances, account: Address, chainId: int, s: State, g: Gather,
                       i: nat, t: nat, text: string)
    requires ValidSetup(setup) && Inv(s) && IsGather(setup, allowances, account, chainId, s, g) && g.Error().None?
    requires i < |s.transfers| && i < |g.multi.s.transfers| && |s.txs| <= t
    requires LinkedShare(g.multi.s.transfers[i], t, ToText(text)) > 0
    ensures IsPending(s.transfers[i], account, chainId) && Classify(setup, s.transfers[i]).Grouped?
    ensures s.transfers[i].receiverAddr == text
  {
    hide IsGather, Classify, IsPending;
    LinkedRowIsNew(setup, allowances, account, chainId, s, g, i, t);
    assert s.transfers[i].Amount() == g.multi.s.transfers[i].Amount();
  }

  lemma TotalIsGroup(setup: PaymentSetup, allowances: Allowances, account: Address, chainId: int, s: State, g: Gather,
                     i0: nat, t: nat)
    requires ValidSetup(setup) && Inv(s) && IsGather(setup, allowances, account, chainId, s, g) && g.Error().None?
    requires Inv(g.multi.s) && |g.multi.s.transfers| == |s.transfers| && |s.txs| <= t < |g.multi.s.txs|
    requires i0 < |s.transfers| && Linked(g.multi.s.transfers, i0, t)
    requires IsPending(s.transfers[i0], account, chainId) && Classify(setup, s.transfers[i0]).Grouped?
    ensures LinkedTotal(g.multi.s.transfers, t, ToText(s.transfers[i0].receiverAddr))
         == GroupOwed(setup, s.transfers, account, chainId, s.transfers[i0].KeyOf())
  {
    var key := s.transfers[i0].KeyOf();
    forall i | 0 <= i < |s.transfers|
      ensures LinkedShare(g.multi.s.transfers[i], t, ToText(key.receiver))
           == GroupShare(setup, s.transfers[i], account, chainId, key)
    {
      GroupRowShare(setup, allowances, account, chainId, s, g, i0, i, t);
    }
    PointwiseGroup(setup, s.transfers, g.multi.s.transfers, account, chainId, t, key);
  }
}
