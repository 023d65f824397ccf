/** Whole runs of inserts, close requests and gathers: links are final, and nobody is ever overpaid. */
module Runs {
  import opened Prelude
  import opened Ledger
  import opened GatherFacts
  import opened Conservation
  import opened Deposits

  /** From s to s' transactions are only added, and linked rows stay as they are up to their error text. */
  ghost predicate OnlyAdds(s: State, s': State) {
    && s.txs <= s'.txs && |s.transfers| <= |s'.transfers|
    && forall i | 0 <= i < |s.transfers| && s.transfers[i].txId.Some? :: SamePayment(s.transfers[i], s'.transfers[i])
  }

  lemma RoundOnlyAdds(s: State, pre: State, mid: State, a: State, b: State, written: set<nat>)
    requires Around(s, pre, mid, a, b, written)
    ensures OnlyAdds(s, b)
  {
    AroundSize(s, pre, mid, a, b, written);
    assert Inv(s);
    WellFormedLedger(s);
    hide Around, Inv;
    forall i | 0 <= i < |s.transfers| && s.transfers[i].txId.Some? ensures SamePayment(s.transfers[i], b.transfers[i]) {
      AroundLinked(s, pre, mid, a, b, written, i);
    }
  }

  /** A linked row stays linked, and is no row a request could have changed. */
  lemma AroundLinked(s: State, pre: State, mid: State, a: State, b: State, written: set<nat>, i: nat)
    requires Around(s, pre, mid, a, b, written) && i < |s.transfers| && s.transfers[i].txId.Some?
    requires s.transfers[i].txId.value < |s.txs|
    ensures SamePayment(s.transfers[i], b.transfers[i])
  {
    hide Inv, DepositInv;
    var t := s.transfers[i].txId.value;
    assert Linked(s.transfers, i, t);
    assert Linked(pre.transfers, i, t) && SameTransfer(s.transfers[i], pre.transfers[i]);
    assert Linked(a.transfers, i, t) && SameTransfer(pre.transfers[i], a.transfers[i]);
  }

  lemma StepOnlyAdds(s: State, e: Event, s': State)
    requires Inv(s) && DepositInv(s.transfers) && Step(s, e, s')
    ensures OnlyAdds(s, s')
  {
    hide Inv, DepositInv, Answer, Around;
    match e
    case Ask(r) => AnswerEdits(s, r);
    case Round(setup, allowances, account, chain, between, h) =>
      var g, written := RoundAround(setup, allowances, account, chain, s, between, h);
      RoundOnlyAdds(s, g.pre.s, h.pre.s, g.multi.s, s', written);
  }

  lemma OnlyAddsTransitive(a: State, b: State, c: State)
    requires OnlyAdds(a, b) && OnlyAdds(b, c)
    ensures OnlyAdds(a, c)
  {
    forall i | 0 <= i < |a.transfers| && a.transfers[i].txId.Some? ensures SamePayment(a.transfers[i], c.transfers[i]) {
      assert SamePayment(a.transfers[i], b.transfers[i]);
      assert SamePayment(b.transfers[i], c.transfers[i]);
    }
  }

  /** Once a transfer is linked to a transaction it stays linked to that one for the rest of the run, with the same
      receiver and amount, and the transaction itself never changes: no transfer is ever paid twice. */
  lemma {:induction false} LinksAreFinal(states: seq<State>, events: seq<Event>, j: nat, k: nat)
    requires Run(states, events) && j <= k < |states|
    ensures OnlyAdds(states[j], states[k])
  {
    hide Inv, DepositInv, Step;
    if j < k {
      LinksAreFinal(states, events, j, k - 1);
      RunKeepsInvs(states, events, k - 1);
      StepOnlyAdds(states[k - 1], events[k - 1], states[k]);
      OnlyAddsTransitive(states[j], states[k - 1], states[k]);
    }
  }

  /** At any point of any run, all transactions ever inserted together pay each receiver, for each sender, chain,
      token and deposit, never more than the transfers linked to them owe; and exactly that if and only if none of
      them is packed with a receiver owed exactly 2^96. */
  lemma NobodyIsOverpaid(states: seq<State>, events: seq<Event>, k: nat)
    requires Run(states, events) && k < |states|
    ensures var s := states[k];
            && (forall key, a: Address ::
                  PaidFor(s, 0, |s.txs|, key, a) <= RangeTotal(s.transfers, 0, |s.txs|, key, a))
            && (RangePaid(s, 0, |s.txs|) <==> NoneOverfull(s, 0, |s.txs|))
  {
    hide Inv, DepositInv, Step, NoneOverfull, RangePaid, PaidFor, RangeTotal;
    var s := states[k];
    RunKeepsInvs(states, events, k);
    RangeConserves(s, 0, |s.txs|);
    forall key, a: Address ensures PaidFor(s, 0, |s.txs|, key, a) <= RangeTotal(s.transfers, 0, |s.txs|, key, a) {
      RangePays(s, 0, |s.txs|, key, a);
    }
  }
}
