/** Distributing a transaction's fee over its transfers (service.rs). */
module Fees {
  import opened Prelude
  import opened Text
  import opened Bytes
  import opened DecimalText

  datatype ChainTransfer = ChainTransfer(id: nat, chainTxId: nat, feePaid: Option<string>)

  /** The fair division of a fee: everything is handed out, earlier transfers never pay less than later ones,
      and no two shares differ by more than one. */
  predicate Fair(shares: seq<nat>, fee: nat) {
    && Sum(shares) == fee
    && forall i, j :: 0 <= i < j < |shares| ==> shares[j] <= shares[i] <= shares[j] + 1
  }

  /** k times a share of s + 1, then s up to n. */
  function Steps(s: nat, k: nat, n: nat): (shares: seq<nat>)
    requires k <= n
    ensures |shares| == n && forall i :: 0 <= i < n ==> shares[i] == if i < k then s + 1 else s
  {
    seq(n, i requires 0 <= i < n => if i < k then s + 1 else s)
  }

  lemma {:induction false} SumOfSteps(s: nat, k: nat, n: nat)
    requires k <= n
    ensures Sum(Steps(s, k, n)) == n * s + k
  {
    if n > 0 {
      var shares, k' := Steps(s, k, n), if k < n then k else n - 1;
      assert shares[..n - 1] == Steps(s, k', n - 1);
      SumOfSteps(s, k', n - 1);
      assert n * s == (n - 1) * s + s;
    }
  }

  lemma {:induction false} SumBounds(shares: seq<nat>, s: nat)
    requires forall i :: 0 <= i < |shares| ==> s <= shares[i] <= s + 1
    ensures |shares| * s <= Sum(shares) <= |shares| * (s + 1)
    ensures |shares| > 0 && shares[|shares| - 1] == s ==> Sum(shares) < |shares| * (s + 1)
  {
    if shares != [] {
      var front := shares[..|shares| - 1];
      SumBounds(front, s);
      assert |shares| * s == |front| * s + s && |shares| * (s + 1) == |front| * (s + 1) + (s + 1);
    }
  }

  lemma Divide(fee: nat, n: nat, s: nat)
    requires n > 0 && n * s <= fee < n * (s + 1)
    ensures fee / n == s
  {
    assert fee - s * n < n;
    RemainderUnique(fee, n, s, fee - s * n);
  }

  /** There is only one fair division: the last share is the rounded-down average, and the first so many are
      one larger. */
  lemma FairIsUnique(shares: seq<nat>, fee: nat)
    requires shares != [] && Fair(shares, fee)
    ensures shares == Steps(fee / |shares|, fee % |shares|, |shares|)
  {
    var n := |shares|;
    var s := shares[n - 1];
    forall i | 0 <= i < n ensures s <= shares[i] <= s + 1 {
      if i < n - 1 { assert shares[n - 1] <= shares[i]; }
    }
    SumBounds(shares, s);
    Divide(fee, n, s);
    var k := LargerOnes(shares, s);
    assert shares == Steps(s, k, n);
    SumOfSteps(s, k, n);
    assert fee % n == fee - n * s;
  }

  /** How many shares, all at the front, are larger than the last. */
  ghost function LargerOnes(shares: seq<nat>, s: nat): (k: nat)
    requires forall i :: 0 <= i < |shares| ==> s <= shares[i] <= s + 1
    requires forall i, j :: 0 <= i < j < |shares| ==> shares[j] <= shares[i]
    ensures k <= |shares| && forall i :: 0 <= i < |shares| ==> shares[i] == if i < k then s + 1 else s
  {
    if shares == [] || shares[0] == s then 0 else LargerOnes(shares[1..], s) + 1
  }

  /** The rounded-down share leaves less than one unit per transfer. */
  method ShareOf(val: nat, n: nat) returns (valShare: nat)
    requires n > 0
    ensures n * valShare <= val < n * valShare + n
  {
    valShare := val / n;
  }

  lemma AtLeastOnce(n: nat, s: nat)
    requires n > 0
    ensures s <= n * s
  {
  }

  /** The two loops: a share for everybody, then one more for as many as is left. The branch that panics is
      never reached. */
  method HandOut(val: nat, n: nat, valShare: nat) returns (distributeFee: seq<nat>)
    requires n > 0 && n * valShare <= val < n * valShare + n && val < TWO_256
    ensures |distributeFee| == n && Fair(distributeFee, val)
  {
    var feeLeft := val;
    distributeFee := [];
    for i := 0 to n
      invariant feeLeft == val - i * valShare
      invariant distributeFee == Steps(valShare, 0, i)
    {
      OneMore(i, n, valShare);
      feeLeft := feeLeft - valShare;
      distributeFee := distributeFee + [valShare];
    }
    if feeLeft >= n {
      assert false;
    }
    AtLeastOnce(n, valShare);
    for i := 0 to feeLeft
      invariant distributeFee == Steps(valShare, i, n)
    {
      var item := distributeFee[i];
      assert item + 1 <= val < TWO_256;
      distributeFee := distributeFee[i := item + 1];
      assert distributeFee == Steps(valShare, i + 1, n);
    }
    SumOfSteps(valShare, feeLeft, n);
  }

  function FeesOf(transfers: seq<ChainTransfer>): (fees: seq<Option<nat>>)
    ensures |fees| == |transfers|
    ensures forall i :: 0 <= i < |fees| ==>
              fees[i] == match transfers[i].feePaid { case Some(text) => ParseAmount(text) case None => None }
  {
    seq(|transfers|, i requires 0 <= i < |transfers| =>
          match transfers[i].feePaid { case Some(text) => ParseAmount(text) case None => None })
  }

  /** The fee of every transfer, as it can be read back from its column. */
  ghost predicate PaysFairly(transfers: seq<ChainTransfer>, fee: nat) {
    exists shares :: Fair(shares, fee) && |shares| == |transfers| &&
                     forall i :: 0 <= i < |shares| ==> FeesOf(transfers)[i] == Some(shares[i])
  }

  lemma {:induction false} SumCoversEach(shares: seq<nat>, i: nat)
    requires i < |shares|
    ensures shares[i] <= Sum(shares)
  {
    if i < |shares| - 1 { SumCoversEach(shares[..|shares| - 1], i); }
  }

  lemma SharesReadBack(transfers: seq<ChainTransfer>, shares: seq<nat>, fee: nat)
    requires |transfers| == |shares| && Fair(shares, fee) && fee < TWO_256
    requires forall i :: 0 <= i < |shares| ==> transfers[i].feePaid == Some(PrintDec(shares[i]))
    ensures PaysFairly(transfers, fee)
  {
    forall i | 0 <= i < |shares| ensures FeesOf(transfers)[i] == Some(shares[i]) {
      SumCoversEach(shares, i);
      PrintDecFacts(shares[i]);
    }
  }

  /** Each transfer is inserted with its share, the transfers and shares taken in step. */
  method InsertTransfers(transfers: seq<ChainTransfer>, shares: seq<nat>, txId: nat, ghost fee: nat)
    returns (inserted: seq<ChainTransfer>)
    requires |transfers| == |shares| && Fair(shares, fee) && fee < TWO_256
    ensures SameButFees(transfers, inserted, txId) && PaysFairly(inserted, fee)
  {
    hide PrintDec, FeesOf, PaysFairly, Fair;
    inserted := [];
    for i := 0 to |transfers|
      invariant |inserted| == i
      invariant forall j :: 0 <= j < i ==>
                  inserted[j] == transfers[j].(chainTxId := txId, feePaid := Some(PrintDec(shares[j])))
    {
      inserted := inserted + [transfers[i].(chainTxId := txId, feePaid := Some(PrintDec(shares[i])))];
    }
    SharesReadBack(inserted, shares, fee);
  }

  predicate SameButFees(transfers: seq<ChainTransfer>, inserted: seq<ChainTransfer>, txId: nat) {
    && |inserted| == |transfers|
    && forall i :: 0 <= i < |transfers| ==>
         inserted[i] == transfers[i].(chainTxId := txId, feePaid := inserted[i].feePaid)
  }

  /** The fee distribution of transaction_from_chain_and_into_db, run when the transaction has transfers: fails
      exactly on an unreadable fee; otherwise every transfer is inserted with a fair share. */
  method DistributeFee(transfers: seq<ChainTransfer>, feePaid: string, txId: nat)
    returns (out: Option<seq<ChainTransfer>>)
    requires 0 < |transfers| < TWO_64
    ensures match ParseAmount(feePaid)
            case None => out == None
            case Some(fee) => out.Some? && SameButFees(transfers, out.value, txId) && PaysFairly(out.value, fee)
  {
    match ParseAmount(feePaid) {
      case None =>
        return None;
      case Some(val) =>
        hide DecValue, PaysFairly, SameButFees, Fair;
        var valShare := ShareOf(val, |transfers|);
        var distributeFee := HandOut(val, |transfers|, valShare);
        var inserted := InsertTransfers(transfers, distributeFee, txId, val);
        return Some(inserted);
    }
  }

  lemma OneMore(i: nat, n: nat, s: nat)
    requires i < n
    ensures (i + 1) * s == i * s + s <= n * s
  {
  }
}
