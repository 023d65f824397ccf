/** From the queue to the chain and back: the receipt of a batching transaction reads back as the rows it pays. */
module EndToEnd {
  import opened Prelude
  import opened Bytes
  import opened Contracts
  import opened Ledger
  import opened Receipts

  /** Total found for one receiver. */
  function FoundFor(found: seq<Found>, a: Address): nat {
    if found == [] then 0 else (if found[0].to == a then found[0].amount else 0) + FoundFor(found[1..], a)
  }

  lemma {:induction false} FoundForBatch(token: Address, funder: Address, batch: seq<Payment>, a: Address)
    ensures FoundFor(FoundBatch(token, funder, batch), a) == Paid(batch, a)
    ensures forall f | f in FoundBatch(token, funder, batch) :: f.from == funder
  {
    if batch != [] { FoundForBatch(token, funder, batch[1..], a); }
  }

  /** What the analysis finds in the receipt: a success that finds, for every receiver, exactly the batch, all of
      it paid by the transaction's sender. */
  ghost predicate FindsPayouts(tx: Tx, token: Address, left: Leftover) {
    var parse := Meaning(ReceiptOf(tx, token, left), token);
    && parse.Success?
    && (forall f | f in parse.transfers :: f.from == tx.from)
    && (forall a: Address :: FoundFor(parse.transfers, a) == Paid(Payouts(tx), a))
  }

  lemma MultiIsFound(tx: Tx, token: Address, left: Leftover)
    requires tx.call.IsMulti() && tx.value == 0 && tx.from != tx.to && NoneTo(Payouts(tx), tx.to)
    ensures FindsPayouts(tx, token, left)
  {
    hide Payouts, Meaning, ReceiptOf, FoundBatch, NoneTo;
    BatchReadsBack(tx, token, left);
    var found := FoundBatch(token, tx.from, Payouts(tx));
    forall a: Address ensures FoundFor(found, a) == Paid(Payouts(tx), a) {
      FoundForBatch(token, tx.from, Payouts(tx), a);
    }
    FoundForBatch(token, tx.from, Payouts(tx), 0);
  }

  lemma SingleIsFound(tx: Tx, left: Leftover)
    requires tx.call.Erc20Transfer? && tx.value == 0 && tx.from != tx.to && tx.call.to != tx.to
    ensures FindsPayouts(tx, tx.to, left)
  {
    hide Meaning, BatchLogs, FoundBatch;
    var batch := [Payment(tx.call.to, tx.call.amount)];
    assert Payouts(tx) == batch;
    DirectRoundTrip(tx.to, tx.to, tx.from, batch);
    OneLog(tx.to, tx.from, batch[0]);
    assert ReadsBack(ReceiptOf(tx, tx.to, left), tx.to, tx.from, batch);
    var found := FoundBatch(tx.to, tx.from, batch);
    forall a: Address ensures FoundFor(found, a) == Paid(batch, a) {
      FoundForBatch(tx.to, tx.from, batch, a);
    }
    FoundForBatch(tx.to, tx.from, batch, 0);
  }

  lemma OneLog(token: Address, from: Address, p: Payment)
    ensures BatchLogs(token, from, [p]) == [TransferLog(token, from, p.to, p.amount)]
  {
  }

  lemma NativeIsFound(tx: Tx, token: Address, left: Leftover)
    requires tx.call.EthTransfer?
    ensures FindsPayouts(tx, token, left)
  {
    var r := ReceiptOf(tx, token, left);
    assert r.logs == [];
    var found := NativePayment(r);
    assert found + [] == found;
    assert Meaning(r, token) == Success(found);
    forall a: Address ensures FoundFor(found, a) == Paid(Payouts(tx), a) {
      if tx.value != 0 { assert found[1..] == [] && Payouts(tx)[1..] == []; }
    }
  }

  /** In every ledger the gathering can reach, the receipt of any transaction that is not a deposit transaction
      reads back, receiver by receiver, as exactly what the rows linked to it owe, with the sender as payer. The
      contract that is called must not be a receiver, and a packed batch must not hold the amount 2^96. */
  lemma ReceiptMatchesRows(s: State, t: nat, token: Address, left: Leftover)
    requires Inv(s) && t < |s.txs| && !s.txs[t].call.IsLock() && s.txs[t].from != s.txs[t].to
    requires s.txs[t].call.Erc20Transfer? ==> token == s.txs[t].to
    requires !s.txs[t].call.EthTransfer? ==> NoneTo(Payouts(s.txs[t]), s.txs[t].to)
    requires !(s.txs[t].call.IsPacked() && Overfull(s.transfers, t))
    ensures var parse := Meaning(ReceiptOf(s.txs[t], token, left), token);
            && parse.Success?
            && (forall f | f in parse.transfers :: f.from == s.txs[t].from)
            && forall a: Address :: FoundFor(parse.transfers, a) == LinkedTotal(s.transfers, t, ToAddress(a))
  {
    hide Meaning, ReceiptOf, LinkedTotal, Overfull;
    var tx := s.txs[t];
    assert TxOk(s.transfers, t, tx);
    assert PaysLinked(s.transfers, t, tx);
    var i :| Linked(s.transfers, i, t);
    assert Agrees(s.transfers[i], tx);
    assert FindsPayouts(tx, token, left) by {
      if tx.call.EthTransfer? {
        NativeIsFound(tx, token, left);
      } else if tx.call.Erc20Transfer? {
        assert Payouts(tx)[0] in Payouts(tx);
        SingleIsFound(tx, left);
      } else {
        MultiIsFound(tx, token, left);
      }
    }
  }

  /** The other way round, deposit transactions are not read back. In every ledger, provided the lock contract is not
      itself paid, every closing transaction's receipt is a failure, since the rest goes back to the funder, and a
      transaction that leaves the deposit open fails exactly when it pays anybody. */
  lemma DepositReceiptFails(s: State, t: nat, token: Address, left: Leftover)
    requires Inv(s) && t < |s.txs| && s.txs[t].call.IsLock() && NoneTo(LockTransfers(s.txs[t], left), s.txs[t].to)
    ensures Meaning(ReceiptOf(s.txs[t], token, left), token).Failure? <==>
            LinksFinish(s.transfers, t) || Payouts(s.txs[t]) != []
  {
    hide Meaning, ReceiptOf, Payouts, NoneTo;
    var tx := s.txs[t];
    assert TxOk(s.transfers, t, tx);
    DepositReceipt(tx, token, left);
  }
}
