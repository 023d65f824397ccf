/** Reading a transaction receipt back into payments: find_receipt_extended and verify_transaction. */
module Receipts {
  import opened Prelude
  import opened Bytes
  import opened Contracts

  /** An EIP-20 Transfer log of some contract, or a log with other topics. */
  datatype Log = TransferLog(address: Address, from: Address, to: Address, amount: nat) | OtherLog(address: Address)

  /** A payment found on chain; token None is the chain's own currency. */
  datatype Found = Found(from: Address, to: Address, token: Option<Address>, amount: nat)

  /** The parts of the transaction and its receipt the analysis uses. */
  datatype Receipt = Receipt(txFrom: Address, txTo: Address, value: nat, logs: seq<Log>)

  datatype ReceiptError = DifferentFunders | DifferentTokens | PayoutOfOtherToken | PayoutWithoutFunder

  /** Success with the payments; Failure when a payout has no paying-in log; or an error. */
  datatype Parse = Success(transfers: seq<Found>) | Failure | Error(e: ReceiptError)

  // ---- the two passes ----

  datatype PaidIn = PaidIn(from: Option<Address>, token: Option<Address>, amount: nat)

  predicate IsToken(log: Log, token: Address) {
    log.TransferLog? && log.address == token
  }

  /** The first pass looks for token logs into the called contract. */
  function FirstPass(st: PaidIn, log: Log, token: Address, txTo: Address): Result<PaidIn, ReceiptError> {
    if !IsToken(log, token) || log.to != txTo then Ok(st)
    else if st.from.Some? && log.from != st.from.value then Err(DifferentFunders)
    else if st.token.Some? && log.address != st.token.value then Err(DifferentTokens)
    else Ok(PaidIn(Some(log.from), Some(log.address), st.amount + log.amount))
  }

  datatype Turn = Skip | Output(found: Found) | Return(result: Parse)

  /** The second pass turns every other token log into a payment, payouts on behalf of the funder. */
  function SecondPass(st: PaidIn, log: Log, token: Address, txTo: Address): Turn {
    if !IsToken(log, token) || log.to == txTo then Skip
    else if log.from == txTo then
      if Some(log.address) != st.token then
        if st.token.None? then Return(Failure) else Return(Error(PayoutOfOtherToken))
      else if st.from.None? then Return(Error(PayoutWithoutFunder))
      else Output(Found(st.from.value, log.to, Some(log.address), log.amount))
    else Output(Found(log.from, log.to, Some(log.address), log.amount))
  }

  // ---- what the logs mean ----

  /** A token log paying into the called contract. */
  predicate PaysIn(log: Log, token: Address, txTo: Address) {
    IsToken(log, token) && log.to == txTo
  }

  /** A token log that is a payment. */
  predicate IsPayment(log: Log, token: Address, txTo: Address) {
    IsToken(log, token) && log.to != txTo
  }

  /** The payments among the logs, those of the called contract attributed to `funder`. */
  function TokenPayments(logs: seq<Log>, token: Address, txTo: Address, funder: Address): seq<Found> {
    if logs == [] then []
    else
      var log := logs[0];
      (if IsPayment(log, token, txTo)
       then [Found(if log.from == txTo then funder else log.from, log.to, Some(token), log.amount)] else []) +
      TokenPayments(logs[1..], token, txTo, funder)
  }

  function NativePayment(r: Receipt): seq<Found> {
    if r.value != 0 then [Found(r.txFrom, r.txTo, None, r.value)] else []
  }

  ghost predicate TwoFunders(logs: seq<Log>, token: Address, txTo: Address) {
    exists x, y | x in logs && y in logs :: PaysIn(x, token, txTo) && PaysIn(y, token, txTo) && x.from != y.from
  }

  predicate HasFunder(logs: seq<Log>, token: Address, txTo: Address) {
    exists log | log in logs :: PaysIn(log, token, txTo)
  }

  predicate HasPayout(logs: seq<Log>, token: Address, txTo: Address) {
    exists log | log in logs :: IsPayment(log, token, txTo) && log.from == txTo
  }

  /** The sender of the first log paying into the contract. */
  function Funder(logs: seq<Log>, token: Address, txTo: Address): Address {
    if logs == [] then 0 else if PaysIn(logs[0], token, txTo) then logs[0].from else Funder(logs[1..], token, txTo)
  }

  /** The meaning of a receipt: an error exactly for two funders, else Failure exactly for a payout without
      any funder, else every payment with the one funder behind the contract's payouts. */
  ghost function Meaning(r: Receipt, token: Address): Parse {
    if TwoFunders(r.logs, token, r.txTo) then Error(DifferentFunders)
    else if HasPayout(r.logs, token, r.txTo) && !HasFunder(r.logs, token, r.txTo) then Failure
    else Success(NativePayment(r) + TokenPayments(r.logs, token, r.txTo, Funder(r.logs, token, r.txTo)))
  }

  function PaidInTotal(logs: seq<Log>, token: Address, txTo: Address): nat {
    if logs == [] then 0
    else (if PaysIn(logs[0], token, txTo) then logs[0].amount else 0) + PaidInTotal(logs[1..], token, txTo)
  }

  /** After the first pass over `logs`, the state records the funder if there is one. */
  ghost predicate Recorded(st: PaidIn, logs: seq<Log>, token: Address, txTo: Address) {
    && !TwoFunders(logs, token, txTo)
    && (HasFunder(logs, token, txTo) ==> st.from == Some(Funder(logs, token, txTo)) && st.token == Some(token))
    && (!HasFunder(logs, token, txTo) ==> st.from.None? && st.token.None?)
  }

  lemma {:induction false} FunderPaysIn(logs: seq<Log>, token: Address, txTo: Address)
    requires HasFunder(logs, token, txTo)
    ensures exists log | log in logs :: PaysIn(log, token, txTo) && log.from == Funder(logs, token, txTo)
  {
    if PaysIn(logs[0], token, txTo) {
      assert logs[0] in logs;
    } else {
      var log :| log in logs && PaysIn(log, token, txTo);
      assert log in logs[1..];
      FunderPaysIn(logs[1..], token, txTo);
    }
  }

  lemma {:induction false} FunderAppend(logs: seq<Log>, log: Log, token: Address, txTo: Address)
    ensures HasFunder(logs + [log], token, txTo) <==> HasFunder(logs, token, txTo) || PaysIn(log, token, txTo)
    ensures HasFunder(logs, token, txTo) ==> Funder(logs + [log], token, txTo) == Funder(logs, token, txTo)
    ensures !HasFunder(logs, token, txTo) && PaysIn(log, token, txTo) ==> Funder(logs + [log], token, txTo) == log.from
  {
    assert log in logs + [log];
    if logs == [] {
      assert logs + [log] == [log];
    } else {
      assert logs[0] in logs && (logs + [log])[1..] == logs[1..] + [log];
      assert logs == [logs[0]] + logs[1..];
      FunderAppend(logs[1..], log, token, txTo);
    }
  }

  /** One turn of the first pass. Its only error is a second funder. */
  lemma FirstPassStep(st: PaidIn, logs: seq<Log>, log: Log, token: Address, txTo: Address)
    requires Recorded(st, logs, token, txTo)
    ensures var next := FirstPass(st, log, token, txTo);
            if next.Ok?
            then Recorded(next.value, logs + [log], token, txTo) &&
                 next.value.amount == st.amount + PaidInTotal([log], token, txTo)
            else next.error == DifferentFunders && TwoFunders(logs + [log], token, txTo)
  {
    FunderAppend(logs, log, token, txTo);
    assert log in logs + [log];
    if HasFunder(logs, token, txTo) {
      FunderPaysIn(logs, token, txTo);
      var first :| first in logs && PaysIn(first, token, txTo) && first.from == Funder(logs, token, txTo);
      assert first in logs + [log];
    }
  }

  lemma TwoFundersMore(a: seq<Log>, b: seq<Log>, token: Address, txTo: Address)
    requires TwoFunders(a, token, txTo)
    ensures TwoFunders(a + b, token, txTo)
  {
    var x, y :| x in a && y in a && PaysIn(x, token, txTo) && PaysIn(y, token, txTo) && x.from != y.from;
    assert x in a + b && y in a + b;
  }

  lemma NothingPaidIn(logs: seq<Log>, token: Address, txTo: Address)
    ensures PaidInTotal(logs[|logs|..], token, txTo) == 0
  {
  }

  lemma PaidInNext(logs: seq<Log>, i: nat, token: Address, txTo: Address)
    requires i < |logs|
    ensures PaidInTotal(logs[i..], token, txTo) == PaidInTotal([logs[i]], token, txTo) +
            PaidInTotal(logs[i + 1..], token, txTo)
  {
    assert logs[i..][1..] == logs[i + 1..] && [logs[i]][1..] == [];
  }

  /** The first loop: who paid into the contract. */
  method FindFunder(logs: seq<Log>, token: Address, txTo: Address) returns (r: Result<PaidIn, ReceiptError>)
    requires PaidInTotal(logs, token, txTo) < TWO_256
    ensures r.Ok? ==> Recorded(r.value, logs, token, txTo) && r.value.amount == PaidInTotal(logs, token, txTo)
    ensures r.Err? ==> r.error == DifferentFunders && TwoFunders(logs, token, txTo)
  {
    var st := PaidIn(None, None, 0);
    assert Recorded(st, logs[..0], token, txTo) && logs[0..] == logs;
    hide Recorded, FirstPass, TwoFunders, PaidInTotal;
    for i := 0 to |logs|
      invariant Recorded(st, logs[..i], token, txTo)
      invariant st.amount + PaidInTotal(logs[i..], token, txTo) == PaidInTotal(logs, token, txTo)
    {
      FirstPassStep(st, logs[..i], logs[i], token, txTo);
      PaidInNext(logs, i, token, txTo);
      assert logs[..i] + [logs[i]] == logs[..i + 1];
      match FirstPass(st, logs[i], token, txTo) {
        case Err(e) =>
          TwoFundersMore(logs[..i + 1], logs[i + 1..], token, txTo);
          assert logs[..i + 1] + logs[i + 1..] == logs;
          return Err(e);
        case Ok(next) =>
          st := next;
          assert st.amount < TWO_256;
      }
    }
    assert logs[..|logs|] == logs;
    NothingPaidIn(logs, token, txTo);
    return Ok(st);
  }

  /** One turn of the second pass with the funder recorded: of its four returns only Failure can happen. */
  lemma SecondPassStep(st: PaidIn, logs: seq<Log>, log: Log, token: Address, txTo: Address)
    requires Recorded(st, logs, token, txTo) && log in logs
    ensures match SecondPass(st, log, token, txTo)
            case Skip => !IsPayment(log, token, txTo)
            case Output(found) =>
              && IsPayment(log, token, txTo) && (log.from == txTo ==> HasFunder(logs, token, txTo))
              && found == Found(if log.from == txTo then Funder(logs, token, txTo) else log.from, log.to, Some(token),
                                log.amount)
            case Return(result) => result == Failure && HasPayout(logs, token, txTo) && !HasFunder(logs, token, txTo)
  {
  }

  lemma HasPayoutAppend(logs: seq<Log>, log: Log, token: Address, txTo: Address)
    ensures HasPayout(logs + [log], token, txTo) <==>
            HasPayout(logs, token, txTo) || (IsPayment(log, token, txTo) && log.from == txTo)
  {
    assert log in logs + [log];
  }

  /** What the payments from position i on are, and that collecting one more is right. */
  lemma CollectNext(collected: seq<Found>, logs: seq<Log>, i: nat, token: Address, txTo: Address, funder: Address)
    requires i < |logs|
    ensures var log, all := logs[i], collected + TokenPayments(logs[i..], token, txTo, funder);
            all == (if IsPayment(log, token, txTo)
                    then collected + [Found(if log.from == txTo then funder else log.from, log.to,
                                      Some(token), log.amount)]
                    else collected) + TokenPayments(logs[i + 1..], token, txTo, funder)
  {
    assert logs[i..][0] == logs[i] && logs[i..][1..] == logs[i + 1..];
  }

  /** The second loop. */
  method CollectPayments(logs: seq<Log>, token: Address, txTo: Address, st: PaidIn, start: seq<Found>)
    returns (p: Parse)
    requires Recorded(st, logs, token, txTo)
    ensures p == if HasPayout(logs, token, txTo) && !HasFunder(logs, token, txTo) then Failure
                 else Success(start + TokenPayments(logs, token, txTo, Funder(logs, token, txTo)))
  {
    ghost var funder := Funder(logs, token, txTo);
    var transfers := start;
    assert logs[0..] == logs && !HasPayout(logs[..0], token, txTo);
    assert TokenPayments([], token, txTo, funder) == [];
    hide HasPayout, HasFunder, Funder, Recorded, TokenPayments, SecondPass, IsPayment;
    for i := 0 to |logs|
      invariant HasPayout(logs[..i], token, txTo) ==> HasFunder(logs, token, txTo)
      invariant transfers + TokenPayments(logs[i..], token, txTo, funder) ==
                start + TokenPayments(logs, token, txTo, funder)
    {
      assert logs[..i] + [logs[i]] == logs[..i + 1];
      HasPayoutAppend(logs[..i], logs[i], token, txTo);
      CollectNext(transfers, logs, i, token, txTo, funder);
      SecondPassStep(st, logs, logs[i], token, txTo);
      match SecondPass(st, logs[i], token, txTo) {
        case Skip =>
        case Output(found) => transfers := transfers + [found];
        case Return(result) => return result;
      }
    }
    assert logs[..|logs|] == logs && logs[|logs|..] == [];
    return Success(transfers);
  }

  /** find_receipt_extended, after the replies of the node have been checked against each other. */
  method FindPayments(r: Receipt, token: Address) returns (p: Parse)
    requires PaidInTotal(r.logs, token, r.txTo) < TWO_256
    ensures p == Meaning(r, token)
  {
    var transfers := [];
    if r.value != 0 {
      transfers := transfers + [Found(r.txFrom, r.txTo, None, r.value)];
    }
    var st := FindFunder(r.logs, token, r.txTo);
    match st {
      case Err(e) => return Error(e);
      case Ok(paidIn) => p := CollectPayments(r.logs, token, r.txTo, paidIn, transfers);
    }
  }

  // ---- conservation ----

  function FoundTotal(transfers: seq<Found>): nat {
    if transfers == [] then 0 else transfers[0].amount + FoundTotal(transfers[1..])
  }

  function PaymentTotal(logs: seq<Log>, token: Address, txTo: Address): nat {
    if logs == [] then 0
    else (if IsPayment(logs[0], token, txTo) then logs[0].amount else 0) + PaymentTotal(logs[1..], token, txTo)
  }

  lemma {:induction false} FoundTotalConcat(a: seq<Found>, b: seq<Found>)
    ensures FoundTotal(a + b) == FoundTotal(a) + FoundTotal(b)
  {
    if a == [] {
      assert a + b == b;
    } else {
      assert (a + b)[1..] == a[1..] + b;
      FoundTotalConcat(a[1..], b);
    }
  }

  lemma {:induction false} TokenPaymentsTotal(logs: seq<Log>, token: Address, txTo: Address, funder: Address)
    ensures FoundTotal(TokenPayments(logs, token, txTo, funder)) == PaymentTotal(logs, token, txTo)
  {
    if logs != [] {
      var rest := TokenPayments(logs[1..], token, txTo, funder);
      TokenPaymentsTotal(logs[1..], token, txTo, funder);
      if IsPayment(logs[0], token, txTo) {
        FoundTotalConcat([TokenPayments(logs, token, txTo, funder)[0]], rest);
      } else {
        assert TokenPayments(logs, token, txTo, funder) == rest;
      }
    }
  }

  /** Nothing is invented or lost: the payments add up to the transaction's value plus all token logs that do
      not go to the called contract. */
  lemma ReceiptConserves(r: Receipt, token: Address)
    requires Meaning(r, token).Success?
    ensures FoundTotal(Meaning(r, token).transfers) == r.value + PaymentTotal(r.logs, token, r.txTo)
  {
    var funder := Funder(r.logs, token, r.txTo);
    TokenPaymentsTotal(r.logs, token, r.txTo, funder);
    FoundTotalConcat(NativePayment(r), TokenPayments(r.logs, token, r.txTo, funder));
  }

  // ---- logs of other kinds ----

  function TokenLogs(logs: seq<Log>, token: Address): seq<Log> {
    if logs == [] then []
    else (if IsToken(logs[0], token) then [logs[0]] else []) + TokenLogs(logs[1..], token)
  }

  lemma {:induction false} TokenLogsFacts(logs: seq<Log>, token: Address, txTo: Address, funder: Address)
    ensures forall log :: log in TokenLogs(logs, token) <==> log in logs && IsToken(log, token)
    ensures TokenPayments(TokenLogs(logs, token), token, txTo, funder) == TokenPayments(logs, token, txTo, funder)
    ensures Funder(TokenLogs(logs, token), token, txTo) == Funder(logs, token, txTo)
  {
    if logs != [] {
      TokenLogsFacts(logs[1..], token, txTo, funder);
      assert logs == [logs[0]] + logs[1..];
      var t := TokenLogs(logs, token);
      if IsToken(logs[0], token) {
        assert t[1..] == TokenLogs(logs[1..], token);
      } else {
        assert t == TokenLogs(logs[1..], token);
      }
    }
  }

  /** Logs of other contracts or other events never matter, wherever they stand. */
  lemma OtherLogsDoNotMatter(r: Receipt, token: Address)
    ensures Meaning(r.(logs := TokenLogs(r.logs, token)), token) == Meaning(r, token)
  {
    TokenLogsFacts(r.logs, token, r.txTo, Funder(r.logs, token, r.txTo));
    var logs := TokenLogs(r.logs, token);
    assert TwoFunders(logs, token, r.txTo) <==> TwoFunders(r.logs, token, r.txTo);
    assert HasPayout(logs, token, r.txTo) <==> HasPayout(r.logs, token, r.txTo);
    assert HasFunder(logs, token, r.txTo) <==> HasFunder(r.logs, token, r.txTo);
  }

  // ---- the analysis undoes what the contracts do ----

  /** Token transfers of a batch, all from one sender. */
  function BatchLogs(token: Address, from: Address, batch: seq<Payment>): (logs: seq<Log>)
    ensures |logs| == |batch|
    ensures forall i :: 0 <= i < |logs| ==> logs[i] == TransferLog(token, from, batch[i].to, batch[i].amount)
  {
    if batch == [] then []
    else [TransferLog(token, from, batch[0].to, batch[0].amount)] + BatchLogs(token, from, batch[1..])
  }

  /** The batch as payments of the funder. */
  function FoundBatch(token: Address, funder: Address, batch: seq<Payment>): (f: seq<Found>)
    ensures |f| == |batch|
  {
    if batch == [] then []
    else [Found(funder, batch[0].to, Some(token), batch[0].amount)] + FoundBatch(token, funder, batch[1..])
  }

  predicate NoneTo(batch: seq<Payment>, contract: Address) {
    forall p | p in batch :: p.to != contract
  }

  /** Reading a batch back, when its logs come from the funder or from the contract paying on its behalf. */
  lemma {:induction false} BatchPayments(token: Address, contract: Address, from: Address, funder: Address,
                                         any: Address, batch: seq<Payment>)
    requires if from == contract then any == funder else from == funder
    ensures var found := TokenPayments(BatchLogs(token, from, batch), token, contract, any);
            && (NoneTo(batch, contract) ==> found == FoundBatch(token, funder, batch))
            && |found| <= |batch| && (|found| == |batch| ==> NoneTo(batch, contract))
  {
    if batch != [] {
      BatchPayments(token, contract, from, funder, any, batch[1..]);
      assert BatchLogs(token, from, batch)[1..] == BatchLogs(token, from, batch[1..]);
      assert batch == [batch[0]] + batch[1..];
    }
  }

  ghost predicate ReadsBack(r: Receipt, token: Address, funder: Address, batch: seq<Payment>) {
    Meaning(r, token) == Success(FoundBatch(token, funder, batch))
  }

  lemma BatchLogsFrom(token: Address, from: Address, batch: seq<Payment>)
    ensures forall log | log in BatchLogs(token, from, batch) ::
              log.TransferLog? && log.address == token && log.from == from
  {
  }

  /** Direct form: the funder's tokens go straight to each receiver. The receipt reads back as the batch
      exactly when the contract itself is not a receiver. */
  lemma DirectRoundTrip(token: Address, contract: Address, funder: Address, batch: seq<Payment>)
    requires funder != contract
    ensures ReadsBack(Receipt(funder, contract, 0, BatchLogs(token, funder, batch)), token, funder, batch) <==>
            NoneTo(batch, contract)
  {
    var logs := BatchLogs(token, funder, batch);
    BatchLogsFrom(token, funder, batch);
    BatchPayments(token, contract, funder, funder, Funder(logs, token, contract), batch);
    assert !TwoFunders(logs, token, contract) && !HasPayout(logs, token, contract);
    var found := TokenPayments(logs, token, contract, Funder(logs, token, contract));
    assert [] + found == found;
  }

  function IndirectLogs(token: Address, contract: Address, funder: Address, batch: seq<Payment>): seq<Log> {
    [TransferLog(token, funder, contract, Sum(Amounts(batch)))] + BatchLogs(token, contract, batch)
  }

  /** With one more log in front that pays in from the funder, the payouts behind it are the funder's. */
  lemma IndirectPayments(token: Address, contract: Address, funder: Address, batch: seq<Payment>)
    requires funder != contract && NoneTo(batch, contract)
    ensures var logs := IndirectLogs(token, contract, funder, batch);
            && !TwoFunders(logs, token, contract) && HasFunder(logs, token, contract)
            && Funder(logs, token, contract) == funder
            && TokenPayments(logs, token, contract, funder) == FoundBatch(token, funder, batch)
  {
    hide NoneTo, FoundBatch;
    var logs, payouts := IndirectLogs(token, contract, funder, batch), BatchLogs(token, contract, batch);
    assert logs[0] in logs && PaysIn(logs[0], token, contract) && logs[1..] == payouts;
    PayoutsPayNobodyIn(token, contract, batch);
    BatchPayments(token, contract, contract, funder, funder, batch);
    assert TokenPayments(logs, token, contract, funder) == [] + TokenPayments(payouts, token, contract, funder);
  }

  lemma IndirectToContract(token: Address, contract: Address, funder: Address, batch: seq<Payment>)
    requires funder != contract && !NoneTo(batch, contract)
    ensures TwoFunders(IndirectLogs(token, contract, funder, batch), token, contract)
  {
    hide Sum, Amounts;
    var logs, payouts := IndirectLogs(token, contract, funder, batch), BatchLogs(token, contract, batch);
    var i :| 0 <= i < |batch| && batch[i].to == contract;
    assert logs[0] in logs && logs[i + 1] == payouts[i];
    assert logs[i + 1] in logs && PaysIn(logs[i + 1], token, contract);
  }

  /** Indirect form: the funder pays the contract, which pays the receivers. The receipt reads back as the
      same batch exactly when the contract itself is not a receiver. */
  lemma IndirectRoundTrip(token: Address, contract: Address, funder: Address, batch: seq<Payment>)
    requires funder != contract
    ensures ReadsBack(Receipt(funder, contract, 0, IndirectLogs(token, contract, funder, batch)), token, funder, batch)
            <==> NoneTo(batch, contract)
  {
    hide IndirectLogs, TokenPayments, FoundBatch, TwoFunders, HasFunder, HasPayout, Funder, NoneTo;
    var found := FoundBatch(token, funder, batch);
    assert [] + found == found;
    if NoneTo(batch, contract) {
      IndirectPayments(token, contract, funder, batch);
    } else {
      IndirectToContract(token, contract, funder, batch);
    }
  }

  lemma PayoutsPayNobodyIn(token: Address, contract: Address, batch: seq<Payment>)
    requires NoneTo(batch, contract)
    ensures forall log | log in BatchLogs(token, contract, batch) :: !PaysIn(log, token, contract)
  {
    var logs := BatchLogs(token, contract, batch);
    forall log | log in logs ensures !PaysIn(log, token, contract) {
      var i :| 0 <= i < |logs| && logs[i] == log;
      assert batch[i] in batch;
    }
  }

  /** One funder may pay in more than once: the payouts are still its own. */
  lemma PaidInTwice(token: Address, contract: Address, funder: Address, to: Address, a: nat, b: nat)
    requires funder != contract && to != contract
    ensures var logs := [TransferLog(token, funder, contract, a), TransferLog(token, funder, contract, b),
                         TransferLog(token, contract, to, a + b)];
            Meaning(Receipt(funder, contract, 0, logs), token) == Success([Found(funder, to, Some(token), a + b)])
  {
    var x, y, z := TransferLog(token, funder, contract, a), TransferLog(token, funder, contract, b),
                   TransferLog(token, contract, to, a + b);
    var logs := [x, y, z];
    assert logs[1..] == [y, z] && [y, z][1..] == [z] && [z][1..] == [];
    assert forall log | log in logs :: log == x || log == y || log == z;
    assert PaysIn(x, token, contract) && x in logs;
    assert TokenPayments([z], token, contract, funder) == [Found(funder, to, Some(token), a + b)];
    assert TokenPayments([y, z], token, contract, funder) == [] + TokenPayments([z], token, contract, funder);
    assert TokenPayments(logs, token, contract, funder) == [] + TokenPayments([y, z], token, contract, funder);
  }

  /** Two different funders are an error. */
  lemma TwoFundersFail(token: Address, contract: Address, f1: Address, f2: Address, a: nat, b: nat)
    requires f1 != f2
    ensures var logs := [TransferLog(token, f1, contract, a), TransferLog(token, f2, contract, b)];
            Meaning(Receipt(f1, contract, 0, logs), token) == Error(DifferentFunders)
  {
    var x, y := TransferLog(token, f1, contract, a), TransferLog(token, f2, contract, b);
    assert x in [x, y] && y in [x, y] && PaysIn(x, token, contract) && PaysIn(y, token, contract);
  }

  /** What a deposit still holds when it is closed: the rest of its funds and the fee locked for the spender. */
  datatype Leftover = Leftover(amount: nat, fee: nat)

  /** Every transfer the lock contract makes: the payouts, and when it closes the deposit, the rest back to the
      funder named in the id and then the fee, if there is one, to the sender. */
  function LockTransfers(tx: Tx, left: Leftover): seq<Payment>
    requires tx.call.IsLock()
  {
    Payouts(tx) +
    if !tx.call.Closes() then []
    else [Payment(FunderOf(tx.call.id), left.amount + left.fee)] +
         if left.fee > 0 then [Payment(tx.from, left.fee)] else []
  }

  /** The token logs the contracts emit for a batching transaction that did not revert. */
  function Emits(tx: Tx, token: Address, left: Leftover): seq<Log> {
    match tx.call
    case EthTransfer => []
    case Erc20Transfer(to, amount) => if tx.to == token then [TransferLog(token, tx.from, to, amount)] else []
    case MultiDirect(_, _) => BatchLogs(token, tx.from, Payouts(tx))
    case MultiDirectPacked(_) => BatchLogs(token, tx.from, Payouts(tx))
    case MultiIndirect(_, _) => IndirectLogs(token, tx.to, tx.from, Payouts(tx))
    case MultiIndirectPacked(_, _) => IndirectLogs(token, tx.to, tx.from, Payouts(tx))
    case _ => BatchLogs(token, tx.to, LockTransfers(tx, left))
  }

  /** `left` matters only when the transaction closes a deposit. */
  function ReceiptOf(tx: Tx, token: Address, left: Leftover): Receipt {
    Receipt(tx.from, tx.to, tx.value, Emits(tx, token, left))
  }

  /** Receipt analysis undoes batching: whichever multi method was chosen, the receipt of the transaction
      reads back as its payouts with the sender as payer, exactly when none goes to the contract. */
  lemma BatchReadsBack(tx: Tx, token: Address, left: Leftover)
    requires tx.call.IsMulti() && tx.value == 0 && tx.from != tx.to
    ensures ReadsBack(ReceiptOf(tx, token, left), token, tx.from, Payouts(tx)) <==> NoneTo(Payouts(tx), tx.to)
  {
    hide ReadsBack, NoneTo, Payouts, IndirectLogs, BatchLogs;
    if tx.call.MultiDirect? || tx.call.MultiDirectPacked? { DirectRoundTrip(token, tx.to, tx.from, Payouts(tx)); }
    else { IndirectRoundTrip(token, tx.to, tx.from, Payouts(tx)); }
  }

  /** Logs of one contract about its own transfers: read back as a failure exactly when there are any and none goes to
      the contract itself; there are never two funders. */
  lemma OwnTransfers(token: Address, contract: Address, batch: seq<Payment>)
    ensures var logs := BatchLogs(token, contract, batch);
            && !TwoFunders(logs, token, contract)
            && (HasPayout(logs, token, contract) && !HasFunder(logs, token, contract) <==>
                batch != [] && NoneTo(batch, contract))
  {
    var logs := BatchLogs(token, contract, batch);
    BatchLogsFrom(token, contract, batch);
    if NoneTo(batch, contract) {
      PayoutsPayNobodyIn(token, contract, batch);
      if batch != [] { assert batch[0] in batch && logs[0] in logs && IsPayment(logs[0], token, contract); }
    } else {
      var i :| 0 <= i < |batch| && batch[i].to == contract;
      assert logs[i] in logs && PaysIn(logs[i], token, contract);
    }
  }

  /** Exactly when the receipt of a deposit transaction is a failure: when the lock contract transfers anything, and
      nothing to itself. It pays without being paid in the same transaction. */
  lemma DepositReceipt(tx: Tx, token: Address, left: Leftover)
    requires tx.call.IsLock()
    ensures Meaning(ReceiptOf(tx, token, left), token).Failure? <==>
            LockTransfers(tx, left) != [] && NoneTo(LockTransfers(tx, left), tx.to)
    ensures !Meaning(ReceiptOf(tx, token, left), token).Error?
  {
    hide LockTransfers, NoneTo, BatchLogs;
    OwnTransfers(token, tx.to, LockTransfers(tx, left));
  }

  // ---- verify_transaction ----

  datatype Verdict = Verified(amount: nat) | CannotParse | NotMatching | Insufficient | NotFound

  /** The payment is the one asked about: right receiver, and paid by the sender or in the sender's transaction. */
  predicate Matches(found: Found, txFrom: Address, sender: Address, receiver: Address) {
    found.to == receiver && (found.from == sender || txFrom == sender)
  }

  /** The first matching payment decides. */
  function Judge(transfers: seq<Found>, txFrom: Address, sender: Address, receiver: Address, amount: nat): Verdict {
    if transfers == [] then NotMatching
    else if Matches(transfers[0], txFrom, sender, receiver) then
      if transfers[0].amount >= amount then Verified(transfers[0].amount) else Insufficient
    else Judge(transfers[1..], txFrom, sender, receiver, amount)
  }

  ghost function Verification(r: Receipt, status: nat, token: Address, sender: Address, receiver: Address, amount: nat):
    Result<Verdict, ReceiptError>
  {
    match Meaning(r, token)
    case Error(e) => Err(e)
    case Failure => Ok(CannotParse)
    case Success(transfers) => Ok(if status != 1 then NotFound else
                                       Judge(transfers, r.txFrom, sender, receiver, amount))
  }

  /** The sender stands behind a token log: it pays, or the transaction is its own, or the log is the called contract's
      and the sender has paid in. */
  ghost predicate Behind(r: Receipt, log: Log, token: Address, sender: Address)
    requires log.TransferLog?
  {
    || r.txFrom == sender
    || (log.from == sender && log.from != r.txTo)
    || (log.from == r.txTo && exists paid | paid in r.logs ::
          paid.TransferLog? && paid.address == token && paid.to == r.txTo && paid.from == sender)
  }

  /** The receipt shows x paid to the receiver by the sender: the value of the sender's own transaction, or a token log
      to the receiver, who is not the called contract. */
  ghost predicate Shows(r: Receipt, token: Address, sender: Address, receiver: Address, x: nat) {
    || (x > 0 && r.value == x && r.txTo == receiver && r.txFrom == sender)
    || exists log | log in r.logs ::
         && log.TransferLog? && log.address == token && log.to == receiver && receiver != r.txTo && log.amount == x
         && Behind(r, log, token, sender)
  }

  /** Neither two funders nor a payout without any. */
  ghost predicate Readable(r: Receipt, token: Address) {
    !TwoFunders(r.logs, token, r.txTo) && (HasPayout(r.logs, token, r.txTo) ==> HasFunder(r.logs, token, r.txTo))
  }

  lemma {:induction false} TokenPaymentsAre(logs: seq<Log>, token: Address, txTo: Address, funder: Address)
    ensures forall f :: f in TokenPayments(logs, token, txTo, funder) <==>
              exists log | log in logs :: IsPayment(log, token, txTo) &&
                f == Found(if log.from == txTo then funder else log.from, log.to, Some(token), log.amount)
  {
    if logs != [] {
      TokenPaymentsAre(logs[1..], token, txTo, funder);
      assert logs == [logs[0]] + logs[1..];
    }
  }

  lemma OneFunder(logs: seq<Log>, token: Address, txTo: Address, log: Log)
    requires !TwoFunders(logs, token, txTo) && log in logs && PaysIn(log, token, txTo)
    ensures log.from == Funder(logs, token, txTo)
  {
    FunderPaysIn(logs, token, txTo);
  }

  /** The matching payments of a readable receipt are what it shows. */
  lemma MatchesAreShown(r: Receipt, token: Address, sender: Address, receiver: Address, x: nat)
    requires Readable(r, token)
    ensures Shows(r, token, sender, receiver, x) <==>
            exists f | f in Meaning(r, token).transfers :: Matches(f, r.txFrom, sender, receiver) && f.amount == x
  {
    hide TwoFunders, HasPayout, HasFunder;
    var funder := Funder(r.logs, token, r.txTo);
    TokenPaymentsAre(r.logs, token, r.txTo, funder);
    var native, tokens := NativePayment(r), TokenPayments(r.logs, token, r.txTo, funder);
    assert Meaning(r, token).transfers == native + tokens;
    if f :| f in native + tokens && Matches(f, r.txFrom, sender, receiver) && f.amount == x {
      if f in tokens {
        var log :| log in r.logs && IsPayment(log, token, r.txTo) &&
                   f == Found(if log.from == r.txTo then funder else log.from, log.to, Some(token), log.amount);
        assert Behind(r, log, token, sender) by { FunderStandsBehind(r, token, log); }
      }
    }
    if Shows(r, token, sender, receiver, x) {
      if x > 0 && r.value == x && r.txTo == receiver && r.txFrom == sender {
        assert native[0] in native + tokens && Matches(native[0], r.txFrom, sender, receiver);
      } else {
        var log :| log in r.logs && log.TransferLog? && log.address == token && log.to == receiver &&
                   receiver != r.txTo && log.amount == x && Behind(r, log, token, sender);
        var f := Found(if log.from == r.txTo then funder else log.from, log.to, Some(token), log.amount);
        assert f in tokens && f in native + tokens;
        if log.from == r.txTo && r.txFrom != sender {
          var paid :| paid in r.logs && paid.TransferLog? && paid.address == token && paid.to == r.txTo &&
                      paid.from == sender;
          OneFunder(r.logs, token, r.txTo, paid);
        }
        assert Matches(f, r.txFrom, sender, receiver);
      }
    }
  }

  lemma FunderStandsBehind(r: Receipt, token: Address, log: Log)
    requires Readable(r, token) && log in r.logs && IsPayment(log, token, r.txTo)
    ensures log.from == r.txTo ==> Behind(r, log, token, Funder(r.logs, token, r.txTo))
  {
    if log.from == r.txTo {
      assert HasPayout(r.logs, token, r.txTo);
      FunderPaysIn(r.logs, token, r.txTo);
    }
  }

  lemma {:induction false} JudgedAmount(transfers: seq<Found>, txFrom: Address, sender: Address, receiver: Address,
                                        amount: nat)
    ensures var v := Judge(transfers, txFrom, sender, receiver, amount);
            && (v.Verified? ==> v.amount >= amount && exists f | f in transfers ::
                  Matches(f, txFrom, sender, receiver) && f.amount == v.amount)
            && (v == Insufficient ==> exists f | f in transfers ::
                  Matches(f, txFrom, sender, receiver) && f.amount < amount)
  {
    hide Matches;
    if transfers != [] {
      JudgedAmount(transfers[1..], txFrom, sender, receiver, amount);
      assert transfers == [transfers[0]] + transfers[1..];
    }
  }

  /** The verdict, told from the logs. */
  lemma VerdictMeans(r: Receipt, status: nat, token: Address, sender: Address, receiver: Address, amount: nat)
    ensures var v := Verification(r, status, token, sender, receiver, amount);
            && (v.Err? <==> TwoFunders(r.logs, token, r.txTo))
            && (v == Ok(CannotParse) <==> v.Ok? && !Readable(r, token))
            && (v == Ok(NotFound) <==> Readable(r, token) && status != 1)
            && (v == Ok(NotMatching) <==>
                  Readable(r, token) && status == 1 && forall x: nat :: !Shows(r, token, sender, receiver, x))
            && (v.Ok? && v.value.Verified? ==>
                  status == 1 && v.value.amount >= amount && Shows(r, token, sender, receiver, v.value.amount))
            && (v == Ok(Insufficient) ==>
                  status == 1 && exists x: nat :: x < amount && Shows(r, token, sender, receiver, x))
  {
    hide TwoFunders, HasPayout, HasFunder, Shows, Judge, Matches;
    if Readable(r, token) {
      var transfers := Meaning(r, token).transfers;
      forall x: nat ensures Shows(r, token, sender, receiver, x) <==>
          exists f | f in transfers :: Matches(f, r.txFrom, sender, receiver) && f.amount == x
      {
        MatchesAreShown(r, token, sender, receiver, x);
      }
      JudgeMeaning(transfers, r.txFrom, sender, receiver, amount);
      JudgedAmount(transfers, r.txFrom, sender, receiver, amount);
      forall f | f in transfers && Matches(f, r.txFrom, sender, receiver)
        ensures Shows(r, token, sender, receiver, f.amount) {}
    }
  }

  /** verify_transaction. Only a confirmed transaction verifies, with an amount its receipt shows the sender to have
      paid the receiver; an unconfirmed one is not found, and a payment by or to somebody else is no match. */
  method VerifyTransaction(r: Receipt, status: nat, token: Address, sender: Address, receiver: Address, amount: nat)
    returns (v: Result<Verdict, ReceiptError>)
    requires PaidInTotal(r.logs, token, r.txTo) < TWO_256
    ensures v == Verification(r, status, token, sender, receiver, amount)
    ensures v.Err? <==> TwoFunders(r.logs, token, r.txTo)
    ensures v == Ok(CannotParse) <==> v.Ok? && !Readable(r, token)
    ensures v == Ok(NotFound) <==> Readable(r, token) && status != 1
    ensures v == Ok(NotMatching) <==>
            Readable(r, token) && status == 1 && forall x: nat :: !Shows(r, token, sender, receiver, x)
    ensures v.Ok? && v.value.Verified? ==>
              status == 1 && v.value.amount >= amount && Shows(r, token, sender, receiver, v.value.amount)
    ensures v == Ok(Insufficient) ==>
              status == 1 && exists x: nat :: x < amount && Shows(r, token, sender, receiver, x)
  {
    VerdictMeans(r, status, token, sender, receiver, amount);
    hide Shows, TwoFunders, Readable, Matches;
    var p := FindPayments(r, token);
    match p {
      case Error(e) => return Err(e);
      case Failure => return Ok(CannotParse);
      case Success(transfers) =>
        if status != 1 {
          return Ok(NotFound);
        }
        for i := 0 to |transfers|
          invariant Judge(transfers[i..], r.txFrom, sender, receiver, amount) ==
                    Judge(transfers, r.txFrom, sender, receiver, amount)
        {
          assert transfers[i..][1..] == transfers[i + 1..];
          if Matches(transfers[i], r.txFrom, sender, receiver) {
            return Ok(if transfers[i].amount >= amount then Verified(transfers[i].amount) else Insufficient);
          }
        }
        return Ok(NotMatching);
    }
  }

  predicate FirstMatch(transfers: seq<Found>, k: int, txFrom: Address, sender: Address, receiver: Address) {
    && 0 <= k < |transfers| && Matches(transfers[k], txFrom, sender, receiver)
    && forall j | 0 <= j < k :: !Matches(transfers[j], txFrom, sender, receiver)
  }

  /** Verified names the first matching payment, with its amount, and only if that is enough; no match at all
      is reported exactly when there is none. */
  lemma {:induction false} JudgeMeaning(transfers: seq<Found>, txFrom: Address, sender: Address, receiver: Address,
                                        amount: nat)
    ensures var v := Judge(transfers, txFrom, sender, receiver, amount);
            && (v == NotMatching <==> forall f | f in transfers :: !Matches(f, txFrom, sender, receiver))
            && (v.Verified? || v == Insufficient || v == NotMatching)
            && forall k | FirstMatch(transfers, k, txFrom, sender, receiver) ::
                 && (v.Verified? <==> transfers[k].amount >= amount)
                 && (v.Verified? ==> v.amount == transfers[k].amount)
  {
    if transfers != [] {
      JudgeMeaning(transfers[1..], txFrom, sender, receiver, amount);
      assert transfers == [transfers[0]] + transfers[1..];
      forall k | FirstMatch(transfers, k, txFrom, sender, receiver) && k > 0
        ensures FirstMatch(transfers[1..], k - 1, txFrom, sender, receiver)
      {
        assert !Matches(transfers[0], txFrom, sender, receiver);
      }
    }
  }

  lemma {:induction false} FoundBatchAt(token: Address, funder: Address, batch: seq<Payment>, k: nat)
    requires k < |batch|
    ensures FoundBatch(token, funder, batch)[k] == Found(funder, batch[k].to, Some(token), batch[k].amount)
  {
    if k > 0 { FoundBatchAt(token, funder, batch[1..], k - 1); }
  }

  /** A batched payment verifies: asked about the first payment to a receiver in a confirmed multi transaction,
      verification answers with exactly the amount the batch pays it. */
  lemma BatchedPaymentVerifies(tx: Tx, token: Address, left: Leftover, k: nat)
    requires tx.call.IsMulti() && tx.value == 0 && tx.from != tx.to && NoneTo(Payouts(tx), tx.to)
    requires k < |Payouts(tx)| && forall j | 0 <= j < k :: Payouts(tx)[j].to != Payouts(tx)[k].to
    ensures var p := Payouts(tx)[k];
            Verification(ReceiptOf(tx, token, left), 1, token, tx.from, p.to, p.amount) == Ok(Verified(p.amount))
  {
    hide Meaning, Payouts, Emits, Judge;
    var batch := Payouts(tx);
    var found := FoundBatch(token, tx.from, batch);
    BatchReadsBack(tx, token, left);
    forall j | 0 <= j < |batch|
      ensures found[j] == Found(tx.from, batch[j].to, Some(token), batch[j].amount)
    {
      FoundBatchAt(token, tx.from, batch, j);
    }
    assert FirstMatch(found, k, tx.from, tx.from, batch[k].to);
    JudgeMeaning(found, tx.from, tx.from, batch[k].to, batch[k].amount);
  }
}
