/** Blockchain transactions, what each contract call pays out, and the encoders of transaction.rs. */
module Contracts {
  import opened Prelude
  import opened Bytes
  import opened Text

  datatype PaymentError =
    | NoAllowanceFound(owner: string, tokenAddr: string, spender: Address, chainId: int, amount: nat)
    | Custom(message: string)

  /** The method and arguments a transaction calls its target with. */
  datatype Call =
    | EthTransfer
    | Erc20Transfer(to: Address, amount: nat)
    | DepositSingleTransfer(id: nat, to: Address, amount: nat)
    | DepositSingleTransferAndClose(id: nat, to: Address, amount: nat)
    | DepositTransfer(id: nat, words: seq<Word>)
    | DepositTransferAndClose(id: nat, words: seq<Word>)
    | CloseDeposit(id: nat)
    | MultiDirect(recipients: seq<Address>, amounts: seq<nat>)
    | MultiIndirect(recipients: seq<Address>, amounts: seq<nat>)
    | MultiDirectPacked(words: seq<Word>)
    | MultiIndirectPacked(words: seq<Word>, sum: nat)
  {
    predicate IsLock() {
      DepositSingleTransfer? || DepositSingleTransferAndClose? || DepositTransfer? || DepositTransferAndClose? ||
      CloseDeposit?
    }

    predicate Closes() {
      DepositSingleTransferAndClose? || DepositTransferAndClose? || CloseDeposit?
    }

    predicate IsPacked() {
      DepositTransfer? || DepositTransferAndClose? || MultiDirectPacked? || MultiIndirectPacked?
    }

    predicate IsMulti() {
      MultiDirect? || MultiDirectPacked? || MultiIndirect? || MultiIndirectPacked?
    }

    predicate IsDirect() {
      MultiDirect? || MultiDirectPacked?
    }
  }

  datatype Tx = Tx(from: Address, to: Address, chainId: int, value: nat, call: Call)

  /** What a confirmed transaction pays, as the contracts define it. The indirect packed method
      reverts, and so pays nobody, when the words do not add up to the announced sum. */
  function Payouts(tx: Tx): seq<Payment> {
    match tx.call
    case EthTransfer => [Payment(tx.to, tx.value)]
    case Erc20Transfer(to, amount) => [Payment(to, amount)]
    case DepositSingleTransfer(_, to, amount) => [Payment(to, amount)]
    case DepositSingleTransferAndClose(_, to, amount) => [Payment(to, amount)]
    case DepositTransfer(_, words) => UnpackWords(words)
    case DepositTransferAndClose(_, words) => UnpackWords(words)
    case CloseDeposit(_) => []
    case MultiDirect(recipients, amounts) => Zip(recipients, amounts)
    case MultiIndirect(recipients, amounts) => Zip(recipients, amounts)
    case MultiDirectPacked(words) => UnpackWords(words)
    case MultiIndirectPacked(words, sum) =>
      if Sum(Amounts(UnpackWords(words))) == sum then UnpackWords(words) else []
  }

  /** Total paid to one receiver. */
  function Paid(payments: seq<Payment>, to: Address): nat {
    if payments == [] then 0
    else (if payments[0].to == to then payments[0].amount else 0) + Paid(payments[1..], to)
  }

  // ---- configuration ----

  datatype ChainSetup = ChainSetup(multiContract: Option<Address>, lockContract: Option<Address>, maxAtOnce: nat)

  datatype PaymentSetup = PaymentSetup(
    chains: map<int, ChainSetup>,
    skipMultiContractCheck: bool,
    useDirectMethod: bool,
    useUnpackedMethod: bool,
    useTransferForSinglePayment: bool)

  /** The part of a transfer that one transaction must agree on. */
  datatype MultiKey = MultiKey(from: string, chainId: int, token: Option<string>, deposit: Option<string>)

  // ---- encoders ----

  function CreateErc20Transfer(from: Address, token: Address, to: Address, amount: nat, chainId: int): Tx {
    Tx(from, token, chainId, 0, Erc20Transfer(to, amount))
  }

  function CreateEthTransfer(from: Address, to: Address, chainId: int, amount: nat): Tx {
    Tx(from, to, chainId, amount, EthTransfer)
  }

  function CreateCloseDeposit(from: Address, lock: Address, chainId: int, id: nat): Tx {
    Tx(from, lock, chainId, 0, CloseDeposit(id))
  }

  function CreateErc20DepositTransfer(from: Address, lock: Address, to: Address, amount: nat, chainId: int, id: nat,
                                      finish: bool): Tx
  {
    Tx(from, lock, chainId, 0,
       if !finish then DepositSingleTransfer(id, to, amount) else DepositSingleTransferAndClose(id, to, amount))
  }

  function CreateErc20TransferMultiDeposit(from: Address, lock: Address, to: seq<Address>, amounts: seq<nat>,
                                           chainId: int, id: nat, finish: bool): Result<Tx, PaymentError>
  {
    match Pack(to, amounts)
    case None => Err(Custom("Amount is too big to use packed error"))
    case Some(packed) =>
      Ok(Tx(from, lock, chainId, 0,
            if !finish then DepositTransfer(id, packed.words) else DepositTransferAndClose(id, packed.words)))
  }

  function CreateErc20TransferMulti(from: Address, contract: Address, to: seq<Address>, amounts: seq<nat>,
                                    chainId: int, direct: bool, unpacked: bool): Result<Tx, PaymentError>
  {
    if unpacked then
      Ok(Tx(from, contract, chainId, 0, if direct then MultiDirect(to, amounts) else MultiIndirect(to, amounts)))
    else match Pack(to, amounts)
      case None => Err(Custom("Amount is too big to use packed error"))
      case Some(packed) =>
        Ok(Tx(from, contract, chainId, 0,
              if direct then MultiDirectPacked(packed.words) else MultiIndirectPacked(packed.words, packed.sum)))
  }

  /** The choice of encoding for one chunk of a multi payment (batching.rs). */
  function EncodeChunk(setup: PaymentSetup, chain: ChainSetup, key: MultiKey, to: seq<Address>, amounts: seq<nat>,
                       finish: bool): Result<Tx, PaymentError>
    requires |to| == |amounts| > 0 && key.token.Some?
  {
    var single := setup.useTransferForSinglePayment || chain.multiContract.None?;
    if single && |to| == 1 then
      match key.deposit {
        case Some(deposit) =>
          if chain.lockContract.None? then Err(Custom("Lock contract address not set"))
          else (match (ParseU256(deposit), ParseAddress(key.from))
            case (None, _) => Err(Custom("Invalid deposit id"))
            case (_, None) => Err(Custom("Invalid from address"))
            case (Some(id), Some(from)) =>
              Ok(CreateErc20DepositTransfer(from, chain.lockContract.value, to[0], amounts[0], key.chainId, id,
                                            finish)))
        case None =>
          match (ParseAddress(key.from), ParseAddress(key.token.value))
          case (None, _) => Err(Custom("Invalid from address"))
          case (_, None) => Err(Custom("Invalid token address"))
          case (Some(from), Some(token)) =>
            Ok(CreateErc20Transfer(from, token, to[0], amounts[0], key.chainId))
      }
    else match key.deposit {
      case Some(deposit) =>
        if chain.lockContract.None? then Err(Custom("Lock contract address not set"))
        else (match (ParseU256(deposit), ParseAddress(key.from))
          case (None, _) => Err(Custom("Invalid deposit id"))
          case (_, None) => Err(Custom("Invalid from address"))
          case (Some(id), Some(from)) =>
            CreateErc20TransferMultiDeposit(from, chain.lockContract.value, to, amounts, key.chainId, id, finish))
      case None =>
        if chain.multiContract.None? then Err(Custom("Multi contract address not set"))
        else (match ParseAddress(key.from)
          case None => Err(Custom("Invalid from address"))
          case Some(from) =>
            CreateErc20TransferMulti(from, chain.multiContract.value, to, amounts, key.chainId,
                                     setup.useDirectMethod, setup.useUnpackedMethod))
    }
  }

  /** Whether a chunk of `size` receivers is paid with packed words. */
  predicate Packs(setup: PaymentSetup, chain: ChainSetup, key: MultiKey, size: nat) {
    && !((setup.useTransferForSinglePayment || chain.multiContract.None?) && size == 1)
    && (key.deposit.Some? || !setup.useUnpackedMethod)
  }

  /** The payer is readable, and what the encoding of `size` receivers needs is there and readable. */
  predicate Equipped(setup: PaymentSetup, chain: ChainSetup, key: MultiKey, size: nat) {
    && key.token.Some? && ParseAddress(key.from).Some?
    && if key.deposit.Some? then chain.lockContract.Some? && ParseU256(key.deposit.value).Some?
       else if (setup.useTransferForSinglePayment || chain.multiContract.None?) && size == 1
       then ParseAddress(key.token.value).Some?
       else chain.multiContract.Some?
  }

  /** One receiver's amount can be sent: in packed words it must not exceed 2^96. */
  predicate Fits(setup: PaymentSetup, chain: ChainSetup, key: MultiKey, size: nat, amount: nat) {
    Equipped(setup, chain, key, size) && (Packs(setup, chain, key, size) ==> amount <= TWO_96)
  }

  lemma EncodesByGuards(setup: PaymentSetup, chain: ChainSetup, key: MultiKey, to: seq<Address>, amounts: seq<nat>,
                        finish: bool)
    requires |to| == |amounts| > 0 && key.token.Some?
    ensures EncodeChunk(setup, chain, key, to, amounts, finish).Ok? <==>
            Equipped(setup, chain, key, |to|) && (Packs(setup, chain, key, |to|) ==> Pack(to, amounts).Some?)
  {
    hide ParseAddress, ParseU256, Pack;
  }

  /** Exactly when a chunk can be encoded. */
  lemma EncodesIff(setup: PaymentSetup, chain: ChainSetup, key: MultiKey, to: seq<Address>, amounts: seq<nat>,
                   finish: bool)
    requires |to| == |amounts| > 0 && key.token.Some?
    ensures EncodeChunk(setup, chain, key, to, amounts, finish).Ok? <==>
            forall i | 0 <= i < |amounts| :: Fits(setup, chain, key, |to|, amounts[i])
  {
    hide EncodeChunk, Equipped, Packs, Pack;
    EncodesByGuards(setup, chain, key, to, amounts, finish);
    PackAccepts(to, amounts);
    if forall i | 0 <= i < |amounts| :: Fits(setup, chain, key, |to|, amounts[i]) {
      assert Fits(setup, chain, key, |to|, amounts[0]);
      if Packs(setup, chain, key, |to|) {
        forall x | x in amounts ensures x <= TWO_96 {
          var i :| 0 <= i < |amounts| && amounts[i] == x;
          assert Fits(setup, chain, key, |to|, amounts[i]);
        }
      }
    } else {
      var i :| 0 <= i < |amounts| && !Fits(setup, chain, key, |to|, amounts[i]);
      assert amounts[i] in amounts;
    }
  }

  /** Settings, deposit and chunk size alone decide the packing. */
  lemma EncodingPacks(setup: PaymentSetup, chain: ChainSetup, key: MultiKey, to: seq<Address>, amounts: seq<nat>,
                      finish: bool)
    requires |to| == |amounts| > 0 && key.token.Some?
    requires EncodeChunk(setup, chain, key, to, amounts, finish).Ok?
    ensures EncodeChunk(setup, chain, key, to, amounts, finish).value.call.IsPacked() <==>
            Packs(setup, chain, key, |to|)
  {
  }

  /** Which contract is called, and with which method: the lock contract for a payment from a deposit, the token itself
      for a single payment where that is wanted, otherwise the multi contract, with the methods the settings name. */
  lemma EncodingTarget(setup: PaymentSetup, chain: ChainSetup, key: MultiKey, to: seq<Address>, amounts: seq<nat>,
                       finish: bool)
    requires |to| == |amounts| > 0 && key.token.Some?
    requires EncodeChunk(setup, chain, key, to, amounts, finish).Ok?
    ensures var tx := EncodeChunk(setup, chain, key, to, amounts, finish).value;
            var single := (setup.useTransferForSinglePayment || chain.multiContract.None?) && |to| == 1;
            && (tx.call.IsLock() <==> key.deposit.Some?)
            && (tx.call.IsLock() ==> chain.lockContract == Some(tx.to) && !tx.call.CloseDeposit?)
            && (tx.call.DepositSingleTransfer? || tx.call.DepositSingleTransferAndClose? <==>
                key.deposit.Some? && single)
            && (tx.call.Erc20Transfer? <==> key.deposit.None? && single)
            && (tx.call.Erc20Transfer? ==> ParseAddress(key.token.value) == Some(tx.to))
            && (tx.call.IsMulti() <==> key.deposit.None? && !single)
            && (tx.call.IsMulti() ==> chain.multiContract == Some(tx.to))
            && (tx.call.IsMulti() ==> (tx.call.IsDirect() <==> setup.useDirectMethod))
            && (tx.call.IsMulti() ==> (tx.call.IsPacked() <==> !setup.useUnpackedMethod))
  {
    hide ParseAddress, ParseU256, Pack;
  }

  // ---- what the encoders preserve ----

  lemma {:induction false} PaidPointwise(p: seq<Payment>, q: seq<Payment>, a: Address)
    requires |p| == |q|
    requires forall i :: 0 <= i < |p| ==> p[i].to == q[i].to && p[i].amount <= q[i].amount
    ensures Paid(p, a) <= Paid(q, a)
  {
    if p != [] { PaidPointwise(p[1..], q[1..], a); }
  }

  lemma {:induction false} PaidStrictlyLess(p: seq<Payment>, q: seq<Payment>, i: nat)
    requires |p| == |q| && i < |p|
    requires forall j :: 0 <= j < |p| ==> p[j].to == q[j].to && p[j].amount <= q[j].amount
    requires p[i].amount < q[i].amount
    ensures Paid(p, q[i].to) < Paid(q, q[i].to)
  {
    if i == 0 { PaidPointwise(p[1..], q[1..], q[0].to); }
    else { PaidStrictlyLess(p[1..], q[1..], i - 1); }
  }

  lemma {:induction false} PaidAtLeast(p: seq<Payment>, i: nat)
    requires i < |p|
    ensures Paid(p, p[i].to) >= p[i].amount
  {
    if i > 0 { PaidAtLeast(p[1..], i - 1); }
  }

  ghost predicate PaysSame(p: seq<Payment>, q: seq<Payment>) {
    forall a: Address :: Paid(p, a) == Paid(q, a)
  }

  ghost predicate PaysAtMost(p: seq<Payment>, q: seq<Payment>) {
    forall a: Address :: Paid(p, a) <= Paid(q, a)
  }

  /** Dropping a positive payment from a batch is visible to its receiver. */
  lemma Underpays(p: seq<Payment>, q: seq<Payment>, lost: nat)
    requires |p| == |q| && lost > 0
    requires forall j :: 0 <= j < |p| ==> p[j] == Payment(q[j].to, if q[j].amount == lost then 0 else q[j].amount)
    ensures PaysSame(p, q) <==> forall j :: 0 <= j < |q| ==> q[j].amount != lost
    ensures PaysSame([], q) ==> forall j :: 0 <= j < |q| ==> q[j].amount != lost
  {
    if i :| 0 <= i < |q| && q[i].amount == lost {
      PaidStrictlyLess(p, q, i);
      PaidAtLeast(q, i);
      assert Paid([], q[i].to) == 0;
    } else {
      assert p == q;
    }
  }

  /** The words of an accepted batch, decoded, against the batch. */
  lemma {:induction false} DecodedWords(to: seq<Address>, amounts: seq<nat>, p: seq<Payment>, q: seq<Payment>)
    requires |to| == |amounts| && Pack(to, amounts).Some?
    requires p == UnpackWords(Pack(to, amounts).value.words) && q == Zip(to, amounts)
    ensures |p| == |q|
    ensures forall j :: 0 <= j < |p| ==> p[j] == Payment(q[j].to, if q[j].amount == TWO_96 then 0 else q[j].amount)
  {
    UnpackedBatch(to, amounts);
  }

  /** Packed words pay the batch they were packed from, receiver by receiver, exactly when no amount is 2^96. */
  lemma {:induction false} PackedPays(to: seq<Address>, amounts: seq<nat>, p: seq<Payment>, q: seq<Payment>)
    requires |to| == |amounts| && Pack(to, amounts).Some?
    requires p == UnpackWords(Pack(to, amounts).value.words) && q == Zip(to, amounts)
    ensures PaysSame(p, q) <==> TWO_96 !in amounts
    ensures PaysSame([], q) ==> TWO_96 !in amounts
    ensures PaysAtMost(p, q)
  {
    DecodedWords(to, amounts, p, q);
    forall a: Address ensures Paid(p, a) <= Paid(q, a) { PaidPointwise(p, q, a); }
    Underpays(p, q, TWO_96);
    assert forall j :: 0 <= j < |q| ==> q[j].amount == amounts[j];
  }

  /** The arguments of a payment call that carries this batch. */
  predicate Carries(call: Call, to: seq<Address>, amounts: seq<nat>)
    requires |to| == |amounts|
  {
    match call
    case DepositTransfer(_, words) => Pack(to, amounts) == Some(Packed(words, Sum(amounts)))
    case DepositTransferAndClose(_, words) => Pack(to, amounts) == Some(Packed(words, Sum(amounts)))
    case MultiDirectPacked(words) => Pack(to, amounts) == Some(Packed(words, Sum(amounts)))
    case MultiIndirectPacked(words, sum) => Pack(to, amounts) == Some(Packed(words, sum))
    case MultiDirect(recipients, a) => recipients == to && a == amounts
    case MultiIndirect(recipients, a) => recipients == to && a == amounts
    case Erc20Transfer(t, a) => to == [t] && amounts == [a]
    case DepositSingleTransfer(_, t, a) => to == [t] && amounts == [a]
    case DepositSingleTransferAndClose(_, t, a) => to == [t] && amounts == [a]
    case CloseDeposit(_) => false
    case EthTransfer => false
  }

  lemma ZipSingle(to: Address, amount: nat)
    ensures Zip([to], [amount]) == [Payment(to, amount)]
  {
  }

  /** Every payment call pays exactly the batch it carries, receiver by receiver, unless the encoding
      is packed and some amount is 2^96; even then it pays nobody more. */
  lemma {:induction false} CarriedBatchIsPaid(tx: Tx, to: seq<Address>, amounts: seq<nat>)
    requires |to| == |amounts| && Carries(tx.call, to, amounts)
    ensures PaysSame(Payouts(tx), Zip(to, amounts)) <==> !(tx.call.IsPacked() && TWO_96 in amounts)
    ensures PaysAtMost(Payouts(tx), Zip(to, amounts))
  {
    if tx.call.IsPacked() {
      var words := Pack(to, amounts).value.words;
      PackedPays(to, amounts, UnpackWords(words), Zip(to, amounts));
      PackRoundTrip(to, amounts);
    } else if |to| == 1 {
      ZipSingle(to[0], amounts[0]);
      assert to == [to[0]] && amounts == [amounts[0]];
    }
  }

  /** The chunk's encoding carries its batch whichever method is chosen, keeps sender, chain, token and
      deposit, and closes the deposit exactly when asked to. */
  lemma {:induction false} EncodeChunkCarries(setup: PaymentSetup, chain: ChainSetup, key: MultiKey, to: seq<Address>,
                                              amounts: seq<nat>, finish: bool)
    requires |to| == |amounts| > 0 && key.token.Some?
    requires EncodeChunk(setup, chain, key, to, amounts, finish).Ok?
    ensures var tx := EncodeChunk(setup, chain, key, to, amounts, finish).value;
            && Carries(tx.call, to, amounts)
            && tx.chainId == key.chainId && tx.value == 0
            && ParseAddress(key.from) == Some(tx.from)
            && (tx.call.IsLock() <==> key.deposit.Some?)
            && (tx.call.IsLock() ==> ParseU256(key.deposit.value) == Some(tx.call.id))
            && (tx.call.Closes() <==> key.deposit.Some? && finish)
            && (tx.call.Erc20Transfer? ==> ParseAddress(key.token.value) == Some(tx.to))
  {
    if |to| == 1 {
      assert to == [to[0]] && amounts == [amounts[0]];
    }
  }
}
