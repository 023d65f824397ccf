/** Big-endian byte strings, the 32-byte payment words of the multi-transfer contract, and deposit ids. */
module Bytes {
  import opened Prelude

  type Byte = n: nat | n < 256

  /** The `width` low bytes of n, most significant first. */
  function ToBytes(n: nat, width: nat): (b: seq<Byte>)
    ensures |b| == width
  {
    if width == 0 then [] else ToBytes(n / 256, width - 1) + [n % 256]
  }

  function FromBytes(b: seq<Byte>): nat {
    if b == [] then 0 else FromBytes(b[..|b| - 1]) * 256 + b[|b| - 1]
  }

  lemma {:induction false} FromBytesBound(b: seq<Byte>)
    ensures FromBytes(b) < Pow(256, |b|)
  {
    if b != [] {
      FromBytesBound(b[..|b| - 1]);
    }
  }

  /** Writing n into `width` bytes and reading it back keeps n modulo 256^width. */
  lemma {:induction false} ReadBack(n: nat, width: nat)
    ensures Pow(256, width) > 0
    ensures FromBytes(ToBytes(n, width)) == n % Pow(256, width)
  {
    PowPositive(256, width);
    if width > 0 {
      var p := Pow(256, width - 1);
      ReadBack(n / 256, width - 1);
      var b := ToBytes(n, width);
      assert b[..|b| - 1] == ToBytes(n / 256, width - 1);
      SplitModulo(n, p);
    }
  }

  lemma SplitModulo(n: nat, p: nat)
    requires p > 0
    ensures n % (256 * p) == ((n / 256) % p) * 256 + n % 256
  {
    var q, r := n / 256, n % 256;
    var k, m := q / p, q % p;
    assert q == k * p + m;
    assert n == (k * p + m) * 256 + r;
    assert n == k * (256 * p) + (m * 256 + r);
    assert m * 256 + r < 256 * p by { assert m <= p - 1; }
    RemainderUnique(n, 256 * p, k, m * 256 + r);
  }

  lemma RemainderUnique(n: nat, d: nat, k: nat, r: nat)
    requires d > 0 && r < d && n == k * d + r
    ensures n % d == r && n / d == k
  {
    var k', r' := n / d, n % d;
    assert n == k' * d + r';
    assert (k' - k) * d == r - r';
    assert (k - k') * d == r' - r;
    if k < k' { MultipleGrows(k' - k, d); }
    if k' < k { MultipleGrows(k - k', d); }
  }

  lemma SmallRemainder(n: nat, d: nat)
    requires n < d
    ensures n % d == n
  {
  }

  lemma MultipleGrows(k: nat, d: nat)
    requires k > 0
    ensures k * d >= d
  {
  }

  /** The last bytes of a wide encoding are the narrow encoding. */
  lemma {:induction false} SuffixIsNarrower(n: nat, width: nat, keep: nat)
    requires keep <= width
    ensures ToBytes(n, width)[width - keep..] == ToBytes(n, keep)
  {
    if keep > 0 {
      SuffixIsNarrower(n / 256, width - 1, keep - 1);
      var front := ToBytes(n / 256, width - 1);
      assert (front + [n % 256])[width - keep..] == front[width - keep..] + [n % 256];
    }
  }

  lemma {:induction false} Concatenation(a: seq<Byte>, b: seq<Byte>)
    ensures FromBytes(a + b) == FromBytes(a) * Pow(256, |b|) + FromBytes(b)
  {
    if b == [] {
      assert a + b == a;
    } else {
      var front := b[..|b| - 1];
      assert (a + b)[..|a + b| - 1] == a + front;
      Concatenation(a, front);
      assert (FromBytes(a) * Pow(256, |front|)) * 256 == FromBytes(a) * (256 * Pow(256, |front|));
    }
  }

  // ---- the packed payments of multi.rs ----

  datatype Payment = Payment(to: Address, amount: nat)

  type Word = w: seq<Byte> | |w| == 32 witness ToBytes(0, 32)

  /** A payment word: the amount written over 32 bytes, then the receiver written over the first 20. */
  function PackWord(receiver: Address, amount: nat): Word {
    ToBytes(receiver, 20) + ToBytes(amount, 32)[20..]
  }

  /** How the contracts read a word: address(bytes20(w)) and uint256(w) % 2**96. */
  function UnpackWord(w: Word): Payment {
    var a := FromBytes(w[..20]) % TWO_160;
    Payment(a, FromBytes(w) % TWO_96)
  }

  function Zip(receivers: seq<Address>, amounts: seq<nat>): (p: seq<Payment>)
    ensures |p| == if |receivers| < |amounts| then |receivers| else |amounts|
    ensures forall i :: 0 <= i < |p| ==> p[i] == Payment(receivers[i], amounts[i])
  {
    if receivers == [] || amounts == [] then []
    else [Payment(receivers[0], amounts[0])] + Zip(receivers[1..], amounts[1..])
  }

  function Sum(amounts: seq<nat>): nat {
    if amounts == [] then 0 else Sum(amounts[..|amounts| - 1]) + amounts[|amounts| - 1]
  }

  function PackWords(receivers: seq<Address>, amounts: seq<nat>): (w: seq<Word>)
    ensures |w| == if |receivers| < |amounts| then |receivers| else |amounts|
    ensures forall i :: 0 <= i < |w| ==> w[i] == PackWord(receivers[i], amounts[i])
  {
    if receivers == [] || amounts == [] then []
    else [PackWord(receivers[0], amounts[0])] + PackWords(receivers[1..], amounts[1..])
  }

  function UnpackWords(words: seq<Word>): (p: seq<Payment>)
    ensures |p| == |words|
    ensures forall i :: 0 <= i < |p| ==> p[i] == UnpackWord(words[i])
  {
    if words == [] then [] else [UnpackWord(words[0])] + UnpackWords(words[1..])
  }

  function Amounts(payments: seq<Payment>): (a: seq<nat>)
    ensures |a| == |payments|
    ensures forall i :: 0 <= i < |a| ==> a[i] == payments[i].amount
  {
    if payments == [] then [] else [payments[0].amount] + Amounts(payments[1..])
  }

  datatype Packed = Packed(words: seq<Word>, sum: nat)

  /** `pack_transfers_for_multi_contract`: refuses amounts above 2^96, but accepts 2^96 itself. */
  function Pack(receivers: seq<Address>, amounts: seq<nat>): Option<Packed> {
    if exists i :: 0 <= i < |amounts| && amounts[i] > TWO_96 then None
    else Some(Packed(PackWords(receivers, amounts), Sum(amounts)))
  }

  lemma ByteLimits()
    ensures Pow(256, 8) == TWO_64 && Pow(256, 12) == TWO_96 && Pow(256, 20) == TWO_160 && Pow(256, 32) == TWO_256
  {
  }

  /** A word always decodes to its receiver, and to its amount modulo 2^96. */
  lemma UnpackPackWord(receiver: Address, amount: nat)
    ensures UnpackWord(PackWord(receiver, amount)) == Payment(receiver, amount % TWO_96)
  {
    ByteLimits();
    var w := PackWord(receiver, amount);
    ReadBack(receiver, 20);
    SmallRemainder(receiver, TWO_160);
    assert w[..20] == ToBytes(receiver, 20);
    SuffixIsNarrower(amount, 32, 12);
    var low := ToBytes(amount, 12);
    assert w == w[..20] + low;
    Concatenation(w[..20], low);
    ReadBack(amount, 12);
    FromBytesBound(low);
    RemainderUnique(FromBytes(w), TWO_96, FromBytes(w[..20]), FromBytes(low));
  }

  lemma {:induction false} SumIsPointwise(a: seq<nat>, b: seq<nat>)
    requires |a| == |b|
    requires forall i :: 0 <= i < |a| ==> a[i] <= b[i]
    ensures Sum(a) <= Sum(b)
    ensures Sum(a) == Sum(b) ==> a == b
  {
    if a != [] {
      var n := |a| - 1;
      SumIsPointwise(a[..n], b[..n]);
      assert a == a[..n] + [a[n]] && b == b[..n] + [b[n]];
    }
  }

  /** What an accepted batch decodes to: the batch with every amount 2^96 read as 0. */
  lemma UnpackedBatch(receivers: seq<Address>, amounts: seq<nat>)
    requires |receivers| == |amounts|
    requires forall i :: 0 <= i < |amounts| ==> amounts[i] <= TWO_96
    ensures var d := UnpackWords(PackWords(receivers, amounts));
            && |d| == |amounts|
            && forall i :: 0 <= i < |d| ==>
                  d[i] == Payment(receivers[i], if amounts[i] == TWO_96 then 0 else amounts[i])
  {
    var decoded := UnpackWords(PackWords(receivers, amounts));
    forall i | 0 <= i < |amounts|
      ensures decoded[i] == Payment(receivers[i], if amounts[i] == TWO_96 then 0 else amounts[i])
    {
      UnpackPackWord(receivers[i], amounts[i]);
      if amounts[i] == TWO_96 { RemainderUnique(TWO_96, TWO_96, 1, 0); }
      else { RemainderUnique(amounts[i], TWO_96, 0, amounts[i]); }
    }
  }

  /** The packing round trip: an accepted batch decodes to itself, in order and with the returned
      sum, exactly when no amount is 2^96. */
  lemma PackRoundTrip(receivers: seq<Address>, amounts: seq<nat>)
    requires |receivers| == |amounts|
    requires Pack(receivers, amounts).Some?
    ensures var p := Pack(receivers, amounts).value;
            && (UnpackWords(p.words) == Zip(receivers, amounts) <==> TWO_96 !in amounts)
            && (Sum(Amounts(UnpackWords(p.words))) == p.sum <==> TWO_96 !in amounts)
  {
    var p := Pack(receivers, amounts).value;
    var decoded, batch := UnpackWords(p.words), Zip(receivers, amounts);
    UnpackedBatch(receivers, amounts);
    SumIsPointwise(Amounts(decoded), amounts);
    if TWO_96 !in amounts {
      assert decoded == batch;
      assert Amounts(decoded) == amounts;
    } else {
      var i :| 0 <= i < |amounts| && amounts[i] == TWO_96;
      assert decoded[i].amount == 0 && Amounts(decoded)[i] != amounts[i];
    }
  }

  /** Every accepted amount other than 2^96 is below 2^96, so 2^96 is the only exception. */
  lemma PackAccepts(receivers: seq<Address>, amounts: seq<nat>)
    ensures Pack(receivers, amounts).Some? <==> forall x | x in amounts :: x <= TWO_96
  {
    if i :| 0 <= i < |amounts| && amounts[i] > TWO_96 { assert amounts[i] in amounts; }
  }

  /** One buffer of the loop: write the amount big-endian, then overwrite the first 20 bytes. */
  method FillWord(receiver: Address, amount: nat) returns (w: Word)
    ensures w == PackWord(receiver, amount)
  {
    var packet := new Byte[32];
    WriteBigEndian(packet, amount);
    var head := new Byte[20];
    WriteBigEndian(head, receiver);
    var tail := ToBytes(amount, 32);
    assert packet[..] == tail;
    for i := 0 to 20
      invariant forall j :: 0 <= j < i ==> packet[j] == head[j]
      invariant forall j :: i <= j < 32 ==> packet[j] == tail[j]
      invariant head[..] == ToBytes(receiver, 20)
    {
      packet[i] := head[i];
    }
    assert packet[..] == head[..] + tail[20..];
    return packet[..];
  }

  method WriteBigEndian(buffer: array<Byte>, n: nat)
    modifies buffer
    ensures buffer[..] == ToBytes(n, buffer.Length)
  {
    var rest, i := n, buffer.Length;
    while i > 0
      invariant 0 <= i <= buffer.Length
      invariant ToBytes(n, buffer.Length) == ToBytes(rest, i) + buffer[i..]
    {
      i := i - 1;
      buffer[i] := rest % 256;
      rest := rest / 256;
    }
  }

  method PackTransfers(receivers: seq<Address>, amounts: seq<nat>) returns (r: Option<Packed>)
    ensures r == Pack(receivers, amounts)
  {
    var sum := 0;
    for i := 0 to |amounts|
      invariant forall j :: 0 <= j < i ==> amounts[j] <= TWO_96
      invariant sum == Sum(amounts[..i])
    {
      if amounts[i] > TWO_96 {
        return None;
      }
      sum := sum + amounts[i];
      assert amounts[..i + 1][..i] == amounts[..i];
    }
    assert amounts[..|amounts|] == amounts;
    var words: seq<Word> := [];
    var n := Min(|receivers|, |amounts|);
    for i := 0 to n
      invariant |words| == i
      invariant forall j :: 0 <= j < i ==> words[j] == PackWord(receivers[j], amounts[j])
    {
      var w := FillWord(receivers[i], amounts[i]);
      words := words + [w];
    }
    assert words == PackWords(receivers, amounts);
    return Some(Packed(words, sum));
  }

  // ---- deposit ids of eth.rs ----

  /** `deposit_id_from_nonce`: 20 bytes of funder, 4 zero bytes, 8 bytes of nonce. */
  method DepositIdFromNonce(funder: Address, nonce: nat) returns (id: nat)
    requires nonce < TWO_64
    ensures id == funder * TWO_96 + nonce
    ensures id < TWO_256
  {
    var slice := new Byte[32](_ => 0);
    var head := ToBytes(funder, 20);
    var tail := ToBytes(nonce, 8);
    for i := 0 to 20
      invariant forall j :: 0 <= j < i ==> slice[j] == head[j]
      invariant forall j :: i <= j < 32 ==> slice[j] == 0
    {
      slice[i] := head[i];
    }
    for i := 0 to 8
      invariant forall j :: 0 <= j < 20 ==> slice[j] == head[j]
      invariant forall j :: 20 <= j < 24 ==> slice[j] == 0
      invariant forall j :: 0 <= j < i ==> slice[24 + j] == tail[j]
    {
      slice[24 + i] := tail[i];
    }
    assert slice[..] == head + ([0, 0, 0, 0] + tail);
    DepositIdValue(funder, nonce);
    id := FromBytes(slice[..]);
  }

  lemma SmallZero()
    ensures ToBytes(0, 4) == [0, 0, 0, 0]
  {
  }

  lemma DepositIdValue(funder: Address, nonce: nat)
    requires nonce < TWO_64
    ensures FromBytes(ToBytes(funder, 20) + ([0, 0, 0, 0] + ToBytes(nonce, 8))) == funder * TWO_96 + nonce
    ensures funder * TWO_96 + nonce < TWO_256
  {
    ByteLimits();
    var gap: seq<Byte> := [0, 0, 0, 0];
    Concatenation(ToBytes(funder, 20), gap + ToBytes(nonce, 8));
    Concatenation(gap, ToBytes(nonce, 8));
    assert gap == ToBytes(0, 4) by { SmallZero(); }
    ReadBack(0, 4);
    ReadBack(funder, 20);
    ReadBack(nonce, 8);
    SmallRemainder(funder, TWO_160);
    SmallRemainder(nonce, TWO_64);
    assert Pow(256, 12) == Pow(256, 4 + 8);
  }

  /** `nonce_from_deposit_id`: the last 8 of the 32 big-endian bytes. */
  method NonceFromDepositId(id: nat) returns (nonce: nat)
    requires id < TWO_256
    ensures nonce == id % TWO_64
  {
    var slice := new Byte[32];
    WriteBigEndian(slice, id);
    SuffixIsNarrower(id, 32, 8);
    ReadBack(id, 8);
    ByteLimits();
    assert slice[24..] == ToBytes(id, 32)[24..];
    nonce := FromBytes(slice[24..]);
  }

  /** Decoding a deposit id gives its nonce back, and ids of different (funder, nonce) pairs differ. */
  lemma DepositIdInjective(f1: Address, n1: nat, f2: Address, n2: nat)
    requires n1 < TWO_64 && n2 < TWO_64
    ensures (f1 * TWO_96 + n1) % TWO_64 == n1
    ensures f1 * TWO_96 + n1 == f2 * TWO_96 + n2 <==> f1 == f2 && n1 == n2
  {
    RemainderUnique(f1 * TWO_96 + n1, TWO_64, f1 * 0x1_0000_0000, n1);
    RemainderUnique(f2 * TWO_96 + n2, TWO_64, f2 * 0x1_0000_0000, n2);
  }

  method DepositIdRoundTrip(funder: Address, nonce: nat) returns (back: nat)
    requires nonce < TWO_64
    ensures back == nonce
  {
    var id := DepositIdFromNonce(funder, nonce);
    back := NonceFromDepositId(id);
    DepositIdInjective(funder, nonce, funder, nonce);
  }

  /** The funder a deposit id names: funderFromId of the lock contract. */
  function FunderOf(id: nat): Address {
    (id / TWO_96) % TWO_160
  }

  /** The lock contract reads the funder back from the id the engine builds. */
  lemma FunderOfDeposit(funder: Address, nonce: nat)
    requires nonce < TWO_64
    ensures FunderOf(funder * TWO_96 + nonce) == funder
  {
    RemainderUnique(funder * TWO_96 + nonce, TWO_96, funder, nonce);
  }
}
