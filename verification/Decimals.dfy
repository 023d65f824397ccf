/** Conversions between 96-bit decimals and integer amounts (utils.rs). */
module Decimals {
  import opened Prelude
  import opened Bytes

  /** A decimal: sign, 96-bit mantissa, at most 28 decimal places. */
  datatype DecimalParts = Dec(negative: bool, mantissa: nat, scale: nat)

  predicate Fits(x: DecimalParts) {
    x.mantissa < TWO_96 && x.scale <= 28
  }

  type Decimal = x: DecimalParts | Fits(x) witness Dec(false, 0, 0)

  function Ten(k: nat): (p: nat)
    ensures p >= 1
  {
    PowPositive(10, k);
    Pow(10, k)
  }

  function Signed(x: DecimalParts): int {
    var m: int := x.mantissa;
    if x.negative then -m else m
  }

  function Value(x: DecimalParts): real {
    Signed(x) as real / Ten(x.scale) as real
  }

  /** value * 10^d */
  function Scaled(x: DecimalParts, d: nat): real {
    Value(x) * Ten(d) as real
  }

  // ---- the decimal operations the conversions use ----

  /** checked_mul by 10^d: exact when the product fits, None otherwise. */
  function CheckedMul(x: Decimal, d: nat): (y: Option<Decimal>) {
    if x.scale > d then Some(Dec(x.negative, x.mantissa, x.scale - d))
    else if x.mantissa * Ten(d - x.scale) < TWO_96 then Some(Dec(x.negative, x.mantissa * Ten(d - x.scale), 0))
    else None
  }

  /** saturating_mul by 10^d */
  function SaturatingMul(x: Decimal, d: nat): Decimal {
    match CheckedMul(x, d)
    case Some(y) => y
    case None => Dec(x.negative, TWO_96 - 1, 0)
  }

  /** normalize: no trailing zeros after the point, and no negative zero. */
  function Normalize(x: Decimal): Decimal
    decreases x.scale
  {
    if x.mantissa == 0 then Dec(false, 0, 0)
    else if x.scale > 0 && x.mantissa % 10 == 0 then Normalize(Dec(x.negative, x.mantissa / 10, x.scale - 1))
    else x
  }

  /** fract() == 0 */
  predicate IsWhole(x: Decimal) {
    x.mantissa % Ten(x.scale) == 0
  }

  /** to_u128: the integer part of a decimal without a minus sign. */
  function ToU128(x: Decimal): Option<nat> {
    if x.negative then None else Some(x.mantissa / Ten(x.scale))
  }

  // ---- the conversions ----

  datatype ConversionError = TooManyDecimals | Overflow | HasFraction | NotU128 | AmountTooBig

  function RustDecToU256Strict(x: Decimal, decimals: Option<nat>): Result<nat, ConversionError> {
    var d := decimals.GetOr(18);
    if d > 18 then Err(TooManyDecimals)
    else match CheckedMul(x, d)
      case None => Err(Overflow)
      case Some(product) =>
        var y := Normalize(product);
        if !IsWhole(y) then Err(HasFraction)
        else match ToU128(y)
          case None => Err(NotU128)
          case Some(v) => Ok(v)
  }

  function RustDecToU256(x: Decimal, d: nat): nat {
    if Value(x) < 0.0 then 0 else ToU128(Normalize(SaturatingMul(x, d))).GetOr(0)
  }

  /** amount / 10^d, which a decimal represents exactly. */
  function U256ToRustDec(amount: nat, decimals: Option<nat>): Result<Decimal, ConversionError> {
    var d := decimals.GetOr(18);
    if d > 18 then Err(TooManyDecimals)
    else if amount >= TWO_96 then Err(AmountTooBig)
    else Ok(Dec(false, amount, d))
  }

  // ---- exactness ----

  lemma Cancel(a: real, b: real, e: real)
    requires b > 0.0 && e > 0.0
    ensures (a / b) * (b * e) == a * e
    ensures (a / (b * e)) * b == a / e
  {
    var q := a / b;
    assert q * b == a;
    assert q * (b * e) == (q * b) * e;
    var c := b * e;
    var t := a / c;
    assert t * c == a;
    assert (t * b) * e == a;
    Quotient(t * b, e, a);
  }

  lemma Quotient(x: real, e: real, a: real)
    requires e > 0.0 && x * e == a
    ensures x == a / e
  {
  }

  lemma TenSplit(a: nat, b: nat)
    ensures Ten(a + b) as real == Ten(a) as real * Ten(b) as real
  {
    hide Pow;
    PowAdd(10, a, b);
    RealProduct(Ten(a), Ten(b));
  }

  lemma MoveLeft(a: real, b: real, e: real, c: real)
    requires b > 0.0 && e > 0.0 && c == b * e
    ensures (a / c) * b == a / e
  {
    Cancel(a, b, e);
  }

  lemma MoveRight(a: real, b: real, e: real, c: real)
    requires b > 0.0 && e > 0.0 && c == b * e
    ensures (a / b) * c == a * e
  {
    Cancel(a, b, e);
  }

  /** The scaled value, computed by moving the decimal point. */
  lemma ValueScaled(x: DecimalParts, d: nat)
    ensures Scaled(x, d) ==
            if x.scale > d then Value(Dec(x.negative, x.mantissa, x.scale - d))
            else (Signed(x) * Ten(d - x.scale)) as real
  {
    hide Ten;
    var s := Signed(x) as real;
    if x.scale > d {
      TenSplit(d, x.scale - d);
      MoveLeft(s, Ten(d) as real, Ten(x.scale - d) as real, Ten(x.scale) as real);
    } else {
      TenSplit(x.scale, d - x.scale);
      MoveRight(s, Ten(x.scale) as real, Ten(d - x.scale) as real, Ten(d) as real);
      RealProduct(Signed(x), Ten(d - x.scale));
    }
  }

  lemma RealProduct(a: int, b: int)
    ensures a as real * b as real == (a * b) as real
  {
  }

  lemma WholeValue(x: DecimalParts)
    requires x.scale == 0
    ensures Value(x) == Signed(x) as real
  {
    assert Ten(0) == 1;
  }

  /** Multiplication is exact when it succeeds, and fails only for a product of at least 2^96. */
  lemma CheckedMulExact(x: Decimal, d: nat)
    ensures match CheckedMul(x, d)
            case Some(y) => Value(y) == Scaled(x, d) && y.negative == x.negative
            case None => if x.negative then Scaled(x, d) <= -(TWO_96 as real)
                         else Scaled(x, d) >= TWO_96 as real
  {
    hide Ten;
    ValueScaled(x, d);
    if x.scale <= d {
      var p := Ten(d - x.scale);
      SignedProduct(x, p);
      WholeValue(Dec(x.negative, x.mantissa * p, 0));
    }
  }

  lemma SignedProduct(x: DecimalParts, p: nat)
    ensures Signed(x) * p == if x.negative then -(x.mantissa * p) else x.mantissa * p
  {
  }

  lemma {:induction false} NormalizeKeepsValue(x: Decimal)
    ensures Value(Normalize(x)) == Value(x)
    ensures Normalize(x).negative ==> Signed(x) < 0
    decreases x.scale
  {
    if x.mantissa == 0 {
      ZeroValue(x);
      ZeroValue(Dec(false, 0, 0));
    } else if x.scale > 0 && x.mantissa % 10 == 0 {
      var y := Dec(x.negative, x.mantissa / 10, x.scale - 1);
      NormalizeKeepsValue(y);
      DropZero(x, y);
    }
  }

  lemma ZeroValue(x: DecimalParts)
    requires x.mantissa == 0
    ensures Value(x) == 0.0
  {
  }

  lemma DropZero(x: DecimalParts, y: DecimalParts)
    requires x.scale > 0 && x.mantissa == 10 * y.mantissa && y == Dec(x.negative, y.mantissa, x.scale - 1)
    ensures Value(x) == Value(y)
  {
    hide Ten;
    TenSplit(1, y.scale);
    assert Ten(1) == 10 by { PowAdd(10, 1, 0); TenOne(); }
    var s, p := Signed(y) as real, Ten(y.scale) as real;
    assert Signed(x) as real == 10.0 * s;
    Cancel(s, p, 10.0);
    Quotient(s / p, 10.0 * p, 10.0 * s);
  }

  lemma TenOne()
    ensures Ten(1) == 10
  {
    assert Pow(10, 0) == 1;
  }

  predicate IsInteger(r: real) {
    r == r.Floor as real
  }

  /** A decimal has no fraction exactly when its value is an integer. */
  lemma WholeIff(x: Decimal)
    ensures IsWhole(x) <==> IsInteger(Value(x))
    ensures IsWhole(x) && !x.negative ==> Value(x) == (x.mantissa / Ten(x.scale)) as real
  {
    if IsWhole(x) { WholeIsInteger(x, x.mantissa / Ten(x.scale)); }
    if IsInteger(Value(x)) { IntegerIsWhole(x); }
  }

  lemma WholeIsInteger(x: Decimal, q: int)
    requires IsWhole(x) && q == x.mantissa / Ten(x.scale)
    ensures Value(x) == (if x.negative then -q else q) as real
  {
    hide Ten;
    var p := Ten(x.scale);
    assert x.mantissa == q * p;
    WholeQuotient(Signed(x), p, if x.negative then -q else q);
  }

  lemma IntegerIsWhole(x: Decimal)
    requires IsInteger(Value(x))
    ensures IsWhole(x)
  {
    hide Ten;
    var p, v := Ten(x.scale), Value(x).Floor;
    IntegerQuotient(Signed(x), p, v);
    Multiple(if x.negative then -v else v, p, x.mantissa);
  }

  lemma WholeQuotient(n: int, p: nat, w: int)
    requires p > 0 && n == w * p
    ensures n as real / p as real == w as real
  {
    RealProduct(w, p);
    Quotient(w as real, p as real, n as real);
  }

  lemma IntegerQuotient(n: int, p: nat, v: int)
    requires p > 0 && n as real / p as real == v as real
    ensures n == v * p
  {
    RealProduct(v, p);
  }

  lemma NegativeProduct(k: int, p: nat)
    requires k < 0 < p
    ensures k * p < 0
  {
  }

  lemma Multiple(k: int, p: nat, m: nat)
    requires p >= 1 && m == k * p
    ensures m % p == 0
  {
    if k < 0 { NegativeProduct(k, p); }
    RemainderUnique(m, p, k, 0);
  }

  /** The quotient is the value rounded down. */
  lemma FloorValue(x: Decimal)
    requires !x.negative
    ensures (x.mantissa / Ten(x.scale)) == Value(x).Floor
  {
    hide Ten;
    var p := Ten(x.scale);
    var q, r := x.mantissa / p, x.mantissa % p;
    assert x.mantissa == q * p + r;
    var f := r as real / p as real;
    assert f * p as real == r as real;
    assert 0.0 <= f < 1.0;
    Quotient(q as real + f, p as real, x.mantissa as real);
  }

  // ---- the main results ----

  /** The scaled value is an integer in [0, 2^96). */
  predicate Convertible(x: Decimal, d: nat) {
    IsInteger(Scaled(x, d)) && 0.0 <= Scaled(x, d) < TWO_96 as real
  }

  lemma SignOfValue(x: DecimalParts)
    ensures Value(x) < 0.0 <==> Signed(x) < 0
  {
    var s, p := Signed(x) as real, Ten(x.scale) as real;
    assert (s / p) * p == s;
  }

  lemma SignOfProduct(x: DecimalParts, d: nat)
    ensures Scaled(x, d) < 0.0 <==> Signed(x) < 0
  {
    SignOfValue(x);
    var v, p := Value(x), Ten(d) as real;
    assert p > 0.0;
    if v < 0.0 { assert v * p < 0.0; } else { assert v * p >= 0.0; }
  }

  /** Strict conversion succeeds exactly when value * 10^d is an integer in [0, 2^96), and returns it. */
  lemma StrictIsExact(x: Decimal, decimals: Option<nat>)
    ensures var d := decimals.GetOr(18);
            match RustDecToU256Strict(x, decimals)
            case Ok(v) => d <= 18 && Convertible(x, d) && v as real == Scaled(x, d)
            case Err(_) => !(d <= 18 && Convertible(x, d))
  {
    hide Value, Ten, Signed, Normalize, IsWhole, IsInteger;
    var d := decimals.GetOr(18);
    if d <= 18 {
      CheckedMulExact(x, d);
      SignOfProduct(x, d);
      match CheckedMul(x, d)
      case None =>
      case Some(product) =>
        var y := Normalize(product);
        NormalizeKeepsValue(product);
        SignOfValue(product);
        WholeIff(y);
        BoundedValue(y);
    }
  }

  lemma GrowsBy(v: real, p: real)
    requires v >= 0.0 && p >= 1.0
    ensures v * p >= v
  {
    assert v * (p - 1.0) >= 0.0;
  }

  lemma BoundedValue(y: Decimal)
    ensures Value(y) < TWO_96 as real
    ensures !y.negative ==> 0.0 <= Value(y)
  {
    var s, p, v := Signed(y) as real, Ten(y.scale) as real, Value(y);
    assert v * p == s < TWO_96 as real;
    SignOfValue(y);
    if v >= 0.0 { GrowsBy(v, p); }
  }

  lemma UnitValue(amount: nat, d: nat)
    ensures Signed(Dec(false, amount, d)) * Ten(0) == amount
    ensures Value(Dec(false, amount, d)) == amount as real / Ten(d) as real
  {
    assert Pow(10, 0) == 1;
  }

  lemma ScaledAmount(amount: nat, d: nat, y: Decimal)
    requires amount < TWO_96 && Value(y) == Value(Dec(false, amount, d))
    ensures Scaled(y, d) == amount as real && Convertible(y, d)
  {
    hide Value, Ten, Signed;
    var x := Dec(false, amount, d);
    ValueScaled(x, d);
    UnitValue(amount, d);
    assert Scaled(y, d) == Scaled(x, d);
  }

  /** Amounts below 2^96 survive the round trip, whichever representation of the quotient the division yields. */
  lemma AmountRoundTrip(amount: nat, decimals: Option<nat>, y: Decimal)
    requires U256ToRustDec(amount, decimals).Ok? && Value(y) == Value(U256ToRustDec(amount, decimals).value)
    ensures RustDecToU256Strict(y, decimals) == Ok(amount)
  {
    hide Scaled, Convertible, RustDecToU256Strict;
    ScaledAmount(amount, decimals.GetOr(18), y);
    StrictIsExact(y, decimals);
  }

  /** The reverse: whatever strict conversion accepts converts back to the same value. */
  lemma DecimalRoundTrip(x: Decimal, decimals: Option<nat>)
    requires RustDecToU256Strict(x, decimals).Ok?
    ensures var back := U256ToRustDec(RustDecToU256Strict(x, decimals).value, decimals);
            back.Ok? && Value(back.value) == Value(x)
  {
    hide RustDecToU256Strict, Value, Ten;
    var d, v := decimals.GetOr(18), RustDecToU256Strict(x, decimals).value;
    StrictIsExact(x, decimals);
    Quotient(Value(x), Ten(d) as real, v as real);
    UnitValue(v, d);
  }

  /** The two conversions have the same range: an amount can be turned into a decimal exactly when it is what strict
      conversion makes of some decimal. */
  lemma DivisionIffStrict(amount: nat, decimals: Option<nat>)
    ensures U256ToRustDec(amount, decimals).Ok? <==> exists x: Decimal :: RustDecToU256Strict(x, decimals) == Ok(amount)
  {
    hide RustDecToU256Strict, Scaled;
    if U256ToRustDec(amount, decimals).Ok? {
      AmountRoundTrip(amount, decimals, U256ToRustDec(amount, decimals).value);
    }
    if x: Decimal :| RustDecToU256Strict(x, decimals) == Ok(amount) {
      StrictIsExact(x, decimals);
    }
  }

  /** Lenient conversion rounds down, saturates at 2^96 - 1 and takes negative values to zero. */
  lemma LenientSaturates(x: Decimal, d: nat)
    ensures RustDecToU256(x, d) ==
            if Value(x) < 0.0 then 0 else Min((Scaled(x, d)).Floor, TWO_96 - 1)
  {
    hide Ten, Value, Signed;
    SignOfValue(x);
    if Value(x) >= 0.0 {
      CheckedMulExact(x, d);
      var y := SaturatingMul(x, d);
      NormalizeKeepsValue(y);
      SignOfProduct(x, d);
      SignOfValue(y);
      if CheckedMul(x, d).Some? {
        FloorValue(Normalize(y));
        BoundedValue(Normalize(y));
      } else {
        NotNegative(x, d);
        Largest(y);
        FloorAtLeast(Scaled(x, d), TWO_96);
      }
    }
  }

  lemma FloorAtLeast(r: real, n: int)
    requires r >= n as real
    ensures r.Floor >= n
  {
  }

  lemma NotNegative(x: Decimal, d: nat)
    requires Value(x) >= 0.0 && CheckedMul(x, d).None?
    ensures !x.negative
  {
    SignOfValue(x);
  }

  lemma Largest(y: Decimal)
    requires y == Dec(false, TWO_96 - 1, 0)
    ensures ToU128(Normalize(y)) == Some(TWO_96 - 1)
  {
    assert Ten(0) == 1;
  }

  /** Where strict conversion succeeds, lenient conversion agrees. */
  lemma LenientAgreesWithStrict(x: Decimal, d: nat)
    requires RustDecToU256Strict(x, Some(d)).Ok?
    ensures RustDecToU256(x, d) == RustDecToU256Strict(x, Some(d)).value
  {
    StrictIsExact(x, Some(d));
    LenientSaturates(x, d);
    SignOfProduct(x, d);
    SignOfValue(x);
  }
}
