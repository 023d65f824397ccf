/** Printing an amount with decimal places (utils.rs), and what the printed text denotes. */
module DecimalText {
  import opened Prelude
  import opened Text
  import opened Bytes

  // ---- decimal digits ----

  /** amount.to_string() */
  function PrintDec(n: nat): (s: string)
    ensures |s| >= 1
  {
    if n < 10 then [DecChar(n)] else PrintDec(n / 10) + [DecChar(n % 10)]
  }

  /** The last `width` decimal digits of n, zeros included. */
  function FixedDec(n: nat, width: nat): (s: string)
    ensures |s| == width
  {
    if width == 0 then "" else FixedDec(n / 10, width - 1) + [DecChar(n % 10)]
  }

  /** n without its last d digits. */
  function Shift(n: nat, d: nat): nat {
    if d == 0 then n else Shift(n / 10, d - 1)
  }

  function Zeros(k: nat): (s: string)
    ensures |s| == k && forall i :: 0 <= i < k ==> s[i] == '0'
  {
    if k == 0 then "" else Zeros(k - 1) + "0"
  }

  function Reverse(s: string): (r: string)
    ensures |r| == |s| && forall i :: 0 <= i < |s| ==> r[i] == s[|s| - 1 - i]
  {
    seq(|s|, i requires 0 <= i < |s| => s[|s| - 1 - i])
  }

  function TrimStart(s: string, c: char): string {
    if s != "" && s[0] == c then TrimStart(s[1..], c) else s
  }

  function TrimEnd(s: string, c: char): string {
    if s != "" && s[|s| - 1] == c then TrimEnd(s[..|s| - 1], c) else s
  }

  /** Position of the first c, or the length. */
  function Find(s: string, c: char): (k: nat)
    ensures k <= |s| && (forall i :: 0 <= i < k ==> s[i] != c) && (k < |s| ==> s[k] == c)
  {
    if s == "" || s[0] == c then 0 else Find(s[1..], c) + 1
  }

  predicate IsDigits(s: string) {
    forall i :: 0 <= i < |s| ==> '0' <= s[i] <= '9'
  }

  lemma DecCharDigit(d: nat)
    requires d < 10
    ensures DecDigit(DecChar(d)) == Some(d) && '0' <= DecChar(d) <= '9' && (DecChar(d) == '0' <==> d == 0)
  {
  }

  lemma {:induction false} PrintDecFacts(n: nat)
    ensures var s := PrintDec(n);
            DecValue(s) == Some(n) && IsDigits(s) && (s[0] == '0' ==> s == "0") && (s == "0" <==> n == 0)
  {
    var s := PrintDec(n);
    DecCharDigit(n % 10);
    if n < 10 {
      assert s[..0] == "";
    } else {
      PrintDecFacts(n / 10);
      assert s[..|s| - 1] == PrintDec(n / 10);
    }
  }

  lemma AppendDigit(n: nat, high: nat, p: nat, low: nat)
    requires n / 10 == high * p + low
    ensures n == high * (10 * p) + (low * 10 + n % 10)
  {
    assert n == (high * p + low) * 10 + n % 10;
    assert (high * p) * 10 == high * (10 * p);
  }

  lemma {:induction false} FixedDecFacts(n: nat, width: nat)
    ensures IsDigits(FixedDec(n, width))
    ensures DecValue(FixedDec(n, width)).Some?
    ensures n == Shift(n, width) * Pow(10, width) + DecValue(FixedDec(n, width)).value
  {
    if width > 0 {
      DecCharDigit(n % 10);
      FixedDecFacts(n / 10, width - 1);
      var s, front := FixedDec(n, width), FixedDec(n / 10, width - 1);
      assert s[..|s| - 1] == front;
      AppendDigit(n, Shift(n, width), Pow(10, width - 1), DecValue(front).value);
    }
  }

  lemma {:induction false} DecValueBound(s: string)
    requires DecValue(s).Some?
    ensures DecValue(s).value < Pow(10, |s|)
  {
    if s != "" { DecValueBound(s[..|s| - 1]); }
  }

  lemma {:induction false} DecValueDigits(s: string)
    ensures DecValue(s).Some? <==> IsDigits(s)
  {
    if s != "" {
      var front := s[..|s| - 1];
      DecValueDigits(front);
      assert s == front + [s[|s| - 1]];
      if IsDigits(s) { assert forall i :: 0 <= i < |front| ==> front[i] == s[i]; }
    }
  }

  lemma {:induction false} DecValueConcat(a: string, b: string)
    requires DecValue(a).Some? && DecValue(b).Some?
    ensures DecValue(a + b) == Some(DecValue(a).value * Pow(10, |b|) + DecValue(b).value)
  {
    if b == "" {
      assert a + b == a;
    } else {
      var front := b[..|b| - 1];
      assert (a + b)[..|a + b| - 1] == a + front;
      DecValueConcat(a, front);
      Associate(DecValue(a).value, Pow(10, |front|), 10);
    }
  }

  /** Dropping digits is dividing by a power of ten, rounding down. */
  lemma ShiftDivides(n: nat, d: nat)
    ensures Pow(10, d) > 0 && Shift(n, d) == n / Pow(10, d)
  {
    PowPositive(10, d);
    FixedDecFacts(n, d);
    DecValueBound(FixedDec(n, d));
    RemainderUnique(n, Pow(10, d), Shift(n, d), DecValue(FixedDec(n, d)).value);
  }

  // ---- trimming ----

  lemma {:induction false} TrimStartBefore(a: string, b: string)
    ensures TrimStart(a + "." + b, '0') == TrimStart(a, '0') + "." + b
  {
    if a != "" && a[0] == '0' {
      TrimStartBefore(a[1..], b);
      assert (a + "." + b)[1..] == a[1..] + "." + b;
    } else if a == "" {
      assert (a + "." + b)[0] == '.';
    }
  }

  lemma {:induction false} TrimEndAfter(a: string, b: string)
    ensures TrimEnd(a + "." + b, '0') == a + "." + TrimEnd(b, '0')
  {
    var s := a + "." + b;
    if b != "" && b[|b| - 1] == '0' {
      var front := b[..|b| - 1];
      TrimEndAfter(a, front);
      assert s[|s| - 1] == '0' && s[..|s| - 1] == a + "." + front;
    } else if b == "" {
      assert s[|s| - 1] == '.';
      assert s == a + "." + TrimEnd(b, '0');
    } else {
      assert s[|s| - 1] == b[|b| - 1];
    }
  }

  lemma {:induction false} TrimEndZeros(b: string)
    ensures var t := TrimEnd(b, '0');
            |t| <= |b| && b == t + Zeros(|b| - |t|) && (t != "" ==> t[|t| - 1] != '0')
  {
    if b != "" && b[|b| - 1] == '0' {
      var front := b[..|b| - 1];
      TrimEndZeros(front);
      assert b == front + "0";
      var t := TrimEnd(b, '0');
      assert t + Zeros(|front| - |t|) + "0" == t + Zeros(|b| - |t|);
    } else {
      assert b == b + Zeros(0);
    }
  }

  lemma {:induction false} TrimStartLast(s: string, c: char)
    ensures TrimStart(s + [c], '0') == if TrimStart(s, '0') == "" then TrimStart([c], '0') else TrimStart(s, '0') + [c]
  {
    if s == "" {
      assert s + [c] == [c];
    } else if s[0] == '0' {
      assert (s + [c])[1..] == s[1..] + [c];
      TrimStartLast(s[1..], c);
    }
  }

  lemma {:induction false} ShiftZero(d: nat)
    ensures Shift(0, d) == 0
  {
    if d > 0 { ShiftZero(d - 1); }
  }

  /** The integer digits of the printed text: nothing when there are none to keep. */
  function Leading(n: nat): string {
    if n == 0 then "" else PrintDec(n)
  }

  lemma {:induction false} FixedPrefix(n: nat, d: nat, q: nat)
    requires q <= d
    ensures FixedDec(n, d)[..q] == FixedDec(Shift(n, d - q), q)
  {
    if q < d {
      FixedPrefix(n / 10, d - 1, q);
      assert FixedDec(n, d)[..q] == FixedDec(n / 10, d - 1)[..q];
    }
  }

  lemma {:induction false} FixedSuffix(n: nat, d: nat, k: nat)
    requires k <= d
    ensures FixedDec(n, d)[d - k..] == FixedDec(n, k)
  {
    if k > 0 {
      FixedSuffix(n / 10, d - 1, k - 1);
      var front := FixedDec(n / 10, d - 1);
      assert FixedDec(n, d)[d - k..] == front[d - k..] + [DecChar(n % 10)];
    }
  }

  lemma {:induction false} ShiftShift(n: nat, a: nat, b: nat)
    ensures Shift(Shift(n, a), b) == Shift(n, a + b)
  {
    if a > 0 { ShiftShift(n / 10, a - 1, b); }
  }

  lemma {:induction false} FixedZero(width: nat)
    ensures FixedDec(0, width) == Zeros(width)
  {
    if width > 0 { FixedZero(width - 1); }
  }

  lemma {:induction false} PaddedIsFixed(n: nat, k: nat)
    ensures Zeros(k) + PrintDec(n) == FixedDec(n, k + |PrintDec(n)|)
    ensures Shift(n, k + |PrintDec(n)|) == 0
  {
    if n < 10 {
      FixedZero(k);
      ShiftZero(k);
      assert n / 10 == 0;
    } else {
      PaddedIsFixed(n / 10, k);
      assert Zeros(k) + PrintDec(n) == Zeros(k) + PrintDec(n / 10) + [DecChar(n % 10)];
    }
  }

  lemma {:induction false} TrimFixed(n: nat, width: nat)
    requires Shift(n, width) == 0
    ensures TrimStart(FixedDec(n, width), '0') == Leading(n)
  {
    if width > 0 {
      TrimFixed(n / 10, width - 1);
      TrimStartLast(FixedDec(n / 10, width - 1), DecChar(n % 10));
      DecCharDigit(n % 10);
      assert TrimStart("", '0') == "";
    }
  }

  /** Splitting the digits, padded on the left with enough zeros, d places from the end. */
  lemma SplitDigits(n: nat, d: nat)
    ensures var full := Zeros(d) + PrintDec(n);
            && full[|full| - d..] == FixedDec(n, d)
            && TrimStart(full[..|full| - d], '0') == Leading(Shift(n, d))
  {
    hide *;
    var width := d + |PrintDec(n)|;
    PaddedIsFixed(n, d);
    FixedSuffix(n, width, d);
    FixedPrefix(n, width, width - d);
    ShiftShift(n, d, width - d);
    TrimFixed(Shift(n, d), width - d);
  }

  // ---- the printer ----

  /** The fractional digits shown. */
  function Fraction(amount: nat, d: nat, precision: Option<nat>): string {
    var digits := FixedDec(amount, d);
    match precision
    case None => TrimEnd(digits, '0')
    case Some(p) => digits[..Min(p, d)]
  }

  function Join(units: string, fraction: string): string {
    if fraction == "" then units else units + "." + fraction
  }

  function Shown(amount: nat, d: nat, precision: Option<nat>): string {
    var fraction := Fraction(amount, d, precision);
    Join(PrintDec(Shift(amount, d)), fraction)
  }

  predicate NoDot(s: string) {
    forall i :: 0 <= i < |s| ==> s[i] != '.'
  }

  lemma TrimDot(a: string, b: string)
    requires a != "" && NoDot(a) && NoDot(b)
    ensures TrimEnd(a + "." + b, '.') == Join(a, b)
  {
    var s := a + "." + b;
    if b == "" {
      assert s[..|s| - 1] == a;
    } else {
      assert s[|s| - 1] == b[|b| - 1];
    }
  }

  lemma FindDot(a: string, b: string)
    requires NoDot(a)
    ensures Find(a + "." + b, '.') == |a|
  {
    var s := a + "." + b;
    assert s[|a|] == '.';
    assert forall i :: 0 <= i < |a| ==> s[i] == a[i];
  }

  /** Inserting the dot into the reversed digits and reversing back. */
  lemma InsertDot(full: string, d: nat)
    requires d <= |full|
    ensures var r := Reverse(full);
            Reverse(r[..d] + ['.'] + r[d..]) == full[..|full| - d] + "." + full[|full| - d..]
  {
  }

  /** What is left after trimming zeros on both sides. */
  lemma TrimBoth(amount: nat, d: nat)
    ensures var full := Zeros(d) + PrintDec(amount);
            TrimEnd(TrimStart(full[..|full| - d] + "." + full[|full| - d..], '0'), '0') ==
            Leading(Shift(amount, d)) + "." + TrimEnd(FixedDec(amount, d), '0')
  {
    hide *;
    var full := Zeros(d) + PrintDec(amount);
    var whole, fraction := full[..|full| - d], full[|full| - d..];
    SplitDigits(amount, d);
    TrimStartBefore(whole, fraction);
    TrimEndAfter(TrimStart(whole, '0'), fraction);
  }

  /** The units are missing exactly when the trimmed text starts with the dot. */
  lemma StartsWithDot(amount: nat, d: nat, shown: string)
    ensures var n, s := Shift(amount, d), Leading(Shift(amount, d)) + "." + shown;
            (if "." <= s then "0" + s else s) == PrintDec(n) + "." + shown
  {
    hide Shift;
    var n := Shift(amount, d);
    var s := Leading(n) + "." + shown;
    PrintDecFacts(n);
    if n == 0 {
      assert s == "" + "." + shown && "0" + s == "0" + "." + shown;
    } else {
      assert s[0] == PrintDec(n)[0] != '.';
    }
  }

  /** u256_to_decimal_string */
  method U256ToDecimalString(amount: nat, d: nat, precision: Option<nat>) returns (str: string)
    ensures str == Shown(amount, d, precision)
  {
    hide PrintDec, FixedDec, Shift, Zeros, DecValue, TrimEnd, TrimStart, Find, Reverse;
    var strRev := Reverse(PrintDec(amount));
    var capped := match precision { case Some(p) => Some(Min(p, d)) case None => None };
    strRev := PushZeros(strRev, d);
    ghost var full := Zeros(d) + PrintDec(amount);
    assert strRev == Reverse(full);
    strRev := strRev[..d] + ['.'] + strRev[d..];
    InsertDot(full, d);
    str := TrimEnd(TrimStart(Reverse(strRev), '0'), '0');
    TrimBoth(amount, d);

    ghost var units, digits := PrintDec(Shift(amount, d)), FixedDec(amount, d);
    ghost var shown := TrimEnd(digits, '0');
    assert Shown(amount, d, precision) == Join(units, Fraction(amount, d, precision));
    hide Shown, Leading, Join;
    PrintDecFacts(Shift(amount, d));
    FixedDecFacts(amount, d);
    TrimEndZeros(digits);
    if "." <= str {
      str := "0" + str;
    }
    assert str == units + "." + shown by { StartsWithDot(amount, d, shown); }

    var idxOfDot := Find(str, '.');
    FindDot(units, shown);
    var digitsAtRight := |str| - idxOfDot - 1;
    if capped.Some? {
      assert digits[..|shown|] == shown;
      str := FitFraction(str, capped.value - digitsAtRight, units, digits, |shown|);
      shown := digits[..capped.value];
    }
    assert shown == Fraction(amount, d, precision) && NoDot(units) && NoDot(shown);
    TrimDot(units, shown);
    str := TrimEnd(str, '.');
  }

  /** for _ in 0..d { str_rev.push('0') } */
  method PushZeros(rev: string, d: nat) returns (out: string)
    ensures forall s :: rev == Reverse(s) ==> out == Reverse(Zeros(d) + s)
  {
    out := rev;
    for i := 0 to d
      invariant out == rev + Zeros(i)
    {
      out := out + ['0'];
    }
    assert forall s :: rev == Reverse(s) ==> rev + Zeros(d) == Reverse(Zeros(d) + s);
  }

  /** Pushes zeros or pops digits until k + addZeroes fractional digits are left; those pushed are the trimmed ones. */
  method FitFraction(text: string, addZeroes: int, ghost units: string, ghost digits: string, ghost k: nat)
    returns (str: string)
    requires k <= |digits| && 0 <= k + addZeroes <= |digits|
    requires text == units + "." + digits[..k] && digits[k..] == Zeros(|digits| - k)
    ensures str == units + "." + digits[..k + addZeroes]
  {
    str := text;
    if addZeroes > 0 {
      for i := 0 to addZeroes
        invariant str == units + "." + digits[..k + i]
      {
        assert digits[k + i] == digits[k..][i] == '0';
        str := str + "0";
        assert digits[..k + i + 1] == digits[..k + i] + "0";
      }
    } else {
      for i := 0 to -addZeroes
        invariant str == units + "." + digits[..k - i]
      {
        str := str[..|str| - 1];
        assert digits[..k - i - 1] == digits[..k - i][..k - i - 1];
      }
    }
  }

  // ---- what the text denotes ----

  /** A decimal numeral read as mantissa / 10^scale. */
  datatype Numeral = Numeral(mantissa: nat, scale: nat)

  function Read(s: string): Option<Numeral> {
    var k := Find(s, '.');
    if k == |s| then
      match DecValue(s) { case Some(v) => Some(Numeral(v, 0)) case None => None }
    else
      match DecValue(s[..k] + s[k + 1..]) { case Some(v) => Some(Numeral(v, |s| - k - 1)) case None => None }
  }

  lemma CutAtDot(a: string, b: string)
    ensures var s := a + "." + b;
            |s| == |a| + 1 + |b| && s[..|a|] == a && s[|a| + 1..] == b
  {
    var s := a + "." + b;
    assert s == (a + ".") + b;
    assert s[|a + "."|..] == b;
  }

  lemma ReadDotted(a: string, b: string)
    requires NoDot(a) && DecValue(a).Some? && DecValue(b).Some?
    ensures Read(a + "." + b) == Some(Numeral(DecValue(a).value * Pow(10, |b|) + DecValue(b).value, |b|))
  {
    hide DecValue, Pow, Find, NoDot;
    var s := a + "." + b;
    FindDot(a, b);
    DecValueConcat(a, b);
    CutAtDot(a, b);
  }

  lemma ReadWhole(a: string)
    requires NoDot(a) && DecValue(a).Some?
    ensures Read(a) == Some(Numeral(DecValue(a).value, 0))
  {
    assert Find(a, '.') == |a|;
  }

  lemma ReadParts(a: string, b: string)
    requires DecValue(a).Some? && DecValue(b).Some?
    ensures Read(Join(a, b)) == Some(Numeral(DecValue(a).value * Pow(10, |b|) + DecValue(b).value, |b|))
  {
    DecValueDigits(a);
    if b == "" {
      ReadWhole(a);
    } else {
      hide DecValue, Pow, Read;
      ReadDotted(a, b);
    }
  }

  /** The first q fractional digits, with the integer part before them, read as the amount without its last
      d - q digits. */
  lemma ReadFirst(amount: nat, d: nat, q: nat)
    requires q <= d
    ensures var b := FixedDec(amount, d)[..q];
            Read(Join(PrintDec(Shift(amount, d)), b)) == Some(Numeral(Shift(amount, d - q), q))
  {
    hide PrintDec, FixedDec, Shift, Zeros, DecValue, Pow, Read;
    var high := Shift(amount, d - q);
    FixedPrefix(amount, d, q);
    FixedDecFacts(high, q);
    ShiftShift(amount, d - q, q);
    PrintDecFacts(Shift(amount, d));
    ReadParts(PrintDec(Shift(amount, d)), FixedDec(high, q));
  }

  /** Without precision the text denotes exactly amount / 10^d. */
  lemma ShownExactly(amount: nat, d: nat)
    ensures var r := Read(Shown(amount, d, None));
            r.Some? && r.value.scale <= d && r.value.mantissa * Pow(10, d - r.value.scale) == amount
  {
    hide PrintDec, FixedDec, Shift, Zeros, DecValue, Pow, Read, TrimEnd;
    var digits := FixedDec(amount, d);
    TrimEndZeros(digits);
    var q := |TrimEnd(digits, '0')|;
    assert digits[..q] == TrimEnd(digits, '0');
    ReadFirst(amount, d, q);
    FixedDecFacts(amount, d - q);
    FixedSuffix(amount, d, d - q);
    ZerosValue(d - q);
    assert digits[q..] == Zeros(d - q);
  }

  lemma {:induction false} ZerosValue(k: nat)
    ensures DecValue(Zeros(k)) == Some(0)
  {
    if k > 0 {
      ZerosValue(k - 1);
      assert Zeros(k)[..k - 1] == Zeros(k - 1);
    }
  }

  /** With precision p, capped at d, the text has exactly that many fractional digits and denotes the amount
      rounded down to them. */
  lemma ShownRoundedDown(amount: nat, d: nat, p: nat)
    ensures var q := Min(p, d);
            Pow(10, d - q) > 0 &&
            Read(Shown(amount, d, Some(p))) == Some(Numeral(amount / Pow(10, d - q), q))
  {
    hide PrintDec, FixedDec, Shift, Zeros, DecValue, Pow, Read;
    var q := Min(p, d);
    ReadFirst(amount, d, q);
    ShiftDivides(amount, d - q);
  }

  /** No redundant leading zero, no trailing dot, and without precision no trailing zero after the dot. */
  lemma ShownTidily(amount: nat, d: nat, precision: Option<nat>)
    ensures var s := Shown(amount, d, precision);
            && s != "" && s[|s| - 1] != '.' && s[0] != '.'
            && (s[0] == '0' ==> |s| == 1 || s[1] == '.')
            && (precision.None? && '.' in s ==> s[|s| - 1] != '0')
  {
    hide PrintDec, FixedDec, Shift, Zeros, DecValue, Pow, TrimEnd;
    var s, units, fraction := Shown(amount, d, precision), PrintDec(Shift(amount, d)), Fraction(amount, d, precision);
    PrintDecFacts(Shift(amount, d));
    FixedDecFacts(amount, d);
    TrimEndZeros(FixedDec(amount, d));
    if fraction == "" {
      assert s == units;
    } else {
      assert s[|s| - 1] == fraction[|fraction| - 1] && s[|units|] == '.';
    }
  }

  /** Without precision, different amounts print differently. */
  lemma ShownIsInjective(a: nat, b: nat, d: nat)
    requires Shown(a, d, None) == Shown(b, d, None)
    ensures a == b
  {
    hide *;
    ShownExactly(a, d);
    ShownExactly(b, d);
  }

  /** With precision, exactly the amounts that agree after rounding print alike. */
  lemma ShownAlikeIff(a: nat, b: nat, d: nat, p: nat)
    ensures Pow(10, d - Min(p, d)) > 0
    ensures Shown(a, d, Some(p)) == Shown(b, d, Some(p)) <==> a / Pow(10, d - Min(p, d)) == b / Pow(10, d - Min(p, d))
  {
    hide PrintDec, FixedDec, Shift, Zeros, DecValue, Pow, Read;
    var q := Min(p, d);
    ShownRoundedDown(a, d, p);
    ShownRoundedDown(b, d, p);
    if Shift(a, d - q) == Shift(b, d - q) {
      FixedPrefix(a, d, q);
      FixedPrefix(b, d, q);
      ShiftShift(a, d - q, q);
      ShiftShift(b, d - q, q);
    }
    ShiftDivides(a, d - q);
    ShiftDivides(b, d - q);
  }
}
