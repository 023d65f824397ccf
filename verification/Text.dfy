/** The textual columns of the database: decimal amounts, hexadecimal addresses and deposit ids. */
module Text {
  import opened Prelude

  function DecDigit(c: char): Option<nat> {
    if '0' <= c <= '9' then Some((c as int) - ('0' as int)) else None
  }

  function HexDigit(c: char): Option<nat> {
    if '0' <= c <= '9' then Some((c as int) - ('0' as int))
    else if 'a' <= c <= 'f' then Some((c as int) - ('a' as int) + 10)
    else if 'A' <= c <= 'F' then Some((c as int) - ('A' as int) + 10)
    else None
  }

  function HexChar(d: nat): char
    requires d < 16
  {
    "0123456789abcdef"[d]
  }

  function DecChar(d: nat): char
    requires d < 10
  {
    "0123456789"[d]
  }

  function DecValue(s: string): Option<nat> {
    if s == "" then Some(0)
    else match (DecValue(s[..|s| - 1]), DecDigit(s[|s| - 1]))
      case (Some(high), Some(low)) => Some(high * 10 + low)
      case _ => None
  }

  function HexValue(s: string): Option<nat> {
    if s == "" then Some(0)
    else match (HexValue(s[..|s| - 1]), HexDigit(s[|s| - 1]))
      case (Some(high), Some(low)) => Some(high * 16 + low)
      case _ => None
  }

  function StripPrefix(s: string): string {
    if "0x" <= s then s[2..] else s
  }

  /** U256::from_dec_str: decimal digits only, value below 2^256. */
  function ParseAmount(s: string): Option<nat> {
    match DecValue(s)
    case Some(v) => if v < TWO_256 then Some(v) else None
    case None => None
  }

  /** Address::from_str: optional "0x", then exactly 40 hexadecimal digits. */
  function ParseAddress(s: string): Option<Address> {
    var digits := StripPrefix(s);
    if |digits| != 40 then None
    else match HexValue(digits)
      case Some(v) => if v < TWO_160 then Some(v) else None
      case None => None
  }

  /** U256::from_str: optional "0x", then at most 64 hexadecimal digits. */
  function ParseU256(s: string): Option<nat> {
    var digits := StripPrefix(s);
    if |digits| > 64 then None else HexValue(digits)
  }

  /** The shortest hexadecimal form. */
  function HexDigits(n: nat): (s: string)
    ensures |s| >= 1
  {
    if n < 16 then [HexChar(n)] else HexDigits(n / 16) + [HexChar(n % 16)]
  }

  function FixedHex(n: nat, width: nat): (s: string)
    ensures |s| == width
  {
    if width == 0 then "" else FixedHex(n / 16, width - 1) + [HexChar(n % 16)]
  }

  /** format!("{:#x}", U256) */
  function PrintU256(n: nat): string {
    "0x" + HexDigits(n)
  }

  /** format!("{:#x}", Address) */
  function PrintAddress(a: Address): string {
    "0x" + FixedHex(a, 40)
  }

  lemma HexCharDigit(d: nat)
    requires d < 16
    ensures HexDigit(HexChar(d)) == Some(d)
  {
  }

  lemma {:induction false} HexDigitsValue(n: nat)
    ensures HexValue(HexDigits(n)) == Some(n)
  {
    var s := HexDigits(n);
    if n < 16 {
      HexCharDigit(n);
      assert s[..0] == "";
    } else {
      HexDigitsValue(n / 16);
      HexCharDigit(n % 16);
      assert s[..|s| - 1] == HexDigits(n / 16);
    }
  }

  lemma {:induction false} HexDigitsLength(n: nat, width: nat)
    requires 1 <= width && n < Pow(16, width)
    ensures |HexDigits(n)| <= width
  {
    if n >= 16 {
      assert Pow(16, 1) == 16;
      assert n / 16 < Pow(16, width - 1);
      HexDigitsLength(n / 16, width - 1);
    }
  }

  lemma {:induction false} FixedHexValue(n: nat, width: nat)
    requires n < Pow(16, width)
    ensures HexValue(FixedHex(n, width)) == Some(n)
  {
    if width > 0 {
      assert n / 16 < Pow(16, width - 1);
      FixedHexValue(n / 16, width - 1);
      HexCharDigit(n % 16);
      var s := FixedHex(n, width);
      assert s[..|s| - 1] == FixedHex(n / 16, width - 1);
    }
  }

  lemma HexLimits()
    ensures Pow(16, 40) == TWO_160 && Pow(16, 64) == TWO_256
  {
    var p8, p32: nat := 0x1_0000_0000, 0x1_0000_0000_0000_0000_0000_0000_0000_0000;
    assert Pow(16, 8) == p8;
    PowAdd(16, 8, 8);
    PowAdd(16, 16, 16);
    assert Pow(16, 32) == p32;
    PowAdd(16, 32, 8);
    PowAdd(16, 32, 32);
  }

  /** Printing an address and parsing the text gives the address back. */
  lemma AddressRoundTrip(a: Address)
    ensures ParseAddress(PrintAddress(a)) == Some(a)
  {
    HexLimits();
    FixedHexValue(a, 40);
    var s := PrintAddress(a);
    assert s[..2] == "0x" && s[2..] == FixedHex(a, 40);
  }

  /** Printing a deposit id and parsing the text gives the id back. */
  lemma U256RoundTrip(n: nat)
    requires n < TWO_256
    ensures ParseU256(PrintU256(n)) == Some(n)
  {
    HexLimits();
    HexDigitsLength(n, 64);
    HexDigitsValue(n);
    var s := PrintU256(n);
    assert s[..2] == "0x" && s[2..] == HexDigits(n);
  }

  // ---- what is readable ----

  predicate AllHex(s: string) {
    forall i | 0 <= i < |s| :: '0' <= s[i] <= '9' || 'a' <= s[i] <= 'f' || 'A' <= s[i] <= 'F'
  }

  predicate AllDecimal(s: string) {
    forall i | 0 <= i < |s| :: '0' <= s[i] <= '9'
  }

  /** A digit counts the same in lower and in upper case. */
  lemma HexDigitIff(c: char, d: nat)
    requires d < 16
    ensures HexDigit(c) == Some(d) <==> c == "0123456789abcdef"[d] || c == "0123456789ABCDEF"[d]
  {
  }

  lemma {:induction false} HexReadable(s: string)
    ensures HexValue(s).Some? <==> AllHex(s)
    ensures HexValue(s).Some? ==> HexValue(s).value < Pow(16, |s|)
  {
    if s != "" {
      var front, last := s[..|s| - 1], s[|s| - 1];
      HexReadable(front);
      assert AllHex(s) <==> AllHex(front) && HexDigit(last).Some? by {
        assert forall i | 0 <= i < |front| :: front[i] == s[i];
      }
    }
  }

  lemma {:induction false} DecimalReadable(s: string)
    ensures DecValue(s).Some? <==> AllDecimal(s)
  {
    if s != "" {
      var front, last := s[..|s| - 1], s[|s| - 1];
      DecimalReadable(front);
      assert AllDecimal(s) <==> AllDecimal(front) && DecDigit(last).Some? by {
        assert forall i | 0 <= i < |front| :: front[i] == s[i];
      }
    }
  }

  /** A text names an address exactly when it is 40 hexadecimal digits, with or without "0x". */
  lemma ReadableAddress(s: string)
    ensures ParseAddress(s).Some? <==>
            (|s| == 40 && AllHex(s)) || (|s| == 42 && s[..2] == "0x" && AllHex(s[2..]))
  {
    HexLimits();
    HexReadable(StripPrefix(s));
    if "0x" <= s { assert s[1] == 'x'; }
  }

  /** A text is a number of 256 bits exactly when it is at most 64 hexadecimal digits, with or without "0x". */
  lemma ReadableU256(s: string)
    ensures ParseU256(s).Some? <==>
            (|s| <= 64 && AllHex(s)) || (2 <= |s| <= 66 && s[..2] == "0x" && AllHex(s[2..]))
    ensures ParseU256(s).Some? ==> ParseU256(s).value < TWO_256
  {
    HexLimits();
    HexReadable(StripPrefix(s));
    PowGrows(|StripPrefix(s)|);
    if "0x" <= s { assert s[1] == 'x'; }
  }

  lemma PowGrows(n: nat)
    ensures n <= 64 ==> Pow(16, n) <= Pow(16, 64)
  {
    if n <= 64 {
      PowAdd(16, n, 64 - n);
      PowPositive(16, 64 - n);
      PowPositive(16, n);
      TimesPositive(Pow(16, n), Pow(16, 64 - n));
    }
  }

  lemma TimesPositive(x: nat, y: nat)
    requires y > 0
    ensures x <= x * y
  {
  }

  /** A text is an amount exactly when it is decimal digits, of a number below 2^256. */
  lemma ReadableAmount(s: string)
    ensures ParseAmount(s).Some? <==> AllDecimal(s) && DecValue(s).Some? && DecValue(s).value < TWO_256
  {
    DecimalReadable(s);
  }
}
