/**
  The two string-to-number conversions of JavaScript that the form code relies on:
  `parseInt(s)` (no radix) and `parseFloat(s)`. `None` stands for NaN.
 */
module JsNumber {
  import opened Common

  predicate IsDigit(c: char) { '0' <= c <= '9' }

  function DigitValue(c: char): nat
    requires IsDigit(c)
  {
    c as int - '0' as int
  }

  predicate IsHexDigit(c: char) { IsDigit(c) || 'a' <= c <= 'f' || 'A' <= c <= 'F' }

  function HexDigitValue(c: char): nat
    requires IsHexDigit(c)
  {
    if IsDigit(c) then DigitValue(c)
    else if 'a' <= c <= 'f' then c as int - 'a' as int + 10
    else c as int - 'A' as int + 10
  }

  predicate AllDigits(d: string) { forall i :: 0 <= i < |d| ==> IsDigit(d[i]) }

  predicate AllHexDigits(d: string) { forall i :: 0 <= i < |d| ==> IsHexDigit(d[i]) }

  /** The longest prefix of `s` made of decimal digits. */
  function DigitPrefix(s: string): (d: string)
    ensures |d| <= |s| && d == s[..|d|]
    ensures AllDigits(d)
    ensures |d| < |s| ==> !IsDigit(s[|d|])
  {
    if s != [] && IsDigit(s[0]) then [s[0]] + DigitPrefix(s[1..]) else []
  }

  /** The longest prefix of `s` made of hexadecimal digits. */
  function HexPrefix(s: string): (d: string)
    ensures |d| <= |s| && d == s[..|d|]
    ensures AllHexDigits(d)
    ensures |d| < |s| ==> !IsHexDigit(s[|d|])
  {
    if s != [] && IsHexDigit(s[0]) then [s[0]] + HexPrefix(s[1..]) else []
  }

  function DecimalValue(d: string): nat
    requires AllDigits(d)
  {
    if d == [] then 0 else DecimalValue(d[..|d| - 1]) * 10 + DigitValue(d[|d| - 1])
  }

  function HexValue(d: string): nat
    requires AllHexDigits(d)
  {
    if d == [] then 0 else HexValue(d[..|d| - 1]) * 16 + HexDigitValue(d[|d| - 1])
  }

  /** The characters of `String(n)` for a natural number. */
  function Decimal(n: nat): (s: string)
    ensures s != [] && AllDigits(s)
  {
    if n < 10 then [('0' as int + n) as char] else Decimal(n / 10) + [('0' as int + n % 10) as char]
  }

  /** `s` with a leading sign removed, and whether that sign was a minus. */
  function SplitSign(t: string): (bool, string)
  {
    if t != [] && (t[0] == '-' || t[0] == '+') then (t[0] == '-', t[1..]) else (false, t)
  }

  function Signed(negative: bool, m: int): int
  {
    if negative then -m else m
  }

  /** `parseInt(s)` with no radix argument (a `0x` prefix selects base 16). */
  function ParseInt(s: string): Option<int>
  {
    var (negative, u) := SplitSign(TrimStart(s));
    if |u| >= 2 && u[0] == '0' && (u[1] == 'x' || u[1] == 'X') then
      var h := HexPrefix(u[2..]);
      if h == [] then None else Some(Signed(negative, HexValue(h)))
    else
      var d := DigitPrefix(u);
      if d == [] then None else Some(Signed(negative, DecimalValue(d)))
  }

  /** `parseInt(s) || 0`: NaN and zero both give 0. */
  function ParseIntOrZero(s: string): int
  {
    match ParseInt(s)
    case None => 0
    case Some(v) => v
  }

  function Pow10(e: nat): (p: nat)
    ensures p >= 1
  {
    if e == 0 then 1 else 10 * Pow10(e - 1)
  }

  /** The value of an exponent part `e[+|-]digits` at the start of `s`, 0 when there is none. */
  function ExponentPart(s: string): int
  {
    if s != [] && (s[0] == 'e' || s[0] == 'E') then
      var (negative, u) := SplitSign(s[1..]);
      var d := DigitPrefix(u);
      if d == [] then 0 else Signed(negative, DecimalValue(d))
    else 0
  }

  function Scale(m: real, e: int): real
  {
    if e >= 0 then m * Pow10(e) as real else m / Pow10(-e) as real
  }

  /** `parseFloat(s)` for decimal notation: sign, digits, optional fraction and exponent. */
  function ParseFloat(s: string): Option<real>
  {
    var (negative, u) := SplitSign(TrimStart(s));
    var whole := DigitPrefix(u);
    var rest := u[|whole|..];
    var hasPoint := rest != [] && rest[0] == '.';
    var frac := if hasPoint then DigitPrefix(rest[1..]) else [];
    if whole == [] && frac == [] then None
    else
      var tail := if hasPoint then rest[1 + |frac|..] else rest;
      var mantissa := DecimalValue(whole) as real + DecimalValue(frac) as real / Pow10(|frac|) as real;
      var v := Scale(mantissa, ExponentPart(tail));
      Some(if negative then -v else v)
  }

  // ---------------------------------------------------------------------
  // Properties
  // ---------------------------------------------------------------------

  lemma {:induction false} DecimalValueOfDecimal(n: nat)
    ensures DecimalValue(Decimal(n)) == n
  {
    if n >= 10 {
      var s := Decimal(n);
      assert s[..|s| - 1] == Decimal(n / 10);
      DecimalValueOfDecimal(n / 10);
    }
  }

  lemma {:induction false} DigitPrefixStopsAt(d: string, rest: string)
    requires AllDigits(d)
    requires rest == [] || !IsDigit(rest[0])
    ensures DigitPrefix(d + rest) == d
  {
    if d != [] {
      assert (d + rest)[1..] == d[1..] + rest;
      DigitPrefixStopsAt(d[1..], rest);
    }
  }

  /**
    Reading back what `String(n)` wrote, followed by anything that cannot
    extend the number ("1200 sq ft" reads as 1200), gives `n` again.
   */
  lemma ParseIntOfDecimal(n: nat, rest: string)
    requires rest == [] || !IsDigit(rest[0])
    requires n == 0 && rest != [] ==> rest[0] != 'x' && rest[0] != 'X'
    ensures ParseInt(Decimal(n) + rest) == Some(n)
    ensures ParseIntOrZero(Decimal(n) + rest) == n
  {
    var s := Decimal(n) + rest;
    assert !IsJsWhitespace(s[0]) && s[0] != '-' && s[0] != '+';
    assert TrimStart(s) == s;
    assert SplitSign(s) == (false, s);
    DigitPrefixStopsAt(Decimal(n), rest);
    DecimalValueOfDecimal(n);
    DecimalLeadingDigit(n);
    // only "0" starts with '0', and then rest[0] is neither 'x' nor 'X'
    assert s[0] == '0' ==> n == 0 && s[1..] == rest;
  }

  lemma {:induction false} DecimalLeadingDigit(n: nat)
    ensures Decimal(n)[0] == '0' <==> n == 0
    ensures n < 10 <==> |Decimal(n)| == 1
  {
    if n >= 10 {
      DecimalLeadingDigit(n / 10);
    }
  }

  /** A minus sign in front of a decimal gives the negated value. */
  lemma ParseIntOfNegativeDecimal(n: nat)
    ensures ParseInt("-" + Decimal(n)) == Some(-(n as int))
  {
    var s := "-" + Decimal(n);
    assert TrimStart(s) == s;
    assert SplitSign(s) == (true, Decimal(n));
    DigitPrefixStopsAt(Decimal(n), []);
    assert Decimal(n) + [] == Decimal(n);
    DecimalValueOfDecimal(n);
  }

  /** Input with no digit after the optional sign is NaN, which `|| 0` turns into 0. */
  lemma ParseIntWithoutDigits(s: string)
    requires var u := SplitSign(TrimStart(s)).1; u == [] || !IsDigit(u[0])
    ensures ParseInt(s) == None && ParseIntOrZero(s) == 0
  {
  }

  /** `parseFloat` reads back an integer written by `String(n)`. */
  lemma ParseFloatOfDecimal(n: nat)
    ensures ParseFloat(Decimal(n)) == Some(n as real)
  {
    var s := Decimal(n);
    assert TrimStart(s) == s;
    assert SplitSign(s) == (false, s);
    DigitPrefixStopsAt(s, []);
    assert s + [] == s;
    DecimalValueOfDecimal(n);
  }
}
