/**
 * Exact numerals: `Convert.ToDecimal(string)` and `Convert.ToInt64(string)` read with a fixed,
 * culture-independent grammar, the decimal-to-int cast, and the formatting a sender would use.
 * A `Decimal` is an integer mantissa and a scale, valued mantissa / 10^scale; like the runtime's
 * decimal it remembers the scale it was written with ("1.50" has scale 2).
 */
module Numbers {
  import opened Wrappers

  datatype Decimal = Decimal(mantissa: int, scale: nat)

  const Int64Min: int := -0x8000_0000_0000_0000
  const Int64Max: int := 0x7FFF_FFFF_FFFF_FFFF
  const Int32Min: int := -0x8000_0000
  const Int32Max: int := 0x7FFF_FFFF

  function Pow10(n: nat): (r: nat)
    ensures r >= 1
  {
    if n == 0 then 1 else 10 * Pow10(n - 1)
  }

  predicate IsDigit(c: char)
  {
    '0' <= c <= '9'
  }

  predicate AllDigits(s: string)
  {
    forall i :: 0 <= i < |s| ==> IsDigit(s[i])
  }

  /** The white space the number parser skips at both ends: tab, line feed, vertical tab, form feed, carriage return, space. */
  predicate IsWhite(c: char)
  {
    c == ' ' || '\t' <= c <= '\r'
  }

  function DropLeadingWhite(s: string): (r: string)
    ensures |r| > 0 ==> !IsWhite(r[0])
  {
    if |s| > 0 && IsWhite(s[0]) then DropLeadingWhite(s[1..]) else s
  }

  function DropTrailingWhite(s: string): (r: string)
    ensures |r| > 0 ==> !IsWhite(r[|r| - 1])
  {
    if |s| > 0 && IsWhite(s[|s| - 1]) then DropTrailingWhite(s[..|s| - 1]) else s
  }

  function TrimWhite(s: string): string
  {
    DropTrailingWhite(DropLeadingWhite(s))
  }

  lemma TrimWhiteNoop(s: string)
    requires |s| > 0 ==> !IsWhite(s[0]) && !IsWhite(s[|s| - 1])
    ensures TrimWhite(s) == s
  {
  }

  /** The value of a digit character; other characters never reach it through the parsers. */
  function DigitValue(c: char): nat
  {
    if IsDigit(c) then c as int - '0' as int else 0
  }

  function DigitChar(d: nat): (c: char)
    requires d < 10
    ensures IsDigit(c) && DigitValue(c) == d
  {
    ('0' as int + d) as char
  }

  /** The value of a run of decimal digits, most significant first; the empty run is 0. */
  function DigitsValue(s: string): nat
  {
    if |s| == 0 then 0 else DigitsValue(s[..|s| - 1]) * 10 + DigitValue(s[|s| - 1])
  }

  /** Shortest decimal digits of `n` ("0" for zero). */
  function NatToDigits(n: nat): (r: string)
    ensures |r| >= 1 && AllDigits(r)
  {
    if n < 10 then [DigitChar(n)] else NatToDigits(n / 10) + [DigitChar(n % 10)]
  }

  /** `n` written with at least `width` digits, padded on the left with zeros. */
  function PaddedDigits(n: nat, width: nat): (r: string)
    ensures |r| >= width
  {
    var d := NatToDigits(n);
    if |d| >= width then d else Zeros(width - |d|) + d
  }

  lemma {:induction false} NatToDigitsValue(n: nat)
    ensures DigitsValue(NatToDigits(n)) == n
  {
    var r := NatToDigits(n);
    if n >= 10 {
      NatToDigitsValue(n / 10);
      assert r[..|r| - 1] == NatToDigits(n / 10);
    }
  }

  lemma ShiftDigit(x: int, p: int, y: int, d: int)
    ensures (x * p + y) * 10 + d == x * (10 * p) + (y * 10 + d)
  {
  }

  lemma {:induction false} DigitsValueAppend(a: string, b: string)
    requires AllDigits(a) && AllDigits(b)
    ensures AllDigits(a + b)
    ensures DigitsValue(a + b) == DigitsValue(a) * Pow10(|b|) + DigitsValue(b)
  {
    if |b| == 0 {
      assert a + b == a;
    } else {
      var b' := b[..|b| - 1];
      var last := b[|b| - 1];
      DigitsValueAppend(a, b');
      assert (a + b)[..|a + b| - 1] == a + b';
      assert (a + b)[|a + b| - 1] == last;
      assert DigitsValue(a + b) == DigitsValue(a + b') * 10 + DigitValue(last);
      assert DigitsValue(b) == DigitsValue(b') * 10 + DigitValue(last);
      assert Pow10(|b|) == 10 * Pow10(|b'|);
      ShiftDigit(DigitsValue(a), Pow10(|b'|), DigitsValue(b'), DigitValue(last));
    }
  }

  /** A run of `k` zero digits. */
  function Zeros(k: nat): (r: string)
    ensures |r| == k
  {
    if k == 0 then [] else Zeros(k - 1) + ['0']
  }

  lemma {:induction false} ZerosValue(k: nat)
    ensures AllDigits(Zeros(k))
    ensures DigitsValue(Zeros(k)) == 0
  {
    if k > 0 {
      ZerosValue(k - 1);
      assert Zeros(k)[..k - 1] == Zeros(k - 1);
    }
  }

  /** Leading zeros do not change the value of a run of digits. */
  lemma ZerosPrefixValue(k: nat, d: string)
    requires AllDigits(d)
    ensures AllDigits(Zeros(k) + d)
    ensures DigitsValue(Zeros(k) + d) == DigitsValue(d)
  {
    ZerosValue(k);
    DigitsValueAppend(Zeros(k), d);
    var p := Pow10(|d|);
    assert DigitsValue(Zeros(k)) * p == 0;
  }

  /** Zero padding does not change the value the digits denote. */
  lemma PaddedDigitsValue(n: nat, width: nat)
    ensures AllDigits(PaddedDigits(n, width))
    ensures DigitsValue(PaddedDigits(n, width)) == n
  {
    var d := NatToDigits(n);
    NatToDigitsValue(n);
    if |d| < width {
      ZerosPrefixValue(width - |d|, d);
    }
  }

  /** Index of the first `c` in `s`, or `|s|` when there is none. */
  function IndexOf(s: string, c: char): (i: nat)
    ensures i <= |s|
    ensures i < |s| ==> s[i] == c
    ensures forall j :: 0 <= j < i ==> s[j] != c
  {
    if |s| == 0 then 0 else if s[0] == c then 0 else 1 + IndexOf(s[1..], c)
  }

  /** Digits with at most one '.', at least one digit in all; the scale is the number of digits after the point. */
  function ParseUnsignedDecimal(s: string): (r: Option<Decimal>)
    ensures r.Some? ==> r.value.mantissa >= 0
  {
    var i := IndexOf(s, '.');
    if i == |s| then
      if |s| > 0 && AllDigits(s) then Some(Decimal(DigitsValue(s), 0)) else None
    else
      var whole, fraction := s[..i], s[i + 1..];
      if AllDigits(whole) && AllDigits(fraction) && |whole| + |fraction| > 0 then
        DigitsValueAppend(whole, fraction);
        Some(Decimal(DigitsValue(whole + fraction), |fraction|))
      else None
  }

  /**
   * `Convert.ToDecimal(string)` (number style `Number`), read as under the invariant culture, which
   * the model assumes where the source uses the current one: optional white space at both ends,
   * an optional leading '+' or '-', then an unsigned decimal numeral with '.' as the point.
   */
  function ParseDecimal(s: string): (r: Option<Decimal>)
    ensures s == "" ==> r.None?
  {
    SignedDecimal(TrimWhite(s))
  }

  /** A decimal numeral with an optional leading sign and no surrounding white space. */
  function SignedDecimal(t: string): Option<Decimal>
  {
    if |t| > 0 && (t[0] == '-' || t[0] == '+') then WithSign(t[0] == '-', ParseUnsignedDecimal(t[1..]))
    else ParseUnsignedDecimal(t)
  }

  function WithSign(negative: bool, r: Option<Decimal>): Option<Decimal>
  {
    match r
    case None => None
    case Some(d) => Some(if negative then Decimal(-d.mantissa, d.scale) else d)
  }

  /** Digits hold no point, comma or minus sign. */
  lemma DigitsOnly(s: string)
    requires AllDigits(s)
    ensures '.' !in s && ',' !in s && '-' !in s
  {
    assert forall i :: 0 <= i < |s| ==> s[i] != '.' && s[i] != ',' && s[i] != '-';
  }

  /** Both sides of a cut through a run of digits are digits. */
  lemma DigitsSplit(s: string, k: nat)
    requires AllDigits(s) && k <= |s|
    ensures AllDigits(s[..k]) && AllDigits(s[k..])
  {
    assert forall i :: 0 <= i < k ==> s[..k][i] == s[i];
    assert forall i :: 0 <= i < |s| - k ==> s[k..][i] == s[k + i];
  }

  /** Unsigned text of `m / 10^scale`: at least one digit before the point and exactly `scale` after it. */
  function UnsignedText(m: nat, scale: nat): (r: string)
    ensures |r| > 0 && IsDigit(r[0]) && IsDigit(r[|r| - 1])
    ensures ',' !in r && '-' !in r
  {
    var digits := PaddedDigits(m, scale + 1);
    PaddedDigitsValue(m, scale + 1);
    if scale == 0 then
      DigitsOnly(digits);
      digits
    else
      var k := |digits| - scale;
      DigitsSplit(digits, k);
      DigitsOnly(digits[..k]);
      DigitsOnly(digits[k..]);
      digits[..k] + "." + digits[k..]
  }

  /** The invariant-culture text of a decimal: a '-' for negatives, then its unsigned text. */
  function FormatDecimal(d: Decimal): (r: string)
    ensures |r| > 0 && (IsDigit(r[0]) || r[0] == '-') && IsDigit(r[|r| - 1])
    ensures ',' !in r
  {
    var m: nat := if d.mantissa < 0 then -d.mantissa else d.mantissa;
    (if d.mantissa < 0 then "-" else "") + UnsignedText(m, d.scale)
  }

  lemma {:induction false} IndexOfFirst(a: string, c: char, b: string)
    requires c !in a
    ensures IndexOf(a + [c] + b, c) == |a|
  {
    if |a| > 0 {
      IndexOfFirst(a[1..], c, b);
      assert (a + [c] + b)[1..] == a[1..] + [c] + b;
    }
  }

  /** A run of digits without a point reads as a whole number of scale 0. */
  lemma ParseWholeDigits(digits: string)
    requires |digits| > 0 && AllDigits(digits)
    ensures ParseUnsignedDecimal(digits) == Some(Decimal(DigitsValue(digits), 0))
  {
    DigitsOnly(digits);
  }

  /** Digits, a point and digits read as the digits run together, scaled by the length of the fraction. */
  lemma ParseFractionDigits(whole: string, fraction: string)
    requires |whole| > 0 && AllDigits(whole) && AllDigits(fraction)
    ensures ParseUnsignedDecimal(whole + "." + fraction) ==
      Some(Decimal(DigitsValue(whole + fraction), |fraction|))
  {
    var body := whole + "." + fraction;
    var k := |whole|;
    DigitsOnly(whole);
    IndexOfFirst(whole, '.', fraction);
    assert body[..k] == whole;
    assert body[k + 1..] == fraction;
  }

  lemma ParseUnsignedText(m: nat, scale: nat)
    ensures ParseUnsignedDecimal(UnsignedText(m, scale)) == Some(Decimal(m, scale))
  {
    var digits := PaddedDigits(m, scale + 1);
    var k := |digits| - scale;
    PaddedDigitsValue(m, scale + 1);
    if scale > 0 {
      var whole, fraction := digits[..k], digits[k..];
      assert whole + fraction == digits;
      ParseFractionDigits(whole, fraction);
    } else {
      ParseWholeDigits(digits);
    }
  }

  /** A numeral that starts (after its optional '-') and ends with a digit has no white space to trim. */
  lemma SignedTextTrimmed(sign: string, body: string)
    requires sign == "" || sign == "-"
    requires |body| > 0 && IsDigit(body[0]) && IsDigit(body[|body| - 1])
    ensures TrimWhite(sign + body) == sign + body
  {
    var t := sign + body;
    assert t[|t| - 1] == body[|body| - 1];
    TrimWhiteNoop(t);
  }

  /** The sign of a numeral is split from its unsigned part. */
  lemma SignedTextBody(sign: string, body: string)
    requires sign == "" || sign == "-"
    requires |body| > 0 && IsDigit(body[0])
    ensures var t := sign + body;
      (|t| > 0 && (t[0] == '-' || t[0] == '+')) == (sign == "-") &&
      (sign == "-" ==> t[0] == '-' && t[1..] == body) &&
      (sign == "" ==> t == body)
  {
  }

  /** A signed numeral whose text has no white space at its ends reads as its sign applied to its unsigned part. */
  lemma SignedText(sign: string, body: string)
    requires sign == "" || sign == "-"
    requires |body| > 0 && IsDigit(body[0]) && IsDigit(body[|body| - 1])
    ensures ParseDecimal(sign + body) == WithSign(sign == "-", ParseUnsignedDecimal(body))
  {
    SignedTextTrimmed(sign, body);
    SignedTextBody(sign, body);
  }

  /** Reading back the text of a decimal gives the same mantissa and the same scale. */
  lemma ParseFormatDecimal(d: Decimal)
    ensures ParseDecimal(FormatDecimal(d)) == Some(d)
  {
    var m: nat := if d.mantissa < 0 then -d.mantissa else d.mantissa;
    ParseUnsignedText(m, d.scale);
    SignedText(if d.mantissa < 0 then "-" else "", UnsignedText(m, d.scale));
  }

  /** An integer numeral: optional white space at both ends, an optional leading sign, at least one digit. */
  function ParseInteger(s: string): Option<int>
  {
    SignedInteger(TrimWhite(s))
  }

  /** An integer numeral with an optional leading sign and no surrounding white space. */
  function SignedInteger(t: string): Option<int>
  {
    var negative := |t| > 0 && t[0] == '-';
    var digits := if |t| > 0 && (t[0] == '-' || t[0] == '+') then t[1..] else t;
    if |digits| > 0 && AllDigits(digits) then
      var magnitude: int := DigitsValue(digits);
      Some(if negative then -magnitude else magnitude)
    else None
  }

  /**
   * `Convert.ToInt64(string)` (number style `Integer`), read as under the invariant culture: an integer
   * numeral whose value fits in 64 signed bits; a larger one overflows.
   */
  function ParseInt64(s: string): (r: Option<int>)
    ensures r.Some? ==> Int64Min <= r.value <= Int64Max
  {
    match ParseInteger(s)
    case Some(v) => if Int64Min <= v <= Int64Max then Some(v) else None
    case None => None
  }

  function FormatInteger(v: int): (r: string)
    ensures |r| > 0 && (IsDigit(r[0]) || r[0] == '-') && IsDigit(r[|r| - 1])
    ensures ',' !in r
  {
    var digits := NatToDigits(if v < 0 then -v else v);
    assert forall i :: 0 <= i < |digits| ==> digits[i] != ',';
    (if v < 0 then "-" else "") + digits
  }

  lemma SignedIntegerText(sign: string, digits: string)
    requires sign == "" || sign == "-"
    requires |digits| > 0 && AllDigits(digits)
    ensures SignedInteger(sign + digits) ==
      Some(if sign == "-" then -(DigitsValue(digits) as int) else DigitsValue(digits))
  {
    assert IsDigit(digits[0]);
    SignedTextBody(sign, digits);
  }

  lemma ParseIntegerText(sign: string, digits: string)
    requires sign == "" || sign == "-"
    requires |digits| > 0 && AllDigits(digits)
    ensures ParseInteger(sign + digits) ==
      Some(if sign == "-" then -(DigitsValue(digits) as int) else DigitsValue(digits))
  {
    assert IsDigit(digits[0]) && IsDigit(digits[|digits| - 1]);
    SignedTextTrimmed(sign, digits);
    SignedIntegerText(sign, digits);
  }

  /** Every 64-bit value survives being written out and read back. */
  lemma ParseFormatInt64(v: int)
    requires Int64Min <= v <= Int64Max
    ensures ParseInt64(FormatInteger(v)) == Some(v)
  {
    NatToDigitsValue(if v < 0 then -v else v);
    ParseIntegerText(if v < 0 then "-" else "", NatToDigits(if v < 0 then -v else v));
  }

  function Abs(x: int): nat
  {
    if x < 0 then -x else x
  }

  lemma DivisionBounds(a: nat, p: nat)
    requires p >= 1
    ensures 0 <= a / p
    ensures (a / p) * p <= a < (a / p + 1) * p
  {
    assert a == (a / p) * p + a % p;
  }

  /** The whole part of a decimal's magnitude: its mantissa's magnitude with `scale` digits dropped. */
  function WholeMagnitude(d: Decimal): (r: nat)
    ensures r * Pow10(d.scale) <= Abs(d.mantissa) < (r + 1) * Pow10(d.scale)
  {
    var a, p := Abs(d.mantissa), Pow10(d.scale);
    DivisionBounds(a, p);
    a / p
  }

  /** The `(int)` cast of a decimal: truncation toward zero, `None` where the runtime throws an overflow. */
  function Int32OfDecimal(d: Decimal): (r: Option<int>)
    ensures r.Some? ==> Int32Min <= r.value <= Int32Max
    ensures r.Some? ==> Abs(r.value) == WholeMagnitude(d)
    ensures r.Some? ==> (d.mantissa >= 0 ==> r.value >= 0) && (d.mantissa < 0 ==> r.value <= 0)
    ensures r.None? <==> WholeMagnitude(d) > (if d.mantissa < 0 then -Int32Min else Int32Max)
  {
    var magnitude := WholeMagnitude(d);
    var t: int := if d.mantissa < 0 then -(magnitude as int) else magnitude;
    if Int32Min <= t <= Int32Max then Some(t) else None
  }
}
