/** Decimal numerals of the form `-?\d+(\.\d+)?`, as written on the serial line,
    and their exact values. Floating-point rounding is not modelled: a numeral
    denotes the real number it spells. */
module Decimals {

  predicate IsDigit(c: char) { '0' <= c <= '9' }

  predicate AllDigits(s: string) { forall i | 0 <= i < |s| :: IsDigit(s[i]) }

  /** The number spelled by a run of decimal digits, most significant digit first. */
  function DigitsValue(s: string): nat
    requires AllDigits(s)
  {
    if s == [] then 0 else DigitsValue(s[..|s| - 1]) * 10 + (s[|s| - 1] as int - '0' as int)
  }

  function Pow10(n: nat): (r: nat)
    ensures r >= 1
  {
    if n == 0 then 1 else 10 * Pow10(n - 1)
  }

  /** Length of the longest prefix of `s` made of digits. */
  function DigitRun(s: string): (n: nat)
    ensures n <= |s| && AllDigits(s[..n])
    ensures n < |s| ==> !IsDigit(s[n])
  {
    if s != [] && IsDigit(s[0]) then
      var k := DigitRun(s[1..]);
      assert s[..k + 1] == [s[0]] + s[1..][..k];
      k + 1
    else 0
  }

  /** A numeral `-?\d+(\.\d+)?`. An empty `fraction` stands for a numeral without
      a fractional part; a present fractional part has at least one digit. */
  datatype Decimal = Decimal(negative: bool, whole: string, fraction: string)

  predicate Valid(d: Decimal) {
    d.whole != [] && AllDigits(d.whole) && AllDigits(d.fraction)
  }

  /** The text of a numeral. */
  function Show(d: Decimal): string {
    SignText(d.negative) + UnsignedText(d)
  }

  /** The text of a numeral without its sign. */
  function UnsignedText(d: Decimal): string { d.whole + FractionText(d.fraction) }

  function SignText(negative: bool): string { if negative then "-" else "" }

  function FractionText(fraction: string): string { if fraction == [] then "" else "." + fraction }

  function Signed(negative: bool, m: real): real { if negative then -m else m }

  /** The exact value a numeral denotes. */
  function Value(d: Decimal): real
    requires Valid(d)
  {
    Signed(d.negative, Magnitude(d.whole, d.fraction))
  }

  /** The value of the digits `whole.fraction`. */
  function Magnitude(whole: string, fraction: string): real
    requires AllDigits(whole) && AllDigits(fraction)
  {
    DigitsValue(whole) as real + DigitsValue(fraction) as real / Pow10(|fraction|) as real
  }

  /** The first index of `c` in `s`, or |s| when there is none. */
  function IndexOf(s: string, c: char): (k: nat)
    ensures k <= |s| && c !in s[..k]
    ensures k < |s| ==> s[k] == c
  {
    if s == [] then 0
    else if s[0] == c then 0
    else
      var k := IndexOf(s[1..], c);
      assert s[..k + 1] == [s[0]] + s[1..][..k];
      k + 1
  }

  /** Splits a text into sign, whole part and fraction at its first '.',
      independently of any scanner. */
  function Decompose(t: string): Decimal {
    var neg := |t| > 0 && t[0] == '-';
    SplitAtPoint(neg, if neg then t[1..] else t)
  }

  function SplitAtPoint(negative: bool, u: string): Decimal {
    var p := IndexOf(u, '.');
    Decimal(negative, u[..p], if p < |u| then u[p + 1..] else "")
  }

  /** `t` is exactly one numeral `-?\d+(\.\d+)?`. */
  predicate IsNumeral(t: string) {
    Valid(Decompose(t)) && Show(Decompose(t)) == t
  }

  /** Decompose reads back every numeral Show writes. */
  lemma DecomposeShow(d: Decimal)
    requires Valid(d)
    ensures Decompose(Show(d)) == d
    ensures IsNumeral(Show(d))
  {
    SignSplit(d.negative, UnsignedText(d));
    SplitShow(d);
  }

  /** Removing the sign of a signed text gives back the unsigned text. */
  lemma SignSplit(negative: bool, u: string)
    requires u != [] && u[0] != '-'
    ensures var t := SignText(negative) + u;
      (|t| > 0 && t[0] == '-') == negative && (if negative then t[1..] else t) == u
  {
    if negative {
      assert (SignText(negative) + u)[1..] == u;
    }
  }

  lemma SplitShow(d: Decimal)
    requires Valid(d)
    ensures SplitAtPoint(d.negative, UnsignedText(d)) == d
  {
    var u := UnsignedText(d);
    assert '.' !in d.whole;
    IndexOfPrefix(d.whole, FractionText(d.fraction), '.');
    if d.fraction != [] {
      assert u[|d.whole| + 1..] == d.fraction;
    }
  }

  lemma {:induction false} IndexOfPrefix(a: string, b: string, c: char)
    requires c !in a
    requires b == [] || b[0] == c
    ensures IndexOf(a + b, c) == |a|
    ensures (a + b)[..|a|] == a
  {
    if a != [] {
      assert (a + b)[1..] == a[1..] + b;
      IndexOfPrefix(a[1..], b, c);
    }
  }

  /** What a numeral can never look like: no '+' sign, no exponent,
      no leading '.' and no trailing '.'. */
  lemma NumeralShape(t: string)
    requires IsNumeral(t)
    ensures |t| > 0 && t[0] != '+' && t[0] != '.' && t[|t| - 1] != '.'
    ensures '+' !in t && 'e' !in t && 'E' !in t
  {
    ShowChars(Decompose(t));
  }

  /** A numeral's text is a sign, digits and points, begins with '-' or a digit
      and ends with a digit. */
  lemma ShowChars(d: Decimal)
    requires Valid(d)
    ensures var t := Show(d);
      |t| > 0 && (t[0] == '-' || IsDigit(t[0])) && IsDigit(t[|t| - 1]) &&
      forall i | 0 <= i < |t| :: t[i] == '-' || t[i] == '.' || IsDigit(t[i])
  {
    var t := Show(d);
    var u := UnsignedText(d);
    UnsignedChars(d);
    if d.negative {
      assert t == ['-'] + u;
    } else {
      assert t == u;
    }
  }

  lemma UnsignedChars(d: Decimal)
    requires Valid(d)
    ensures var u := UnsignedText(d);
      |u| > 0 && IsDigit(u[0]) && IsDigit(u[|u| - 1]) &&
      forall i | 0 <= i < |u| :: u[i] == '.' || IsDigit(u[i])
  {
    var u := UnsignedText(d);
    assert u[0] == d.whole[0];
    if d.fraction != [] {
      assert u[|u| - 1] == d.fraction[|d.fraction| - 1];
    } else {
      assert u == d.whole;
    }
    forall i | 0 <= i < |u| ensures u[i] == '.' || IsDigit(u[i]) {
      if i < |d.whole| {
        assert u[i] == d.whole[i];
      } else if i > |d.whole| {
        assert u[i] == d.fraction[i - |d.whole| - 1];
      }
    }
  }

  lemma {:induction false} DigitRunAll(s: string)
    requires AllDigits(s)
    ensures DigitRun(s) == |s|
  {
    if s != [] {
      DigitRunAll(s[1..]);
    }
  }

  /** A digit run stops at the first non-digit. */
  lemma {:induction false} DigitRunStops(a: string, b: string)
    requires AllDigits(a)
    requires b == [] || !IsDigit(b[0])
    ensures DigitRun(a + b) == |a|
  {
    if a != [] {
      assert (a + b)[1..] == a[1..] + b;
      DigitRunStops(a[1..], b);
    }
  }

  /** The digits of a natural number, used by the firmware's integer formatting. */
  function NatDigits(n: nat): (s: string)
    ensures s != [] && AllDigits(s) && DigitsValue(s) == n
    decreases n
  {
    var last := ['0' + (n % 10) as char];
    if n < 10 then last
    else
      var s := NatDigits(n / 10) + last;
      assert s[..|s| - 1] == NatDigits(n / 10);
      s
  }
}
