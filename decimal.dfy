/**
 * Decimal text of the numbers that appear in the tracker's messages: Python's
 * `str` of a non-negative integer, and its `str` of a float amount rounded to
 * two decimals (`round(x, 2)`), which prints the shortest form: the whole part,
 * a dot, and one or two fraction digits with a trailing zero dropped. The
 * float form agrees with this only for amounts the tracker creates (at most
 * 50000.00): very large floats print in exponent form or lose their cents.
 */
module Decimal {
  import opened Wrappers

  predicate IsDigit(c: char) { '0' <= c <= '9' }

  predicate AllDigits(s: string) { forall i :: 0 <= i < |s| ==> IsDigit(s[i]) }

  function DigitChar(d: nat): (c: char)
    requires d < 10
    ensures IsDigit(c) && DigitValue(c) == d
  {
    ('0' as int + d) as char
  }

  function DigitValue(c: char): nat
    requires IsDigit(c)
  {
    c as int - '0' as int
  }

  /** Decimal digits of `n`, most significant first, without leading zeros. */
  function NatToString(n: nat): (s: string)
    ensures |s| >= 1 && AllDigits(s)
    ensures |s| > 1 ==> s[0] != '0'
    decreases n
  {
    if n < 10 then [DigitChar(n)] else NatToString(n / 10) + [DigitChar(n % 10)]
  }

  /** The number a string of digits denotes. */
  function Value(s: string): nat
    requires AllDigits(s)
  {
    if s == [] then 0 else Value(s[..|s| - 1]) * 10 + DigitValue(s[|s| - 1])
  }

  lemma {:induction false} ValueOfNatToString(n: nat)
    ensures Value(NatToString(n)) == n
  {
    if n >= 10 {
      ValueOfNatToString(n / 10);
      var s := NatToString(n);
      assert s[..|s| - 1] == NatToString(n / 10);
    }
  }

  /** How `f"{amount}"` prints an amount of `cents / 100` (e.g. 1234.5, 1234.56, 1234.0). */
  function FormatAmount(cents: nat): (s: string)
    ensures var w := NatToString(cents / 100);
      && |w| + 2 <= |s| <= |w| + 3 && s[..|w|] == w && s[|w|] == '.'
      && AllDigits(s[|w| + 1..])
      && (|s| == |w| + 3 ==> s[|s| - 1] != '0')
  {
    var frac := cents % 100;
    NatToString(cents / 100) + "." +
      (if frac % 10 == 0 then [DigitChar(frac / 10)]
       else [DigitChar(frac / 10), DigitChar(frac % 10)])
  }

  /** Index of the first `c` in `s`, or `|s|` when there is none. */
  function IndexOf(s: string, c: char): (k: nat)
    ensures k <= |s|
    ensures k < |s| ==> s[k] == c
    ensures forall i :: 0 <= i < k ==> s[i] != c
  {
    if s == [] then 0 else if s[0] == c then 0 else 1 + IndexOf(s[1..], c)
  }

  /** Reads an amount printed as FormatAmount prints it back into cents. */
  function ParseAmount(s: string): Option<nat>
  {
    var k := IndexOf(s, '.');
    if k == |s| then None else ParseParts(s[..k], s[k + 1..])
  }

  /** The amount in cents spelled by the text before and after the dot. */
  function ParseParts(whole: string, frac: string): Option<nat>
  {
    if whole == [] || !AllDigits(whole) || !AllDigits(frac) || !(1 <= |frac| <= 2) then None
    else Some(Value(whole) * 100 + (if |frac| == 1 then Value(frac) * 10 else Value(frac)))
  }

  /** Text without a dot, a dot, and any text: parsing splits at that dot. */
  lemma ParseAtDot(w: string, f: string)
    requires AllDigits(w)
    ensures ParseAmount(w + "." + f) == ParseParts(w, f)
  {
    var s := w + "." + f;
    assert s[|w|] == '.';
    assert forall i :: 0 <= i < |w| ==> s[i] == w[i] && s[i] != '.';
    var k := IndexOf(s, '.');
    assert k <= |w|;
    assert k == |w|;
    assert s[..k] == w;
    assert s[k + 1..] == f;
  }

  /** The fraction digits FormatAmount prints spell the cents below a whole unit. */
  lemma FractionDigits(frac: nat)
    requires frac < 100
    ensures var f := if frac % 10 == 0 then [DigitChar(frac / 10)] else [DigitChar(frac / 10), DigitChar(frac % 10)];
      AllDigits(f) && 1 <= |f| <= 2 && (if |f| == 1 then Value(f) * 10 else Value(f)) == frac
  {
    if frac % 10 == 0 {
      var f := [DigitChar(frac / 10)];
      assert f[..0] == [];
      assert Value(f) == frac / 10;
    } else {
      var f := [DigitChar(frac / 10), DigitChar(frac % 10)];
      assert f[..1] == [DigitChar(frac / 10)];
      assert f[..1][..0] == [];
      assert Value(f[..1]) == frac / 10;
      assert Value(f) == (frac / 10) * 10 + frac % 10;
    }
  }

  /** The printed amount determines the amount: parsing it gives back the cents. */
  lemma AmountRoundTrip(cents: nat)
    ensures ParseAmount(FormatAmount(cents)) == Some(cents)
  {
    var frac := cents % 100;
    var f := if frac % 10 == 0 then [DigitChar(frac / 10)] else [DigitChar(frac / 10), DigitChar(frac % 10)];
    FractionDigits(frac);
    ValueOfNatToString(cents / 100);
    ParseAtDot(NatToString(cents / 100), f);
    assert ParseParts(NatToString(cents / 100), f) == Some(cents / 100 * 100 + frac);
  }

  /** Two different amounts never print alike. */
  lemma FormatAmountInjective(c1: nat, c2: nat)
    requires FormatAmount(c1) == FormatAmount(c2)
    ensures c1 == c2
  {
    AmountRoundTrip(c1);
    AmountRoundTrip(c2);
  }
}
