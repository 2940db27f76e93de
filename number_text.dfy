/**
 * The text handling the alert rules apply to the `_value` of a query record:
 * `Split(sep).First()` and the number parsers (`float.Parse`, `decimal.Parse`,
 * `double.Parse`), the latter reduced to plain decimal literals read as reals.
 */
module NumberText {
  import opened Wrappers

  /** `s.Split(sep).First()`: the longest prefix of `s` that does not contain `sep`. */
  function BeforeFirst(s: string, sep: char): (r: string)
    ensures r <= s
    ensures sep !in r
    ensures r == s || s[|r|] == sep
  {
    if s == [] then []
    else if s[0] == sep then []
    else [s[0]] + BeforeFirst(s[1..], sep)
  }

  /** The three properties of BeforeFirst's contract determine its result. */
  lemma BeforeFirstUnique(s: string, sep: char, p: string)
    requires p <= s && sep !in p
    requires p == s || s[|p|] == sep
    ensures BeforeFirst(s, sep) == p
  {
  }

  /**
   * `text.Split(".").First().Split(",").First()`, the integer part the
   * data-quality rule keeps: the longest prefix holding neither '.' nor ','.
   */
  function IntegerPart(s: string): (r: string)
    ensures r <= s && '.' !in r && ',' !in r
    ensures r == s || s[|r|] == '.' || s[|r|] == ','
  {
    BeforeFirst(BeforeFirst(s, '.'), ',')
  }

  predicate IsDigit(c: char) {
    '0' <= c <= '9'
  }

  predicate AllDigits(s: string) {
    forall i :: 0 <= i < |s| ==> IsDigit(s[i])
  }

  function Pow10(k: nat): (p: nat)
    ensures p >= 1
  {
    if k == 0 then 1 else 10 * Pow10(k - 1)
  }

  /** The value of a string of decimal digits, most significant first. */
  function DigitsValue(s: string): (n: nat)
    requires AllDigits(s)
    ensures n < Pow10(|s|)
    decreases |s|
  {
    if s == [] then 0
    else DigitsValue(s[..|s| - 1]) * 10 + ((s[|s| - 1] as int) - ('0' as int))
  }

  lemma ProductNonNegative(a: real, b: real)
    requires 0.0 <= a && 0.0 <= b
    ensures 0.0 <= a * b
  {
  }

  lemma QuotientBelowOne(n: real, p: real)
    requires 0.0 <= n < p
    ensures 0.0 <= n / p < 1.0
  {
    var q := n / p;
    assert q * p == n;
    if q < 0.0 {
      ProductNonNegative(-q, p);
    } else if q >= 1.0 {
      ProductNonNegative(q - 1.0, p);
    }
  }

  /** The value of the digits after the point; it always adds less than one. */
  function Fraction(f: string): (x: real)
    requires AllDigits(f)
    ensures 0.0 <= x < 1.0
  {
    QuotientBelowOne(DigitsValue(f) as real, Pow10(|f|) as real);
    DigitsValue(f) as real / Pow10(|f|) as real
  }

  /** `digit+ ['.' digit+]` read as a non-negative real. */
  function ParseUnsigned(s: string): Option<real> {
    var whole := BeforeFirst(s, '.');
    if whole == [] || !AllDigits(whole) then None
    else if whole == s then Some(DigitsValue(whole) as real)
    else
      var frac := s[|whole| + 1..];
      if frac == [] || !AllDigits(frac) then None
      else Some(DigitsValue(whole) as real + Fraction(frac))
  }

  /**
   * The number parsers of the rules, on the literals `['-'] digit+ ['.' digit+]`;
   * `None` stands for the FormatException every other text draws in the model.
   */
  function ParseNumber(s: string): Option<real> {
    if |s| > 0 && s[0] == '-' then
      match ParseUnsigned(s[1..])
      case None => None
      case Some(v) => Some(-v)
    else ParseUnsigned(s)
  }

  /** A string of digits parses to its digits' value. */
  lemma ParseWhole(w: string)
    requires w != [] && AllDigits(w)
    ensures ParseNumber(w) == Some(DigitsValue(w) as real)
  {
    BeforeFirstUnique(w, '.', w);
  }

  /** Digits, a point and digits parse to the value of the whole part plus the fraction. */
  lemma ParseDecimal(w: string, f: string)
    requires w != [] && AllDigits(w) && f != [] && AllDigits(f)
    ensures ParseNumber(w + "." + f) == Some(DigitsValue(w) as real + Fraction(f))
  {
    var s := w + "." + f;
    BeforeFirstUnique(s, '.', w);
    assert s[|w| + 1..] == f;
    assert ParseUnsigned(s) == Some(DigitsValue(w) as real + Fraction(f));
    assert s[0] == w[0] && IsDigit(w[0]);
  }

  /** Dropping the fractional digits: truncation toward zero. */
  function Truncate(x: real): (t: int)
    ensures 0.0 <= x ==> t as real <= x < t as real + 1.0
    ensures x < 0.0 ==> t as real - 1.0 < x <= t as real
  {
    if x >= 0.0 then x.Floor else -((-x).Floor)
  }

  /** A parsable unsigned literal: its integer digits and their bounds on the value. */
  lemma UnsignedWholePart(u: string, v: real)
    requires ParseUnsigned(u) == Some(v)
    ensures var w := BeforeFirst(u, '.');
      w != [] && AllDigits(w) && ',' !in w && '-' !in w &&
      ParseUnsigned(w) == Some(DigitsValue(w) as real) &&
      DigitsValue(w) as real <= v < DigitsValue(w) as real + 1.0
  {
    var w := BeforeFirst(u, '.');
    BeforeFirstUnique(w, '.', w);
  }

  /**
   * The integer part of a parsable literal parses to the literal's value
   * truncated toward zero ("69.9" to 69, "-0.5" to 0).
   */
  lemma {:induction false} IntegerPartTruncates(s: string, x: real)
    requires ParseNumber(s) == Some(x)
    ensures ParseNumber(IntegerPart(s)) == Some(Truncate(x) as real)
  {
    if |s| > 0 && s[0] == '-' {
      var u := s[1..];
      var v := ParseUnsigned(u).value;
      UnsignedWholePart(u, v);
      var w := BeforeFirst(u, '.');
      assert BeforeFirst(s, '.') == ['-'] + w;
      BeforeFirstUnique(['-'] + w, ',', ['-'] + w);
      assert IntegerPart(s) == ['-'] + w;
      assert (['-'] + w)[1..] == w;
      assert v.Floor == DigitsValue(w);
    } else {
      UnsignedWholePart(s, x);
      var w := BeforeFirst(s, '.');
      BeforeFirstUnique(w, ',', w);
      assert IntegerPart(s) == w;
      assert w[0] != '-';
      assert x.Floor == DigitsValue(w);
    }
  }

  /** Below a positive integer threshold, truncation never changes the comparison. */
  lemma TruncatePreservesBelow(x: real, t: int)
    requires t > 0
    ensures Truncate(x) < t <==> x < t as real
  {
    var y := Truncate(x);
    if x >= 0.0 {
      if y < t {
        assert (y + 1) as real <= t as real;
      }
    }
  }
}
