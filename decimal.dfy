/**
 * Base-10 rendering of an unsigned integer, as the translator uses it to
 * compare a published host port with the port written in a label.
 */
module Decimal {

  function DigitChar(d: nat): (c: char)
    requires d < 10
    ensures '0' <= c <= '9'
  {
    "0123456789"[d]
  }

  predicate IsDigit(c: char) { '0' <= c <= '9' }

  function DigitValue(c: char): (d: nat)
    requires IsDigit(c)
    ensures d < 10
  {
    c as int - '0' as int
  }

  /** The canonical decimal form: digits only, no leading zero unless it is "0". */
  predicate IsCanonical(s: string)
  {
    |s| > 0 && (forall i :: 0 <= i < |s| ==> IsDigit(s[i])) && (|s| > 1 ==> s[0] != '0')
  }

  /** Renders `n` in base 10 with no sign and no leading zeros. */
  function Format(n: nat): (s: string)
    ensures |s| > 0
    ensures forall i :: 0 <= i < |s| ==> IsDigit(s[i])
    decreases n
  {
    if n < 10 then [DigitChar(n)] else Format(n / 10) + [DigitChar(n % 10)]
  }

  /** The value of a string of digits, most significant first. */
  function Parse(s: string): nat
    requires forall i :: 0 <= i < |s| ==> IsDigit(s[i])
    decreases |s|
  {
    if s == [] then 0 else Parse(s[..|s| - 1]) * 10 + DigitValue(s[|s| - 1])
  }

  lemma {:induction false} FormatCanonical(n: nat)
    ensures IsCanonical(Format(n))
    ensures |Format(n)| > 1 ==> Format(n)[0] == Format(n / 10)[0]
    decreases n
  {
    if n >= 10 {
      FormatCanonical(n / 10);
      var p := Format(n / 10);
      assert Format(n)[0] == p[0];
      if |p| == 1 {
        assert n / 10 < 10;
        assert p[0] == DigitChar(n / 10);
      }
    }
  }

  /** Parsing undoes formatting. */
  lemma {:induction false} ParseFormat(n: nat)
    ensures Parse(Format(n)) == n
    decreases n
  {
    var s := Format(n);
    if n < 10 {
      assert s[..0] == [];
    } else {
      ParseFormat(n / 10);
      assert s[..|s| - 1] == Format(n / 10);
    }
  }

  /** Distinct numbers have distinct renderings. */
  lemma FormatInjective(a: nat, b: nat)
    ensures Format(a) == Format(b) <==> a == b
  {
    if Format(a) == Format(b) {
      ParseFormat(a);
      ParseFormat(b);
    }
  }

  lemma {:induction false} ParsePositive(s: string)
    requires |s| > 0 && forall i :: 0 <= i < |s| ==> IsDigit(s[i])
    requires s[0] != '0'
    ensures Parse(s) >= 1
    decreases |s|
  {
    if |s| > 1 {
      var p := s[..|s| - 1];
      assert p[0] == s[0];
      ParsePositive(p);
    }
  }

  /** Formatting undoes parsing, on canonical strings. */
  lemma {:induction false} FormatParse(s: string)
    requires IsCanonical(s)
    ensures Format(Parse(s)) == s
    decreases |s|
  {
    var p := s[..|s| - 1];
    var d := DigitValue(s[|s| - 1]);
    if |p| == 0 {
      assert Parse(s) == d;
      assert "0123456789"[d] == s[0];
    } else {
      assert p[0] == s[0];
      assert IsCanonical(p);
      FormatParse(p);
      ParsePositive(p);
      var n := Parse(s);
      assert n == Parse(p) * 10 + d;
      assert n / 10 == Parse(p) && n % 10 == d;
      assert "0123456789"[d] == s[|s| - 1];
      assert s == p + [s[|s| - 1]];
    }
  }

  /**
   * A label value equals the rendering of `n` exactly when it is a
   * canonical decimal numeral whose value is `n`.
   */
  lemma FormatEqualsIff(n: nat, s: string)
    ensures Format(n) == s <==> IsCanonical(s) && Parse(s) == n
  {
    FormatCanonical(n);
    ParseFormat(n);
    if IsCanonical(s) && Parse(s) == n {
      FormatParse(s);
    }
  }
}
