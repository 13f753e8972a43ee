/**
 * Decimal digit strings and the integers they denote.
 *
 * `ParseBigInt` models `BigInt(text)` on a claim amount (index.js:43, 53)
 * restricted to plain decimal digit strings; `DecimalText` models the
 * `${n}` template conversion of a non-negative integer below 2^53, used by
 * `formatTime`.
 */
module Decimal {
  import opened Wrappers

  predicate IsDigit(c: char) {
    '0' <= c <= '9'
  }

  predicate AllDigits(s: string) {
    forall i :: 0 <= i < |s| ==> IsDigit(s[i])
  }

  function DigitValue(c: char): nat
    requires IsDigit(c)
  {
    c as nat - '0' as nat
  }

  function DigitChar(d: nat): (c: char)
    requires d < 10
    ensures IsDigit(c) && DigitValue(c) == d
  {
    ('0' as nat + d) as char
  }

  /** The value of a digit string read most significant digit first. */
  function DigitsValue(s: string): nat
    requires AllDigits(s)
  {
    if |s| == 0 then 0 else DigitsValue(s[..|s| - 1]) * 10 + DigitValue(s[|s| - 1])
  }

  /**
   * The decimal spelling of `n` without leading zeros. For `n` below 2^53
   * this is what JavaScript's number-to-string gives.
   */
  function DecimalText(n: nat): (s: string)
    ensures Canonical(s)
  {
    if n < 10 then [DigitChar(n)] else DecimalText(n / 10) + [DigitChar(n % 10)]
  }

  /** A digit string without superfluous leading zeros. */
  predicate Canonical(s: string) {
    |s| > 0 && AllDigits(s) && (s[0] != '0' || |s| == 1)
  }

  /** The message V8 attaches to the SyntaxError thrown by `BigInt` on a malformed string. */
  function BigIntSyntaxMessage(s: string): string {
    "Cannot convert " + s + " to a BigInt"
  }

  /**
   * `BigInt(s)` for a string `s`: a non-empty run of decimal digits yields its
   * value; anything else throws.
   */
  function ParseBigInt(s: string): (r: Result<int>)
    ensures r.Ok? <==> |s| > 0 && AllDigits(s)
    ensures r.Ok? ==> r.value >= 0
    ensures r.Err? ==> r.message == BigIntSyntaxMessage(s)
  {
    if |s| > 0 && AllDigits(s) then Ok(DigitsValue(s)) else Err(BigIntSyntaxMessage(s))
  }

  /** Reading back the decimal spelling of `n` gives `n`. */
  lemma {:induction false} DigitsValueOfText(n: nat)
    ensures DigitsValue(DecimalText(n)) == n
  {
    if n >= 10 {
      DigitsValueOfText(n / 10);
      var s := DecimalText(n);
      assert s[..|s| - 1] == DecimalText(n / 10);
    }
  }

  /** A digit string whose first digit is not zero has a positive value. */
  lemma {:induction false} LeadingDigitBound(s: string)
    requires |s| > 0 && AllDigits(s) && s[0] != '0'
    ensures DigitsValue(s) >= 1
  {
    if |s| > 1 {
      LeadingDigitBound(s[..|s| - 1]);
    }
  }

  /** Every canonical digit string is the decimal spelling of its value. */
  lemma {:induction false} TextOfDigitsValue(s: string)
    requires Canonical(s)
    ensures DecimalText(DigitsValue(s)) == s
  {
    if |s| > 1 {
      var init := s[..|s| - 1];
      LeadingDigitBound(init);
      TextOfDigitsValue(init);
      var n := DigitsValue(s);
      assert n / 10 == DigitsValue(init) && n % 10 == DigitValue(s[|s| - 1]);
      assert s == init + [s[|s| - 1]];
    }
  }

  /** `BigInt(String(n)) == n` for every non-negative `n`. */
  lemma ParseBigIntOfText(n: nat)
    ensures ParseBigInt(DecimalText(n)) == Ok(n)
  {
    DigitsValueOfText(n);
  }

  /** A leading zero does not change the value `BigInt` reads. */
  lemma {:induction false} LeadingZeroIgnored(s: string)
    requires |s| > 0 && AllDigits(s)
    ensures ParseBigInt("0" + s) == ParseBigInt(s)
  {
    DigitsAfterZero(s);
  }

  lemma {:induction false} DigitsAfterZero(s: string)
    requires AllDigits(s)
    ensures AllDigits("0" + s) && DigitsValue("0" + s) == DigitsValue(s)
  {
    if |s| > 0 {
      var init := s[..|s| - 1];
      assert ("0" + s)[..|s|] == "0" + init;
      DigitsAfterZero(init);
    }
  }

  /** Spellings of different numbers differ. */
  lemma DecimalTextInjective(x: nat, y: nat)
    requires DecimalText(x) == DecimalText(y)
    ensures x == y
  {
    DigitsValueOfText(x);
    DigitsValueOfText(y);
  }

  /**
   * A text ending in a non-digit, followed by a digit string, is split at
   * that non-digit in only one way.
   */
  lemma DigitSuffixUnique(p1: string, d1: string, p2: string, d2: string)
    requires AllDigits(d1) && AllDigits(d2)
    requires |p1| > 0 && !IsDigit(p1[|p1| - 1]) && |p2| > 0 && !IsDigit(p2[|p2| - 1])
    requires p1 + d1 == p2 + d2
    ensures p1 == p2 && d1 == d2
  {
    assert p1 == (p1 + d1)[..|p1|] && p2 == (p2 + d2)[..|p2|];
    assert d1 == (p1 + d1)[|p1|..] && d2 == (p2 + d2)[|p2|..];
  }
}
