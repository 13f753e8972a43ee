/**
 * The address test of the POST handler (index.js:9): the submitted value must
 * be present, non-empty and match `^0x[a-fA-F0-9]{40}$`.
 *
 * The regular expression is written as the matcher would run it: the literal
 * prefix "0x", then the longest run of hex digits, which must be exactly 40
 * characters long and reach the end of the input.
 */
module Address {
  import opened Wrappers

  /** Number of hex digits the pattern `{40}` demands after "0x". */
  const HexDigitCount: nat := 40

  /** The character class `[a-fA-F0-9]`. */
  predicate IsHexDigit(c: char) {
    ('0' <= c <= '9') || ('a' <= c <= 'f') || ('A' <= c <= 'F')
  }

  /** Length of the longest prefix of `s` made of hex digits. */
  function HexRun(s: string): (n: nat)
    ensures n <= |s|
    ensures forall i :: 0 <= i < n ==> IsHexDigit(s[i])
    ensures n < |s| ==> !IsHexDigit(s[n])
  {
    if |s| == 0 || !IsHexDigit(s[0]) then 0 else 1 + HexRun(s[1..])
  }

  /**
   * `/^0x[a-fA-F0-9]{40}$/.test(s)`: it holds exactly when `s` has 42
   * characters, starts with "0x" (lower-case x) and the rest are hex digits.
   */
  function MatchesPattern(s: string): (b: bool)
    ensures b <==> |s| == 42 && s[0] == '0' && s[1] == 'x'
                   && forall i :: 2 <= i < 42 ==> IsHexDigit(s[i])
  {
    |s| >= 2 && s[0] == '0' && s[1] == 'x'
    && var run := HexRun(s[2..]);
       run == HexDigitCount && run == |s| - 2
  }

  /**
   * `address` passes the handler's guard `!address || !pattern.test(address)`.
   * The `!address` test adds nothing beyond rejecting null: an empty string
   * fails the pattern anyway.
   */
  function Accepted(address: Option<string>): (b: bool)
    ensures b <==> address.Some? && MatchesPattern(address.value)
  {
    address.Some? && address.value != "" && MatchesPattern(address.value)
  }

  /** The pattern fixes the length: one hex digit more or fewer is rejected. */
  lemma LengthBoundary(s: string, c: char)
    requires MatchesPattern(s)
    ensures !MatchesPattern(s + [c])
    ensures !MatchesPattern(s[..|s| - 1])
  {
  }

  /** An absent or empty address never passes. */
  lemma MissingRejected()
    ensures !Accepted(None) && !Accepted(Some(""))
  {
  }
}
