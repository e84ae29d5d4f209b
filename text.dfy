/**
 * The two string operations the dashboard relies on: Python's substring test
 * `sub in s`, and `str.lower()` restricted to ASCII letters.
 */
module Text {

  /** `sub` occurs in `s` starting at index `k`. */
  predicate OccursAt(s: string, sub: string, k: int)
  {
    0 <= k && k + |sub| <= |s| && s[k..k + |sub|] == sub
  }

  /** Python's `sub in s` for strings. */
  ghost predicate Contains(s: string, sub: string)
  {
    exists k :: OccursAt(s, sub, k)
  }

  /** A code point below 128. */
  predicate IsAscii(c: char)
  {
    c as int < 128
  }

  predicate IsAsciiUpper(c: char)
  {
    'A' <= c <= 'Z'
  }

  /** Lower-cases one character: ASCII capitals become small letters, everything else is kept. */
  function LowerChar(c: char): (r: char)
    ensures !IsAsciiUpper(r)
    ensures IsAsciiUpper(c) ==> r as int == c as int + 32
    ensures !IsAsciiUpper(c) ==> r == c
  {
    if IsAsciiUpper(c) then (c as int + 32) as char else c
  }

  /** `s.lower()`, for the ASCII letters. */
  function Lower(s: string): (r: string)
    ensures |r| == |s|
    ensures forall i :: 0 <= i < |s| ==> r[i] == LowerChar(s[i])
  {
    if s == [] then [] else [LowerChar(s[0])] + Lower(s[1..])
  }

  /** A string made of ASCII code points never contains a string that starts with a non-ASCII one. */
  lemma NoNonAsciiInAscii(s: string, sub: string)
    requires forall i :: 0 <= i < |s| ==> IsAscii(s[i])
    requires |sub| > 0 && !IsAscii(sub[0])
    ensures !Contains(s, sub)
  {
  }
}
