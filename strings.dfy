/**
 * The JavaScript string methods the core calls, restricted to ASCII:
 * `slice(-n)`, `split(c)[0]`, `includes`, `toLowerCase` and
 * `replace(/_/g, ' ')`.
 */
module Strings {

  /** `s.slice(-n)` for n > 0: the last n characters, or all of s when it is shorter. */
  function SliceLast(s: string, n: nat): (r: string)
    ensures |s| >= n ==> |r| == n && s == s[..|s| - n] + r
    ensures |s| < n ==> r == s
  {
    if |s| <= n then s else s[|s| - n..]
  }

  /** `s.split(sep)[0]`: the text before the first occurrence of sep, or all of s. */
  function SplitFirst(s: string, sep: char): (r: string)
    ensures sep !in r
    ensures |r| <= |s| && r == s[..|r|]
    ensures |r| < |s| ==> s[|r|] == sep
  {
    if s == [] then []
    else if s[0] == sep then []
    else [s[0]] + SplitFirst(s[1..], sep)
  }

  /** `s.includes(sub)`: sub occurs in s at some position. */
  predicate Contains(s: string, sub: string): (b: bool)
    ensures b <==> exists i :: 0 <= i <= |s| && sub <= s[i..]
    decreases |s|
  {
    if sub <= s then
      assert s[0..] == s;
      true
    else if s == [] then
      assert forall i :: 0 <= i <= |s| ==> s[i..] == s;
      false
    else
      ContainsShift(s, sub);
      Contains(s[1..], sub)
  }

  /** Past a position where sub does not start, its occurrences are those in the tail. */
  lemma ContainsShift(s: string, sub: string)
    requires s != [] && !(sub <= s)
    ensures (exists i :: 0 <= i <= |s| && sub <= s[i..]) <==> (exists j :: 0 <= j <= |s| - 1 && sub <= s[1..][j..])
  {
    if i :| 0 <= i <= |s| && sub <= s[i..] {
      assert i > 0 && s[1..][i - 1..] == s[i..];
    }
    if j :| 0 <= j <= |s| - 1 && sub <= s[1..][j..] {
      assert s[1..][j..] == s[j + 1..];
    }
  }

  /** `s.replace(/_/g, ' ')`: every underscore becomes a space. */
  function UnderscoresToSpaces(s: string): (r: string)
    ensures |r| == |s|
    ensures forall i :: 0 <= i < |s| ==> r[i] == if s[i] == '_' then ' ' else s[i]
  {
    if s == [] then [] else [if s[0] == '_' then ' ' else s[0]] + UnderscoresToSpaces(s[1..])
  }

  predicate IsUpper(c: char) { 'A' <= c <= 'Z' }

  /** The characters JavaScript's `\s` matches, restricted to ASCII. */
  predicate IsSpace(c: char) { c == ' ' || c == '\t' || c == '\n' || c == '\r' || c == '\U{000B}' || c == '\U{000C}' }

  function LowerChar(c: char): char
  {
    if IsUpper(c) then (c as int - 'A' as int + 'a' as int) as char else c
  }

  /** `s.toLowerCase()` on ASCII text. */
  function Lower(s: string): (r: string)
    ensures |r| == |s|
    ensures forall i :: 0 <= i < |s| ==> r[i] == LowerChar(s[i])
  {
    if s == [] then [] else [LowerChar(s[0])] + Lower(s[1..])
  }

  predicate NoUpper(s: string) { forall i :: 0 <= i < |s| ==> !IsUpper(s[i]) }

  predicate NoSpace(s: string) { forall i :: 0 <= i < |s| ==> !IsSpace(s[i]) }

  /** Lower-casing leaves no upper-case letter, so it is idempotent. */
  lemma LowerIdentity(s: string)
    requires NoUpper(s)
    ensures Lower(s) == s
  {
  }

  lemma LowerNoUpper(s: string)
    ensures NoUpper(Lower(s))
  {
  }
}
