/** The two string operations the search box uses: lower-casing and substring search. */
module Text {

  /** Lower-cases one character; only the ASCII capitals A..Z change. */
  function LowerChar(c: char): (r: char)
    ensures 'A' <= c <= 'Z' ==> 'a' <= r <= 'z' && r as int - c as int == 32
    ensures !('A' <= c <= 'Z') ==> r == c
    ensures !('A' <= r <= 'Z')
  {
    if 'A' <= c <= 'Z' then (c as int + 32) as char else c
  }

  /** Lower-cases a string character by character. */
  function ToLower(s: string): (r: string)
    ensures |r| == |s|
    ensures forall i :: 0 <= i < |s| ==> r[i] == LowerChar(s[i])
  {
    if s == [] then [] else [LowerChar(s[0])] + ToLower(s[1..])
  }

  /** Lower-casing twice is lower-casing once. */
  lemma ToLowerIdempotent(s: string)
    ensures ToLower(ToLower(s)) == ToLower(s)
  {
  }

  /** `sub` occurs in `s` at some position. */
  ghost predicate Occurs(s: string, sub: string)
  {
    exists i :: 0 <= i <= |s| - |sub| && sub <= s[i..]
  }

  /** The first position at or after `k` where `sub` occurs in `s`, or -1 when there is none. */
  function IndexFrom(s: string, sub: string, k: nat): (r: int)
    requires k <= |s|
    ensures r == -1 || (k <= r <= |s| - |sub| && sub <= s[r..])
    ensures r != -1 ==> forall i :: k <= i < r ==> !(sub <= s[i..])
    ensures r == -1 ==> forall i :: k <= i <= |s| - |sub| ==> !(sub <= s[i..])
    decreases |s| - k
  {
    if |s| - k < |sub| then -1
    else if sub <= s[k..] then k
    else IndexFrom(s, sub, k + 1)
  }

  /** String search as `indexOf` does it from the start: the first position of `sub` in `s`,
      or -1; the empty string is found at position 0. */
  function IndexOf(s: string, sub: string): (r: int)
    ensures r == -1 || 0 <= r <= |s| - |sub|
    ensures r > -1 <==> Occurs(s, sub)
    ensures r > -1 ==> sub <= s[r..] && forall i :: 0 <= i < r ==> !(sub <= s[i..])
    ensures sub == [] ==> r == 0
  {
    IndexFrom(s, sub, 0)
  }
}
