/** The string operations of Python that the modelled code uses. Changes of case are those that
    give an ASCII letter of the words compared here: the ASCII letters themselves and the long s,
    whose upper case is S. */
module Text {
  /** str.isspace() for one character, which is also what strip() removes and \s matches. */
  predicate IsSpace(c: char) {
    || '\t' <= c <= '\r' || '\U{1c}' <= c <= ' ' || c == '\U{85}' || c == '\U{a0}' || c == '\U{1680}'
    || '\U{2000}' <= c <= '\U{200a}' || c == '\U{2028}' || c == '\U{2029}' || c == '\U{202f}'
    || c == '\U{205f}' || c == '\U{3000}'
  }

  /** What splitlines() ends a line at, besides the carriage return. */
  predicate Sep(c: char) {
    '\n' <= c <= '\U{0c}' || '\U{1c}' <= c <= '\U{1e}' || c == '\U{85}' || c == '\U{2028}' || c == '\U{2029}'
  }

  function StripLeft(s: string): string {
    if s != "" && IsSpace(s[0]) then StripLeft(s[1..]) else s
  }

  function StripRight(s: string): string {
    if s != "" && IsSpace(s[|s| - 1]) then StripRight(s[..|s| - 1]) else s
  }

  function Strip(s: string): string { StripRight(StripLeft(s)) }

  function LowerChar(c: char): char { if 'A' <= c <= 'Z' then (c as int + 32) as char else c }

  function UpperChar(c: char): char {
    if 'a' <= c <= 'z' then (c as int - 32) as char else if c == '\U{17f}' then 'S' else c
  }

  function Lower(s: string): string { seq(|s|, i requires 0 <= i < |s| => LowerChar(s[i])) }

  function Upper(s: string): string { seq(|s|, i requires 0 <= i < |s| => UpperChar(s[i])) }

  /** s[:n]. */
  function Clip(s: string, n: nat): string { if |s| <= n then s else s[..n] }

  predicate Bare(s: string) { s != "" ==> !IsSpace(s[0]) && !IsSpace(s[|s| - 1]) }

  lemma {:induction false} StripRightBare(s: string)
    requires s != "" ==> !IsSpace(s[0])
    ensures Bare(StripRight(s))
  {
    if s != "" && IsSpace(s[|s| - 1]) {
      StripRightBare(s[..|s| - 1]);
    }
  }

  lemma {:induction false} StripLeftStarts(s: string)
    ensures StripLeft(s) != "" ==> !IsSpace(StripLeft(s)[0])
  {
    if s != "" && IsSpace(s[0]) {
      StripLeftStarts(s[1..]);
    }
  }

  /** What strip() returns has no space at either end, and stripping it again changes nothing. */
  lemma StripIdempotent(s: string)
    ensures Bare(Strip(s)) && Strip(Strip(s)) == Strip(s)
  {
    StripLeftStarts(s);
    StripRightBare(StripLeft(s));
  }

  lemma UpperKeepsBare(s: string)
    requires Bare(s)
    ensures Bare(Upper(s)) && Strip(Upper(s)) == Upper(s) && Upper(Upper(s)) == Upper(s)
  {
  }
}
