/** The few `java.lang.String` operations the login flow relies on. */
module Text {
  import opened Wrappers

  /** `s == null || s.isEmpty()` on a nullable string. */
  predicate NullOrEmpty(s: Option<string>) {
    s.None? || |s.value| == 0
  }

  /** `s.replace(from, to)` where target and replacement are one-character
      strings: every occurrence of `from` becomes `to`, nothing else moves. */
  function ReplaceChar(s: string, from: char, to: char): (r: string)
    ensures |r| == |s|
    ensures forall i :: 0 <= i < |s| && s[i] == from ==> r[i] == to
    ensures forall i :: 0 <= i < |s| && s[i] != from ==> r[i] == s[i]
  {
    if |s| == 0 then []
    else [if s[0] == from then to else s[0]] + ReplaceChar(s[1..], from, to)
  }

  /** After replacing `from` by a different character, `from` no longer occurs. */
  lemma ReplaceCharRemovesAll(s: string, from: char, to: char)
    requires from != to
    ensures from !in ReplaceChar(s, from, to)
  {
  }

  /** Replacing a character that does not occur returns the string unchanged. */
  lemma ReplaceCharAbsent(s: string, from: char, to: char)
    requires from !in s
    ensures ReplaceChar(s, from, to) == s
  {
  }

  /** Replacing is idempotent: a second pass finds nothing left to replace. */
  lemma ReplaceCharIdempotent(s: string, from: char, to: char)
    requires from != to
    ensures ReplaceChar(ReplaceChar(s, from, to), from, to) == ReplaceChar(s, from, to)
  {
  }
}
