/**
 * The few Python string operations the page relies on: substring search
 * (`needle in s`), `startswith`, `endswith` and `lower`.
 */
module Texte {

  /** `needle` occurs in `s` starting at index `i`. */
  ghost predicate OccursAt(s: string, needle: string, i: int) {
    0 <= i && i + |needle| <= |s| && s[i..i + |needle|] == needle
  }

  /** `s.startswith(prefix)`. */
  predicate StartsWith(s: string, prefix: string)
    ensures StartsWith(s, prefix) ==> |prefix| <= |s|
  {
    |prefix| <= |s| && s[..|prefix|] == prefix
  }

  /** Character by character: the prefix agrees with the first characters of `s`. */
  lemma StartsWithChars(s: string, prefix: string)
    ensures StartsWith(s, prefix) <==> |prefix| <= |s| && forall i :: 0 <= i < |prefix| ==> s[i] == prefix[i]
  {
  }

  /** `s.endswith(suffix)`. */
  predicate EndsWith(s: string, suffix: string)
    ensures EndsWith(s, suffix) ==> |suffix| <= |s|
  {
    |suffix| <= |s| && s[|s| - |suffix|..] == suffix
  }

  /** Character by character: the suffix agrees with the last characters of `s`. */
  lemma EndsWithChars(s: string, suffix: string)
    ensures EndsWith(s, suffix) <==>
      |suffix| <= |s| && forall i :: 0 <= i < |suffix| ==> s[|s| - |suffix| + i] == suffix[i]
  {
  }

  /** `needle in s`. */
  function Contains(s: string, needle: string): (b: bool)
    ensures b <==> exists i :: OccursAt(s, needle, i)
  {
    ContainsFrom(s, needle, 0)
  }

  /** Tries every start position from `from` rightwards, as a left-to-right search does. */
  function ContainsFrom(s: string, needle: string, from: nat): (b: bool)
    ensures b <==> exists i :: from <= i && OccursAt(s, needle, i)
    decreases |s| - from
  {
    if |s| < from + |needle| then
      false
    else if s[from..from + |needle|] == needle then
      assert OccursAt(s, needle, from);
      true
    else
      var b := ContainsFrom(s, needle, from + 1);
      assert forall i :: from <= i && OccursAt(s, needle, i) ==> i == from || from + 1 <= i;
      b
  }

  /**
   * A text is free of `needle` when the needle's first character is absent
   * from its head and one of the needle's characters is absent from its tail.
   */
  lemma NoOccurrenceInConcat(head: string, tail: string, needle: string, k: nat)
    requires |needle| > 0 && needle[0] !in head
    requires k < |needle| && needle[k] !in tail
    ensures !exists i :: OccursAt(head + tail, needle, i)
  {
  }

  /** Lower-case of one character; only the ASCII letters A-Z change. */
  function LowerChar(c: char): char {
    if 'A' <= c <= 'Z' then (c as int + 32) as char else c
  }

  /**
   * `s.lower()`, restricted to ASCII case folding: each upper-case letter
   * becomes its lower-case letter, every other character is kept, and no
   * upper-case letter is left.
   */
  function Lower(s: string): (r: string)
    ensures |r| == |s|
    ensures forall i :: 0 <= i < |s| && 'A' <= s[i] <= 'Z' ==> r[i] as int == s[i] as int + 32
    ensures forall i :: 0 <= i < |s| && !('A' <= s[i] <= 'Z') ==> r[i] == s[i]
    ensures forall i :: 0 <= i < |r| ==> !('A' <= r[i] <= 'Z')
  {
    seq(|s|, i requires 0 <= i < |s| => LowerChar(s[i]))
  }

  /** Lower-casing twice is lower-casing once. */
  lemma LowerIdempotent(s: string)
    ensures Lower(Lower(s)) == Lower(s)
  {
  }
}
