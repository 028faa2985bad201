/** Case-insensitive string comparison, as `String.equalsIgnoreCase` is used
    by the tag short-circuit.

    Java's `equalsIgnoreCase` folds each pair of characters through
    `Character.toUpperCase` and `Character.toLowerCase`, which covers all of
    Unicode. This model folds ASCII letters only: 'A'..'Z' are identified with
    'a'..'z' and every other character is compared exactly. */
module Text {

  /** The ASCII lower-case fold of one character. */
  function FoldChar(c: char): (f: char)
    ensures 'A' <= c <= 'Z' ==> f as int == c as int + 32
    ensures !('A' <= c <= 'Z') ==> f == c
    ensures !('A' <= f <= 'Z')
  {
    if 'A' <= c <= 'Z' then (c as int + 32) as char else c
  }

  /** Exactly which pairs of characters the fold identifies: equal ones, and
      an upper-case ASCII letter with its own lower-case letter. */
  lemma FoldEqual(x: char, y: char)
    ensures FoldChar(x) == FoldChar(y) <==>
              || x == y
              || ('A' <= x <= 'Z' && y as int == x as int + 32)
              || ('A' <= y <= 'Z' && x as int == y as int + 32)
  {
  }

  /** Character-by-character comparison under the fold, the way
      `equalsIgnoreCase` walks both strings. */
  predicate EqualsIgnoreCase(a: string, b: string) {
    |a| == |b| && forall i :: 0 <= i < |a| ==> FoldChar(a[i]) == FoldChar(b[i])
  }

  /** The whole string folded at once (the analogue of `toLowerCase`), built on
      the same fold. */
  function Lower(s: string): (r: string)
    ensures |r| == |s|
    ensures forall i :: 0 <= i < |s| ==> r[i] == FoldChar(s[i])
  {
    if s == [] then [] else [FoldChar(s[0])] + Lower(s[1..])
  }

  /** Comparing ignoring case is comparing the folded strings. */
  lemma EqualsIgnoreCaseIsLowerEquality(a: string, b: string)
    ensures EqualsIgnoreCase(a, b) <==> Lower(a) == Lower(b)
  {
  }

  /** The comparison is an equivalence relation. */
  lemma EqualsIgnoreCaseIsEquivalence(a: string, b: string, c: string)
    ensures EqualsIgnoreCase(a, a)
    ensures EqualsIgnoreCase(a, b) ==> EqualsIgnoreCase(b, a)
    ensures EqualsIgnoreCase(a, b) && EqualsIgnoreCase(b, c) ==> EqualsIgnoreCase(a, c)
  {
  }
}
