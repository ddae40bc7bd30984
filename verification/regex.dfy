/**
  The fragment of JavaScript regular expressions that the identifier and
  digit checks use: bracket character classes built from ranges and single
  characters, one occurrence of a class, and the `*` and `+` repetitions of a
  class, anchored at both ends (`^…$` without the `m` flag, so `$` matches only
  at the end of the input).

  Characters are Dafny `char`s. Every class in this model is pure ASCII, so a
  character outside ASCII never matches, whether it is read as a UTF-16 code
  unit (as a regular expression without the `u` flag does) or as a code point.
 */
module Regex {

  /** One item of a bracket class: a range `a-z` or a single character `$`. */
  datatype ClassItem = Range(lo: char, hi: char) | Single(c: char)

  type CharClass = seq<ClassItem>

  predicate ItemMatches(item: ClassItem, c: char)
  {
    match item
    case Range(lo, hi) => lo <= c <= hi
    case Single(d) => c == d
  }

  /** `[items]` matches `c` when some item of the class does. */
  predicate InClass(cls: CharClass, c: char)
  {
    exists i :: 0 <= i < |cls| && ItemMatches(cls[i], c)
  }

  /** `^[cls]*$`: the regex reading of the whole input, one character at a time. */
  predicate MatchesStar(cls: CharClass, s: string)
    decreases |s|
  {
    |s| == 0 || (InClass(cls, s[0]) && MatchesStar(cls, s[1..]))
  }

  /** `^[cls]+$`, that is `^[cls][cls]*$`. */
  predicate MatchesPlus(cls: CharClass, s: string)
  {
    |s| >= 1 && InClass(cls, s[0]) && MatchesStar(cls, s[1..])
  }

  /** The star of a class accepts exactly the strings all of whose characters are in it. */
  lemma {:induction false} MatchesStarIffAll(cls: CharClass, s: string)
    ensures MatchesStar(cls, s) <==> forall i :: 0 <= i < |s| ==> InClass(cls, s[i])
    decreases |s|
  {
    if |s| > 0 {
      MatchesStarIffAll(cls, s[1..]);
      assert forall i :: 1 <= i < |s| ==> s[i] == s[1..][i - 1];
    }
  }

  /** The plus of a class accepts exactly the non-empty strings all of whose characters are in it. */
  lemma MatchesPlusIffAll(cls: CharClass, s: string)
    ensures MatchesPlus(cls, s) <==> |s| > 0 && forall i :: 0 <= i < |s| ==> InClass(cls, s[i])
  {
    MatchesStarIffAll(cls, s);
  }
}
