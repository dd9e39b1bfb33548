/**
 * String helpers with the semantics of Unreal's FString.
 *
 * FString's `==`, `StartsWith`, `Contains` and `ReplaceInline` all default to
 * ESearchCase::IgnoreCase, so every comparison the plugin writes with them
 * ignores letter case. Case folding is modelled for ASCII letters only.
 */
module Text {

  /** ASCII lower-casing of one character. */
  function LowerAscii(c: char): (d: char)
    ensures 'A' <= c <= 'Z' ==> d as int == c as int + 32
    ensures !('A' <= c <= 'Z') ==> d == c
  {
    if 'A' <= c <= 'Z' then (c as int + 32) as char else c
  }

  /** FString equality: same length, equal after case folding. */
  predicate EqualsIgnoreCase(a: string, b: string) {
    |a| == |b| && forall i :: 0 <= i < |a| ==> LowerAscii(a[i]) == LowerAscii(b[i])
  }

  lemma EqualsIgnoreCaseIsEquivalence(a: string, b: string, c: string)
    ensures EqualsIgnoreCase(a, a)
    ensures EqualsIgnoreCase(a, b) ==> EqualsIgnoreCase(b, a)
    ensures EqualsIgnoreCase(a, b) && EqualsIgnoreCase(b, c) ==> EqualsIgnoreCase(a, c)
  {
  }

  /** FString::StartsWith with the default (case-insensitive) search. */
  predicate StartsWithIgnoreCase(s: string, prefix: string) {
    |prefix| <= |s| && EqualsIgnoreCase(s[..|prefix|], prefix)
  }

  /** FString::Contains with the default (case-insensitive) search. */
  predicate ContainsIgnoreCase(s: string, pattern: string)
    decreases |s|
  {
    StartsWithIgnoreCase(s, pattern) || (|s| > 0 && ContainsIgnoreCase(s[1..], pattern))
  }

  /**
   * FString::ReplaceInline with the default (case-insensitive) search: every
   * non-overlapping occurrence of `pattern`, scanned from the left, is replaced.
   */
  function ReplaceAllIgnoreCase(s: string, pattern: string, replacement: string): string
    requires pattern != []
    decreases |s|
  {
    if |s| < |pattern| then s
    else if EqualsIgnoreCase(s[..|pattern|], pattern) then
      replacement + ReplaceAllIgnoreCase(s[|pattern|..], pattern, replacement)
    else [s[0]] + ReplaceAllIgnoreCase(s[1..], pattern, replacement)
  }

  /** A string none of whose characters folds to the first character of `pattern` contains no occurrence of it. */
  lemma {:induction false} NoFirstCharNoMatch(s: string, pattern: string)
    requires pattern != []
    requires forall i :: 0 <= i < |s| ==> LowerAscii(s[i]) != LowerAscii(pattern[0])
    ensures !ContainsIgnoreCase(s, pattern)
    decreases |s|
  {
    if |s| > 0 {
      if |pattern| <= |s| {
        assert s[..|pattern|][0] == s[0];
      }
      NoFirstCharNoMatch(s[1..], pattern);
    }
  }

  /** Text without any occurrence of the pattern is left alone by the replacement. */
  lemma {:induction false} ReplaceAbsent(s: string, pattern: string, replacement: string)
    requires pattern != []
    requires !ContainsIgnoreCase(s, pattern)
    ensures ReplaceAllIgnoreCase(s, pattern, replacement) == s
    decreases |s|
  {
    if |s| >= |pattern| {
      ReplaceAbsent(s[1..], pattern, replacement);
      assert [s[0]] + s[1..] == s;
    }
  }

  /** A prefix none of whose characters folds to the first character of `pattern` hides no occurrence of it. */
  lemma {:induction false} SkipNonStarters(a: string, b: string, pattern: string)
    requires pattern != []
    requires forall i :: 0 <= i < |a| ==> LowerAscii(a[i]) != LowerAscii(pattern[0])
    ensures ContainsIgnoreCase(a + b, pattern) <==> ContainsIgnoreCase(b, pattern)
    decreases |a|
  {
    if |a| == 0 {
      assert a + b == b;
    } else {
      var s := a + b;
      assert s[1..] == a[1..] + b;
      if |pattern| <= |s| {
        assert s[..|pattern|][0] == a[0];
      }
      SkipNonStarters(a[1..], b, pattern);
    }
  }

  /**
   * No character of `pattern` after its first starts a match of the first two
   * characters of `b` (running to the pattern's end or continuing into it).
   */
  predicate NoStraddle(b: string, pattern: string)
    requires |b| >= 2
  {
    forall k {:trigger pattern[k]} :: 0 < k < |pattern| ==>
      LowerAscii(pattern[k]) != LowerAscii(b[0]) || (k + 1 < |pattern| && LowerAscii(pattern[k + 1]) != LowerAscii(b[1]))
  }

  /**
   * Where no occurrence of `pattern` can straddle the joint of `a + b`, the
   * concatenation contains it exactly when one of the parts does.
   */
  lemma {:induction false} ContainsAcross(a: string, b: string, pattern: string)
    requires pattern != [] && |b| >= 2 && NoStraddle(b, pattern)
    ensures ContainsIgnoreCase(a + b, pattern) <==> ContainsIgnoreCase(a, pattern) || ContainsIgnoreCase(b, pattern)
    decreases |a|
  {
    var s := a + b;
    if |a| == 0 {
      assert s == b;
    } else {
      assert s[1..] == a[1..] + b;
      ContainsAcross(a[1..], b, pattern);
      if |pattern| <= |a| {
        assert s[..|pattern|] == a[..|pattern|];
      } else if |pattern| <= |s| {
        var k := |a|;
        var head := s[..|pattern|];
        assert head[k] == b[0];
        if k + 1 < |pattern| {
          assert head[k + 1] == b[1];
          assert LowerAscii(head[k]) != LowerAscii(pattern[k]) || LowerAscii(head[k + 1]) != LowerAscii(pattern[k + 1]);
        } else {
          assert LowerAscii(head[k]) != LowerAscii(pattern[k]);
        }
        assert !StartsWithIgnoreCase(s, pattern);
      }
    }
  }

  /** A string in which the first two characters of `pattern` never appear side by side does not contain it. */
  lemma {:induction false} NoOpeningPair(s: string, pattern: string)
    requires |pattern| >= 2
    requires forall i :: 0 <= i < |s| - 1 ==>
               LowerAscii(s[i]) != LowerAscii(pattern[0]) || LowerAscii(s[i + 1]) != LowerAscii(pattern[1])
    ensures !ContainsIgnoreCase(s, pattern)
    decreases |s|
  {
    if |s| > 0 {
      if |pattern| <= |s| {
        assert s[..|pattern|][0] == s[0] && s[..|pattern|][1] == s[1];
      }
      NoOpeningPair(s[1..], pattern);
    }
  }
}
