/** The few java.lang / commons-lang string operations the connectors rely on. */
module JavaStrings {
  import opened Wrappers

  /** Character.isWhitespace of Java 7 and 8 (Unicode 6.0 to 6.2) for the code points of
      the Basic Multilingual Plane: the space, line and paragraph separators except the
      three non-breaking spaces (U+00A0, U+2007, U+202F), plus the ASCII controls 9-13
      and 28-31. U+180E is still a space separator in those Unicode versions. */
  predicate IsWhitespace(c: char) {
    var n := c as int;
    (9 <= n <= 13) || (28 <= n <= 32) || n == 0x1680 || n == 0x180E ||
    (0x2000 <= n <= 0x200A && n != 0x2007) ||
    n == 0x2028 || n == 0x2029 || n == 0x205F || n == 0x3000
  }

  /** StringUtils.isBlank: null, empty, or whitespace only. */
  predicate IsBlank(s: Option<string>) {
    s.None? || forall i :: 0 <= i < |s.value| ==> IsWhitespace(s.value[i])
  }

  /** How Java's string concatenation renders a possibly-null string. */
  function Render(s: Option<string>): string {
    if s.None? then "null" else s.value
  }

  /** s starts with p. */
  predicate HasPrefix(s: string, p: string) {
    |p| <= |s| && s[..|p|] == p
  }

  /** A common suffix cancels: a + t == b + t only if a == b. */
  lemma {:induction false} SuffixCancels(a: string, b: string, t: string)
    requires a + t == b + t
    ensures a == b
  {
    assert |a| == |b|;
    calc {
      a;
      (a + t)[..|a|];
      (b + t)[..|b|];
      b;
    }
  }

  /** A common prefix cancels: p + a == p + b only if a == b. */
  lemma {:induction false} PrefixCancels(p: string, a: string, b: string)
    requires p + a == p + b
    ensures a == b
  {
    calc {
      a;
      (p + a)[|p|..];
      (p + b)[|p|..];
      b;
    }
  }
}
