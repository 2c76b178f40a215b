/** The string built-ins the `run` command applies to what the user types:
    `str.strip()`, `str.lower()` and the yes/no test `answer.strip().lower() in
    ["y", "yes"]`. */
module PyText {

  /** Python's `str.isspace()` for one character: the ASCII whitespace and
      separator controls, NEL, NO-BREAK SPACE and the Unicode space characters. */
  predicate IsSpace(c: char) {
    c == ' ' || ('\t' <= c <= '\r') || ('\U{1c}' <= c <= '\U{1f}')
    || c == '\U{85}' || c == '\U{a0}' || c == '\U{1680}'
    || ('\U{2000}' <= c <= '\U{200a}') || c == '\U{2028}' || c == '\U{2029}'
    || c == '\U{202f}' || c == '\U{205f}' || c == '\U{3000}'
  }

  predicate AllSpace(s: string) {
    forall i :: 0 <= i < |s| ==> IsSpace(s[i])
  }

  /** Neither end of `s` is whitespace. */
  predicate Trimmed(s: string) {
    s == [] || (!IsSpace(s[0]) && !IsSpace(s[|s| - 1]))
  }

  /** `s.lstrip()`. */
  function LStrip(s: string): string {
    if s != [] && IsSpace(s[0]) then LStrip(s[1..]) else s
  }

  /** `s.rstrip()`. */
  function RStrip(s: string): string {
    if s != [] && IsSpace(s[|s| - 1]) then RStrip(s[..|s| - 1]) else s
  }

  /** `s.strip()`. */
  function Strip(s: string): string {
    RStrip(LStrip(s))
  }

  /** `lstrip` leaves the suffix that follows the longest whitespace prefix. */
  lemma {:induction false} LStripSpec(s: string)
    ensures |LStrip(s)| <= |s| && LStrip(s) == s[|s| - |LStrip(s)|..]
    ensures AllSpace(s[..|s| - |LStrip(s)|])
    ensures LStrip(s) == [] || !IsSpace(LStrip(s)[0])
  {
    if s != [] && IsSpace(s[0]) {
      LStripSpec(s[1..]);
      var r := LStrip(s[1..]);
      assert s[..|s| - |r|] == [s[0]] + s[1..][..|s| - 1 - |r|];
    }
  }

  /** `rstrip` leaves the prefix that precedes the longest whitespace suffix. */
  lemma {:induction false} RStripSpec(s: string)
    ensures |RStrip(s)| <= |s| && RStrip(s) == s[..|RStrip(s)|]
    ensures AllSpace(s[|RStrip(s)|..])
    ensures RStrip(s) == [] || !IsSpace(RStrip(s)[|RStrip(s)| - 1])
  {
    if s != [] && IsSpace(s[|s| - 1]) {
      var t := s[..|s| - 1];
      RStripSpec(t);
      var r := RStrip(t);
      assert s[|r|..] == t[|r|..] + [s[|s| - 1]];
    }
  }

  /** `strip` leaves no whitespace at either end. */
  lemma StripTrimmed(s: string)
    ensures |Strip(s)| <= |s| && Trimmed(Strip(s))
  {
    LStripSpec(s);
    RStripSpec(LStrip(s));
  }

  lemma SplitThree(s: string, l: string, r: string)
    requires |l| <= |s| && l == s[|s| - |l|..] && |r| <= |l| && r == l[..|r|]
    ensures s == s[..|s| - |l|] + r + l[|r|..]
  {
    assert l == l[..|r|] + l[|r|..];
    assert s == s[..|s| - |l|] + s[|s| - |l|..];
  }

  /** `Strip(s)` is what is left of `s` once a whitespace prefix `a` and a
      whitespace suffix `b` are cut off. */
  lemma StripParts(s: string) returns (a: string, b: string)
    ensures s == a + Strip(s) + b
    ensures AllSpace(a) && AllSpace(b)
  {
    var l := LStrip(s);
    var r := RStrip(l);
    LStripSpec(s);
    RStripSpec(l);
    a, b := s[..|s| - |l|], l[|r|..];
    SplitThree(s, l, r);
  }

  /** `lstrip` removes a whitespace prefix and stops at the first other character. */
  lemma {:induction false} LStripSpaces(w: string, u: string)
    requires AllSpace(w) && (u == [] || !IsSpace(u[0]))
    ensures LStrip(w + u) == u
  {
    if w != [] {
      assert (w + u)[1..] == w[1..] + u;
      LStripSpaces(w[1..], u);
    }
  }

  /** `rstrip` removes a whitespace suffix and stops at the last other character. */
  lemma {:induction false} RStripSpaces(u: string, w: string)
    requires AllSpace(w) && (u == [] || !IsSpace(u[|u| - 1]))
    ensures RStrip(u + w) == u
  {
    if w != [] {
      assert (u + w)[..|u + w| - 1] == u + w[..|w| - 1];
      RStripSpaces(u, w[..|w| - 1]);
    }
  }

  /** Whitespace padding around an already trimmed string is exactly what
      `strip` removes. */
  lemma StripPadded(w1: string, t: string, w2: string)
    requires AllSpace(w1) && AllSpace(w2) && Trimmed(t)
    ensures Strip(w1 + t + w2) == t
  {
    if t == [] {
      assert w1 + t + w2 == w1 + w2 + [];
      LStripSpaces(w1 + w2, []);
    } else {
      assert w1 + t + w2 == w1 + (t + w2);
      LStripSpaces(w1, t + w2);
      RStripSpaces(t, w2);
    }
  }

  lemma AllSpaceConcat(a: string, b: string)
    requires AllSpace(a) && AllSpace(b)
    ensures AllSpace(a + b)
  {
    forall i | 0 <= i < |a + b| ensures IsSpace((a + b)[i]) {
      if i >= |a| { assert (a + b)[i] == b[i - |a|]; }
    }
  }

  lemma Regroup(w1: string, a: string, c: string, b: string, w2: string)
    ensures w1 + (a + c + b) + w2 == (w1 + a) + c + (b + w2)
  {
  }

  /** Padding with whitespace never changes what `strip` returns. */
  lemma StripIgnoresPadding(w1: string, t: string, w2: string)
    requires AllSpace(w1) && AllSpace(w2)
    ensures Strip(w1 + t + w2) == Strip(t)
  {
    var a, b := StripParts(t);
    StripTrimmed(t);
    AllSpaceConcat(w1, a);
    AllSpaceConcat(b, w2);
    Regroup(w1, a, Strip(t), b, w2);
    StripPadded(w1 + a, Strip(t), b + w2);
  }

  lemma StripIdempotent(s: string)
    ensures Strip(Strip(s)) == Strip(s)
  {
    StripTrimmed(s);
    StripPadded([], Strip(s), []);
    assert [] + Strip(s) + [] == Strip(s);
  }

  /** `c.lower()` for ASCII letters; every other character is left as it is. */
  function LowerChar(c: char): (r: char)
    ensures 'A' <= c <= 'Z' ==> 'a' <= r <= 'z'
    ensures !('A' <= c <= 'Z') ==> r == c
  {
    if 'A' <= c <= 'Z' then (c as int - 'A' as int + 'a' as int) as char else c
  }

  /** `s.lower()`, character by character. */
  function Lower(s: string): string {
    if s == [] then [] else [LowerChar(s[0])] + Lower(s[1..])
  }

  /** `lower` keeps the length and maps every character on its own. */
  lemma {:induction false} LowerSpec(s: string)
    ensures |Lower(s)| == |s|
    ensures forall i :: 0 <= i < |s| ==> Lower(s)[i] == LowerChar(s[i])
  {
    if s != [] {
      LowerSpec(s[1..]);
    }
  }

  /** `answer.strip().lower() in ["y", "yes"]`. */
  predicate IsYes(answer: string) {
    var t := Lower(Strip(answer));
    t == "y" || t == "yes"
  }

  /** Every way of writing "y" or "yes" in upper and lower case letters. */
  const YesSpellings: set<string> :=
    {"y", "Y", "yes", "yeS", "yEs", "yES", "Yes", "YeS", "YEs", "YES"}

  lemma LowerCharTo(c: char, a: char)
    requires 'a' <= a <= 'z'
    ensures LowerChar(c) == a <==> c == a || c as int == a as int - 32
  {
  }

  /** The yes/no test accepts exactly the ten spellings of "y" and "yes" in any
      letter case, once surrounding whitespace is removed. */
  lemma {:induction false} IsYesSpellings(answer: string)
    ensures IsYes(answer) <==> Strip(answer) in YesSpellings
  {
    var t := Strip(answer);
    var l := Lower(t);
    LowerSpec(t);
    if |t| == 1 {
      assert t == [t[0]];
      LowerCharTo(t[0], 'y');
    } else if |t| == 3 {
      assert t == [t[0], t[1], t[2]];
      LowerCharTo(t[0], 'y');
      LowerCharTo(t[1], 'e');
      LowerCharTo(t[2], 's');
    } else {
      assert |l| != 1 && |l| != 3;
    }
  }

  /** Whitespace around an answer never changes the yes/no decision. */
  lemma IsYesIgnoresPadding(w1: string, answer: string, w2: string)
    requires AllSpace(w1) && AllSpace(w2)
    ensures IsYes(w1 + answer + w2) <==> IsYes(answer)
  {
    StripIgnoresPadding(w1, answer, w2);
  }
}
