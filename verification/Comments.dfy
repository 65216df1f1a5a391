/** Chart comments: `<!--\s*chart:\s*(D-[A-Z]+)\s*-->` written out as a matcher. */
module Comments {
  import opened Basics

  /** A code as the comment pattern accepts it, short enough to fit into the look back. */
  predicate IsCode(code: string) {
    3 <= |code| <= 10 && code[0] == 'D' && code[1] == '-' && forall k | 2 <= k < |code| :: 'A' <= code[k] <= 'Z'
  }

  function UpperRun(s: string): (n: nat)
    ensures n <= |s|
  {
    if s != "" && 'A' <= s[0] <= 'Z' then 1 + UpperRun(s[1..]) else 0
  }

  /** `s` starts with `<!--\s*chart:`. */
  predicate StartsComment(s: string) { "<!--" <= s && "chart:" <= LStrip(s[4..]) }

  datatype Comment = Comment(code: string, rest: string)

  /** The comment at the start of `s`, and the text behind it. */
  function ParseComment(s: string): (r: Option<Comment>)
    ensures r.Some? ==> |r.value.rest| < |s|
  {
    if StartsComment(s) then ParseCode(LStrip(LStrip(s[4..])[6..])) else None
  }

  /** `(D-[A-Z]+)\s*-->`. */
  function ParseCode(s: string): (r: Option<Comment>)
    ensures r.Some? ==> |r.value.rest| <= |s|
  {
    if !("D-" <= s) || UpperRun(s[2..]) == 0 then None
    else
      var n := 2 + UpperRun(s[2..]);
      var end := LStrip(s[n..]);
      if "-->" <= end then Some(Comment(s[..n], end[3..])) else None
  }

  /** `s` as a whole is a chart comment followed by white space. */
  predicate IsAnnotation(s: string) {
    ParseComment(s).Some? && LStrip(ParseComment(s).value.rest) == ""
  }

  const LOOKBACK := 200

  /** The last `n` characters of `s` are an annotation. */
  predicate EndsAnnotated(s: string, n: nat)
    requires n <= |s|
  {
    IsAnnotation(s[|s| - n..])
  }

  /** Within the last 200 characters of `before`, an annotation reaches up to its end. */
  predicate HasAnnotation(before: string) {
    exists n | 0 <= n <= LOOKBACK && n <= |before| :: EndsAnnotated(before, n)
  }

  function CommentText(code: string): string { "<!-- chart: " + (code + " -->") }

  lemma {:induction false} UpperIsAll(s: string, t: string)
    requires forall k | 0 <= k < |s| :: 'A' <= s[k] <= 'Z'
    requires t == "" || !('A' <= t[0] <= 'Z')
    ensures UpperRun(s + t) == |s|
  {
    if s == "" {
      assert s + t == t;
    } else {
      assert (s + t)[1..] == s[1..] + t;
      UpperIsAll(s[1..], t);
    }
  }

  lemma Regrouped(a: string, b: string, c: string, code: string, d: string, e: string, t: string)
    ensures a + b + c + b + (code + (d + e)) + t == a + (b + (c + (b + (code + (d + (e + t))))))
  {
  }

  /** The comment that is inserted is read back with its code. */
  lemma TextIsParsed(code: string, t: string)
    requires IsCode(code)
    ensures ParseComment(CommentText(code) + t) == Some(Comment(code, t))
  {
    assert "<!-- chart: " == "<!--" + " " + "chart:" + " " && " -->" == " " + "-->";
    Regrouped("<!--", " ", "chart:", code, " ", "-->", t);
    assert Written(" ", " ", code, " ", t) == CommentText(code) + t;
    hide ParseComment, Written, CommentText;
    WrittenIsParsed(" ", " ", code, " ", t);
  }

  lemma AnnotationAtEnd(before: string, code: string)
    requires IsCode(code)
    ensures HasAnnotation(before + CommentText(code))
  {
    var c := CommentText(code);
    TextIsParsed(code, "");
    assert c + "" == c;
    assert (before + c)[|before + c| - |c|..] == c;
    assert EndsAnnotated(before + c, |c|);
  }

  lemma {:induction false} TickSurvives(s: string)
    requires '`' in s
    ensures '`' in LStrip(s)
  {
    if IsSpace(s[0]) {
      assert s == [s[0]] + s[1..];
      TickSurvives(s[1..]);
    }
  }

  /** Cutting off text without a backtick keeps a backtick. */
  lemma TickBehind(s: string, n: nat)
    requires '`' in s && n <= |s| && '`' !in s[..n]
    ensures '`' in s[n..]
  {
    assert s == s[..n] + s[n..];
  }

  lemma {:induction false} UpperHasNoTick(s: string)
    ensures '`' !in s[..UpperRun(s)]
  {
    if UpperRun(s) > 0 {
      UpperHasNoTick(s[1..]);
      assert s[..UpperRun(s)] == [s[0]] + s[1..][..UpperRun(s[1..])];
    }
  }

  lemma CodeHasNoTick(s: string)
    requires ParseCode(s).Some? && '`' in s
    ensures '`' in ParseCode(s).value.rest
  {
    var n := 2 + UpperRun(s[2..]);
    UpperHasNoTick(s[2..]);
    assert s[..n] == s[..2] + s[2..][..n - 2];
    TickBehind(s, n);
    TickSurvives(s[n..]);
    TickBehind(LStrip(s[n..]), 3);
  }

  /** No annotation contains a backtick. */
  lemma AnnotationHasNoTick(s: string)
    requires IsAnnotation(s)
    ensures '`' !in s
  {
    if '`' in s {
      TickBehind(s, 4);
      TickSurvives(s[4..]);
      TickBehind(LStrip(s[4..]), 6);
      TickSurvives(LStrip(s[4..])[6..]);
      CodeHasNoTick(LStrip(LStrip(s[4..])[6..]));
      TickSurvives(ParseComment(s).value.rest);
    }
  }

  lemma SuffixShowsEnd(u: string, g: string, n: nat)
    requires n <= |u + g|
    ensures n > |g| ==> u[|u| - 1] in (u + g)[|u + g| - n..]
  {
    if n > |g| {
      assert (u + g)[|u + g| - n..][n - |g| - 1] == u[|u| - 1];
    }
  }

  lemma EndIsBehindTick(u: string, g: string, n: nat)
    requires u == "" || u[|u| - 1] == '`'
    requires n <= |u + g| && EndsAnnotated(u + g, n)
    ensures n <= |g|
  {
    hide IsAnnotation;
    AnnotationHasNoTick((u + g)[|u + g| - n..]);
    SuffixShowsEnd(u, g, n);
  }

  lemma SameEnd(u: string, v: string, g: string, n: nat)
    requires n <= |g| && EndsAnnotated(u + g, n)
    ensures EndsAnnotated(v + g, n)
  {
    hide IsAnnotation;
    assert (u + g)[|u + g| - n..] == g[|g| - n..] == (v + g)[|v + g| - n..];
  }

  /** The look back does not reach over a backtick: only the text behind one matters. */
  lemma AnnotationIsLocal(u: string, v: string, g: string)
    requires u == "" || u[|u| - 1] == '`'
    requires HasAnnotation(u + g)
    ensures HasAnnotation(v + g)
  {
    hide EndsAnnotated;
    var n :| 0 <= n <= LOOKBACK && n <= |u + g| && EndsAnnotated(u + g, n);
    EndIsBehindTick(u, g, n);
    SameEnd(u, v, g, n);
  }

  // ----- where a comment can start -----

  /** The first character behind the leading white space. */
  lemma {:induction false} StripOver(s: string, t: string)
    ensures LStrip(s + t) == if LStrip(s) == "" then LStrip(t) else LStrip(s) + t
  {
    if s == "" {
      assert s + t == t;
    } else {
      assert (s + t)[1..] == s[1..] + t;
      if IsSpace(s[0]) {
        StripOver(s[1..], t);
      }
    }
  }

  lemma PrefixBefore(p: string, s: string, t: string)
    requires p <= s + t && t != ""
    ensures if |p| <= |s| then p <= s else t[0] in p
  {
    if |s| < |p| {
      assert p[|s|] == (s + t)[|s|];
    }
  }

  /** A comment does not start before, and end behind, a line break or backtick that has
      only white space between it and a backtick. */
  lemma CommentIsLocal(s: string, t: string)
    requires t != "" && (t[0] == '\n' || t[0] == '`')
    requires LStrip(t) != "" && LStrip(t)[0] == '`'
    requires StartsComment(s + t)
    ensures StartsComment(s)
  {
    PrefixBefore("<!--", s, t);
    assert (s + t)[4..] == s[4..] + t;
    StripOver(s[4..], t);
    if LStrip(s[4..]) != "" {
      PrefixBefore("chart:", LStrip(s[4..]), t);
    }
  }

  lemma CommentStays(s: string, t: string)
    requires StartsComment(s)
    ensures StartsComment(s + t)
  {
    assert (s + t)[4..] == s[4..] + t;
    StripOver(s[4..], t);
  }

  // ----- the look back without the matcher -----

  /** `D-` and one or more capital letters. */
  predicate IsLabel(code: string) {
    |code| >= 3 && code[0] == 'D' && code[1] == '-' && forall k | 2 <= k < |code| :: 'A' <= code[k] <= 'Z'
  }

  /** A chart comment, written out with the white space `a`, `b`, `c` in it and `d` behind it. */
  function Written(a: string, b: string, code: string, c: string, d: string): string {
    "<!--" + (a + ("chart:" + (b + (code + (c + ("-->" + d))))))
  }

  /** The text ends in a chart comment and white space, which are at most 200 characters together. */
  predicate EndsInComment(s: string, p: string, a: string, b: string, code: string, c: string, d: string) {
    && s == p + Written(a, b, code, c, d) && |Written(a, b, code, c, d)| <= 200
    && Spaces(a) && Spaces(b) && Spaces(c) && Spaces(d) && IsLabel(code)
  }

  lemma {:induction false} UpperRunIsUpper(s: string)
    ensures forall k | 0 <= k < UpperRun(s) :: 'A' <= s[k] <= 'Z'
  {
    if s != "" && 'A' <= s[0] <= 'Z' {
      UpperRunIsUpper(s[1..]);
      assert forall k | 1 <= k < UpperRun(s) :: s[k] == s[1..][k - 1];
    }
  }

  lemma {:induction false} AllSpaces(s: string)
    ensures LStrip(s) == "" <==> Spaces(s)
  {
    if s != "" {
      AllSpaces(s[1..]);
      assert IsSpace(s[0]) && Spaces(s[1..]) ==> Spaces(s) by {
        assert forall k | 1 <= k < |s| :: s[k] == s[1..][k - 1];
      }
    }
  }

  /** The code and the arrow behind it, taken apart. */
  lemma CodeParts(s: string) returns (code: string, c: string)
    requires ParseCode(s).Some?
    ensures IsLabel(code) && Spaces(c) && s == code + (c + ("-->" + ParseCode(s).value.rest))
    ensures code == ParseCode(s).value.code
  {
    var n := 2 + UpperRun(s[2..]);
    code := s[..n];
    UpperRunIsUpper(s[2..]);
    assert forall k | 2 <= k < n :: code[k] == s[2..][k - 2];
    var end := LStrip(s[n..]);
    c := LStripParts(s[n..]);
    hide LStrip, UpperRun, Spaces;
    assert end == "-->" + end[3..];
    assert s == code + s[n..];
  }

  /** A comment that is parsed is one, written out. */
  lemma ParsedParts(s: string) returns (a: string, b: string, code: string, c: string)
    requires ParseComment(s).Some?
    ensures s == Written(a, b, code, c, ParseComment(s).value.rest) && code == ParseComment(s).value.code
    ensures Spaces(a) && Spaces(b) && Spaces(c) && IsLabel(code)
  {
    var y := s[4..];
    a := LStripParts(y);
    var z := LStrip(y)[6..];
    b := LStripParts(z);
    code, c := CodeParts(LStrip(z));
    assert s == "<!--" + y;
    assert LStrip(y) == "chart:" + z;
  }

  lemma AnnotationParts(s: string) returns (a: string, b: string, code: string, c: string, d: string)
    requires IsAnnotation(s)
    ensures s == Written(a, b, code, c, d)
    ensures Spaces(a) && Spaces(b) && Spaces(c) && Spaces(d) && IsLabel(code)
  {
    hide ParseComment, Written, IsLabel;
    a, b, code, c := ParsedParts(s);
    d := ParseComment(s).value.rest;
    AllSpaces(d);
  }

  lemma LabelIsParsed(code: string, c: string, d: string)
    requires IsLabel(code) && Spaces(c)
    ensures ParseCode(code + (c + ("-->" + d))) == Some(Comment(code, d))
  {
    var end := c + ("-->" + d);
    var s := code + end;
    assert end[0] == if c == "" then '-' else c[0];
    assert s[2..] == code[2..] + end;
    UpperIsAll(code[2..], end);
    assert s[..|code|] == code && s[|code|..] == end;
    SpaceOver(c, "-->" + d);
    assert LStrip("-->" + d) == "-->" + d && ("-->" + d)[3..] == d;
    assert "D-" <= s;
  }

  /** ... and every comment that is written out is parsed, whatever `d` is behind it. */
  lemma WrittenIsParsed(a: string, b: string, code: string, c: string, d: string)
    requires Spaces(a) && Spaces(b) && Spaces(c) && IsLabel(code)
    ensures ParseComment(Written(a, b, code, c, d)) == Some(Comment(code, d))
  {
    var s := Written(a, b, code, c, d);
    var x := code + (c + ("-->" + d));
    var y := "chart:" + (b + x);
    assert s[4..] == a + y;
    SpaceOver(a, y);
    assert LStrip(y) == y && y[6..] == b + x;
    SpaceOver(b, x);
    assert LStrip(x) == x;
    LabelIsParsed(code, c, d);
  }

  lemma WrittenIsAnnotation(a: string, b: string, code: string, c: string, d: string)
    requires Spaces(a) && Spaces(b) && Spaces(c) && Spaces(d) && IsLabel(code)
    ensures IsAnnotation(Written(a, b, code, c, d))
  {
    hide ParseComment, Written, IsLabel;
    WrittenIsParsed(a, b, code, c, d);
    AllSpaces(d);
  }

  lemma ShownComment(before: string) returns (p: string, a: string, b: string, code: string, c: string, d: string)
    requires HasAnnotation(before)
    ensures EndsInComment(before, p, a, b, code, c, d)
  {
    hide IsAnnotation, IsLabel, Written;
    var n :| 0 <= n <= LOOKBACK && n <= |before| && EndsAnnotated(before, n);
    p := before[..|before| - n];
    a, b, code, c, d := AnnotationParts(before[|before| - n..]);
  }

  /** What the look back finds: exactly a chart comment at the end of the text, white space behind it
      included, within 200 characters. */
  lemma HasAnnotationIff(before: string)
    ensures HasAnnotation(before) <==> exists p, a, b, code, c, d :: EndsInComment(before, p, a, b, code, c, d)
  {
    hide *;
    if HasAnnotation(before) {
      var p, a, b, code, c, d := ShownComment(before);
    }
    if p, a, b, code, c, d :| EndsInComment(before, p, a, b, code, c, d) {
      CommentShows(before, p, a, b, code, c, d);
    }
  }

  lemma CommentShows(before: string, p: string, a: string, b: string, code: string, c: string, d: string)
    requires EndsInComment(before, p, a, b, code, c, d)
    ensures HasAnnotation(before)
  {
    var x := Written(a, b, code, c, d);
    WrittenIsAnnotation(a, b, code, c, d);
    assert before[|before| - |x|..] == x;
    assert EndsAnnotated(before, |x|);
  }
}
