/** The block extractor of the publisher,
    ``<!--\s*chart:\s*(D-[A-Z]+)\s*-->\s*\n```mermaid\n(.*?)\n``` ``, and its agreement with the
    annotator. */
module Charts {
  import opened Annotation
  import opened Basics
  import opened Comments
  import opened Fences

  datatype Chart = Chart(code: string, source: string)

  /** Index of the first line break of `s` that three backticks follow, or the length of `s`. */
  function FirstTicks(s: string): (c: nat)
    ensures c <= |s|
    ensures c < |s| ==> c + 4 <= |s|
  {
    if s == "" || (s[0] == '\n' && StartsTicks(s[1..])) then 0 else 1 + FirstTicks(s[1..])
  }

  datatype Extract = Extract(chart: Chart, rest: string)

  /** The pattern at the start of `s`. White space before the opening mark must end in a line
      break, for `\s*` gives back only that. */
  function MatchChart(s: string): (r: Option<Extract>)
    ensures r.Some? ==> |r.value.rest| < |s|
  {
    match ParseComment(s)
    case None => None
    case Some(c) =>
      var x := LStrip(c.rest);
      if |x| < |c.rest| && c.rest[|c.rest| - |x| - 1] == '\n' && StartsMark(x) then MatchSource(c.code, x[11..])
      else None
  }

  function MatchSource(code: string, s: string): (r: Option<Extract>)
    ensures r.Some? ==> |r.value.rest| <= |s|
  {
    var k := FirstTicks(s);
    if k == |s| then None else Some(Extract(Chart(code, s[..k] + ['\n']), s[k + 4..]))
  }

  /** `extract_all_annotated_charts`. */
  function AllCharts(s: string): seq<Chart>
    decreases |s|
  {
    if s == "" then []
    else
      match MatchChart(s)
      case None => AllCharts(s[1..])
      case Some(m) => [m.chart] + AllCharts(m.rest)
  }

  predicate Upgradable(c: Chart) { c.code == "D-ARCH" || c.code == "D-SEQ" || c.code == "D-DAG" }

  /** The charts of `cs` that can become whiteboards, in order. */
  function UpgradableOf(cs: seq<Chart>): seq<Chart> {
    if cs == [] then []
    else if Upgradable(cs[0]) then [cs[0]] + UpgradableOf(cs[1..])
    else UpgradableOf(cs[1..])
  }

  method ExtractUpgradableCharts(markdown: string) returns (out: seq<Chart>)
    ensures out == UpgradableOf(AllCharts(markdown))
  {
    hide MatchChart, Upgradable;
    out := [];
    var rest := markdown;
    while rest != ""
      invariant out + UpgradableOf(AllCharts(rest)) == UpgradableOf(AllCharts(markdown))
      decreases |rest|
    {
      var m := MatchChart(rest);
      if m.None? {
        rest := rest[1..];
      } else {
        assert AllCharts(rest)[1..] == AllCharts(m.value.rest);
        if Upgradable(m.value.chart) {
          out := out + [m.value.chart];
        }
        rest := m.value.rest;
      }
    }
  }

  /** The upgradable charts are picked one by one: splitting the list splits the choice ... */
  lemma {:induction false} UpgradableSplits(a: seq<Chart>, b: seq<Chart>)
    ensures UpgradableOf(a + b) == UpgradableOf(a) + UpgradableOf(b)
  {
    if a == [] {
      assert a + b == b;
    } else {
      UpgradableSplits(a[1..], b);
      assert (a + b)[1..] == a[1..] + b;
    }
  }

  /** ... and a chart alone is kept exactly under one of three codes. */
  lemma UpgradableOne(c: Chart)
    ensures c.code == "D-ARCH" || c.code == "D-SEQ" || c.code == "D-DAG" ==> UpgradableOf([c]) == [c]
    ensures c.code != "D-ARCH" && c.code != "D-SEQ" && c.code != "D-DAG" ==> UpgradableOf([c]) == []
  {
    assert [c][1..] == [];
  }

  // ----- what a match of the extractor is -----

  const OPENING := "```mermaid\n"
  const CLOSING := "\n```"

  /** The first line break with three backticks behind it is the one right behind the body. */
  predicate Unclosed(body: string) { forall k | 0 <= k < |body| :: !(CLOSING <= (body + CLOSING)[k..]) }

  /** `s` starts with an annotated chart: a comment, white space that ends in a line break, the opening
      mark in its first column, the body up to the first line break with three backticks behind it. */
  predicate IsChart(s: string, a: string, b: string, code: string, c: string, d: string, body: string, rest: string) {
    && s == Written(a, b, code, c, d + (OPENING + (body + (CLOSING + rest))))
    && Spaces(a) && Spaces(b) && Spaces(c) && Spaces(d) && IsLabel(code)
    && d != "" && d[|d| - 1] == '\n'
    && Unclosed(body)
  }

  lemma {:induction false} TicksBehind(body: string, rest: string)
    requires Unclosed(body)
    ensures FirstTicks(body + (CLOSING + rest)) == |body|
  {
    var s := body + (CLOSING + rest);
    if body == "" {
      assert s[..4] == CLOSING;
    } else {
      var tail := body[1..];
      assert s[1..] == tail + (CLOSING + rest);
      forall k | 0 <= k < |tail| ensures !(CLOSING <= (tail + CLOSING)[k..]) {
        assert (tail + CLOSING)[k..] == (body + CLOSING)[k + 1..];
      }
      TicksBehind(tail, rest);
      assert !(CLOSING <= (body + CLOSING)[0..]);
      assert s[..4] == (body + CLOSING)[..4];
    }
  }

  lemma UnclosedMore(c: char, y: string)
    requires Unclosed(y) && !(CLOSING <= [c] + y + CLOSING)
    ensures Unclosed([c] + y)
  {
    var x := [c] + y;
    forall j | 0 <= j < |x| ensures !(CLOSING <= (x + CLOSING)[j..]) {
      if j > 0 {
        assert (x + CLOSING)[j..] == (y + CLOSING)[j - 1..];
      } else {
        assert (x + CLOSING)[0..] == x + CLOSING;
      }
    }
  }

  lemma NoTicksHere(x: string, z: string)
    requires !(CLOSING <= x + (CLOSING + z))
    ensures !(CLOSING <= x + CLOSING)
  {
    assert x + (CLOSING + z) == x + CLOSING + z;
  }

  lemma {:induction false} TicksAhead(s: string)
    requires FirstTicks(s) < |s|
    ensures var k := FirstTicks(s); k + 4 <= |s| && s == s[..k] + (CLOSING + s[k + 4..]) && Unclosed(s[..k])
  {
    var k := FirstTicks(s);
    if k > 0 {
      TicksAhead(s[1..]);
      hide Unclosed;
      var y, z := s[1..][..k - 1], s[k + 4..];
      assert s[1..][k + 3..] == z;
      assert s[..k] == [s[0]] + y && s == [s[0]] + s[1..];
      assert s == s[..k] + (CLOSING + z);
      NoTicksHere(s[..k], z);
      UnclosedMore(s[0], y);
    } else {
      assert s[..4] == CLOSING;
    }
  }

  lemma OpeningIs(x: string)
    ensures StartsMark(x) <==> OPENING <= x
  {
  }

  /** The extractor finds every chart that stands at the start of a text ... */
  lemma ChartIsMatched(s: string, a: string, b: string, code: string, c: string, d: string, body: string, rest: string)
    requires IsChart(s, a, b, code, c, d, body, rest)
    ensures MatchChart(s) == Some(Extract(Chart(code, body + "\n"), rest))
  {
    hide Written, ParseComment, FirstTicks, IsLabel, StartsMark;
    var y := body + (CLOSING + rest);
    var x := OPENING + y;
    WrittenIsParsed(a, b, code, c, d + x);
    SpaceOver(d, x);
    assert LStrip(x) == x;
    OpeningIs(x);
    assert x[11..] == y;
    TicksBehind(body, rest);
    assert y[..|body|] == body && y[|body| + 4..] == rest;
  }

  /** ... and what it finds is one, cut without loss. */
  lemma MatchIsChart(s: string) returns (a: string, b: string, c: string, d: string, body: string)
    requires MatchChart(s).Some?
    ensures var m := MatchChart(s).value; m.chart.source == body + "\n" && IsChart(s, a, b, m.chart.code, c, d, body, m.rest)
  {
    hide Written, ParseComment, FirstTicks, IsLabel, StartsMark;
    var code;
    a, b, code, c := ParsedParts(s);
    var r := ParseComment(s).value.rest;
    d := LStripParts(r);
    var x := LStrip(r);
    OpeningIs(x);
    assert x == OPENING + x[11..];
    TicksAhead(x[11..]);
    body := x[11..][..FirstTicks(x[11..])];
    assert |d| == |r| - |x|;
  }

  // ----- what the annotator should lead the extractor to -----

  /** The classified fences at column 0, in order, with their code and their body. */
  function ClassifiedBlocks(word: char -> bool, first: bool, s: string): seq<Chart>
    decreases |s|
  {
    if s == "" then []
    else
      match MatchFence(first, s)
      case None => ClassifiedBlocks(word, false, s[1..])
      case Some(f) =>
        MatchIsPrefix(first, s);
        FenceLength(f);
        BlockOf(word, f) + ClassifiedBlocks(word, false, s[|FenceText(f)|..])
  }

  function BlockOf(word: char -> bool, f: Fence): seq<Chart> {
    if f.indent == "" && Classify(word, f.body).Some?
    then [Chart(Classify(word, f.body).value, f.body + ['\n'])]
    else []
  }

  /** The text contains no `<!--\s*chart:`. */
  predicate NoComment(s: string) { forall k | 0 <= k <= |s| :: !StartsComment(s[k..]) }

  lemma NoCommentWithin(a: string, b: string, c: string)
    requires NoComment(a + b + c)
    ensures !StartsComment(b)
  {
    assert (a + b + c)[|a|..] == b + c;
    if StartsComment(b) {
      CommentStays(b, c);
    }
  }

  lemma NoAnnotationIn(before: string, s: string)
    requires NoComment(before + s)
    ensures !HasAnnotation(before)
  {
    forall n | 0 <= n <= LOOKBACK && n <= |before| ensures !EndsAnnotated(before, n) {
      var a := before[|before| - n..];
      assert before[..|before| - n] + a + s == before + s;
      NoCommentWithin(before[..|before| - n], a, s);
    }
  }

  lemma NoChartAt(s: string)
    requires s != "" && !StartsComment(s)
    ensures AllCharts(s) == AllCharts(s[1..])
  {
  }

  lemma {:induction false} SkipCharts(x: string, t: string, n: nat)
    requires n <= |x| && forall k | n <= k < |x| :: !StartsComment(x[k..] + t)
    ensures AllCharts(x[n..] + t) == AllCharts(t)
    decreases |x| - n
  {
    hide *;
    if n == |x| {
      assert x[n..] + t == t;
    } else {
      SkipCharts(x, t, n + 1);
      NoChartAt(x[n..] + t);
      assert (x[n..] + t)[1..] == x[n + 1..] + t;
    }
  }

  // ----- annotating makes no comment out of the text between the fences -----

  lemma NoBreakIsCopied(word: char -> bool, before: string, s: string)
    requires before != "" && s != "" && s[0] != '\n'
    ensures AnnotateFrom(word, before, s) == [s[0]] + AnnotateFrom(word, before + [s[0]], s[1..])
  {
  }

  lemma CutFirst(before: string, s: string, n: nat)
    requires 0 < n <= |s|
    ensures before + [s[0]] + s[1..][..n - 1] == before + s[..n]
    ensures s[1..][n - 1..] == s[n..]
    ensures s[..n] == [s[0]] + s[1..][..n - 1]
  {
  }

  lemma {:induction false} CopyRun(word: char -> bool, before: string, s: string, n: nat)
    requires before != "" && n <= |s| && forall k | 0 <= k < n :: s[k] != '\n'
    ensures AnnotateFrom(word, before, s) == s[..n] + AnnotateFrom(word, before + s[..n], s[n..])
    decreases n
  {
    hide AnnotateFrom;
    if n == 0 {
      assert before + s[..n] == before && s[n..] == s;
    } else {
      NoBreakIsCopied(word, before, s);
      CutFirst(before, s, n);
      CopyRun(word, before + [s[0]], s[1..], n - 1);
    }
  }

  lemma LinePrefix(p: string, s: string, t: string)
    requires Line(s) == Line(t) && p <= t && '\n' !in p
    ensures p <= s
  {
    forall k | 0 <= k < |p| - 1 ensures t[k] != '\n' { assert t[k] == p[k]; }
    LineReaches(t, |p|);
  }

  lemma AnnotatedStripped(code: string, f: Fence, t: string)
    requires ValidFence(f) && IsCode(code)
    ensures var r := LStrip(Annotated(code, f) + t); r != "" && r[0] == '<'
  {
    CommentCharacters(code);
    var p := f.lead + f.indent;
    var x := CommentText(code) + (FenceText(Aligned(f)) + t);
    assert Spaces(p);
    assert x[0] == '<' && LStrip(x) == x;
    assert Annotated(code, f) + t == p + x by {
      hide CommentText, FenceText, LStrip, ValidFence, IsCode, Spaces;
    }
    hide *;
    SpaceOver(p, x);
  }

  lemma FenceTextStripped(f: Fence, t: string)
    requires ValidFence(f)
    ensures var r := LStrip(FenceText(f) + t); r != "" && r[0] == '`'
  {
    var p := f.lead + f.indent;
    var x := f.mark + (f.body + f.closing + t);
    assert FenceText(f) + t == p + x;
    SpaceOver(p, x);
  }

  /** Behind white space, neither a fence nor what replaces it starts with a letter. */
  lemma FenceStripped(word: char -> bool, before: string, s: string, f: Fence)
    requires s != "" && MatchFence(before == "", s) == Some(f) && ValidFence(f) && 0 < |FenceText(f)| <= |s|
    ensures var t := LStrip(AnnotateFrom(word, before, s)); t != "" && (t[0] == '<' || t[0] == '`')
  {
    AnnotateStep(word, before, s, f);
    hide *;
    var rest := AnnotateFrom(word, before + FenceText(f), s[|FenceText(f)|..]);
    if Rewritten(word, before, f) {
      RewrittenHasCode(word, before, f);
      AnnotatedStripped(Classify(word, f.body).value, f, rest);
    } else {
      FenceTextStripped(f, rest);
    }
  }

  lemma {:induction false} ChartWordIsKept(word: char -> bool, before: string, s: string)
    requires before != "" && "chart:" <= LStrip(AnnotateFrom(word, before, s))
    ensures "chart:" <= LStrip(s)
    decreases |s|
  {
    if s != "" {
      match MatchFence(false, s)
      case Some(f) =>
        MatchIsPrefix(false, s);
        FenceLength(f);
        FenceStripped(word, before, s, f);
      case None =>
        if IsSpace(s[0]) {
          ChartWordIsKept(word, before + [s[0]], s[1..]);
        } else {
          LineIsKept(word, before, s);
          LinePrefix("chart:", s, AnnotateFrom(word, before, s));
        }
    }
  }

  lemma DashesAreKept(word: char -> bool, before: string, s: string)
    requires before != "" && "!--" <= AnnotateFrom(word, before, s)
    ensures "!--" <= s
    ensures AnnotateFrom(word, before, s)[3..] == AnnotateFrom(word, before + s[..3], s[3..])
  {
    hide AnnotateFrom;
    LineIsKept(word, before, s);
    LinePrefix("!--", s, AnnotateFrom(word, before, s));
    CopyRun(word, before, s, 3);
  }

  /** A comment that starts at a copied character of the result starts there in the source. */
  lemma CopiedComment(word: char -> bool, before: string, s: string)
    requires s != "" && StartsComment([s[0]] + AnnotateFrom(word, before + [s[0]], s[1..]))
    ensures StartsComment(s)
  {
    hide AnnotateFrom;
    var b := before + [s[0]];
    var r := AnnotateFrom(word, b, s[1..]);
    var t := [s[0]] + r;
    assert t[1..] == r && t[4..] == r[3..];
    DashesAreKept(word, b, s[1..]);
    assert s[1..][3..] == s[4..];
    ChartWordIsKept(word, b + s[1..][..3], s[4..]);
  }

  // ----- reading the result back -----

  lemma {:induction false} FirstTicksAt(body: string, t: string)
    requires Closed(body) && t != "" && t[0] == '\n' && StartsTicks(t[1..])
    ensures FirstTicks(body + t) == |body|
  {
    if body == "" {
      assert body + t == t;
    } else {
      assert (body + t)[1..] == body[1..] + t;
      assert body[0..] == body;
      ClosesIsLocal(body, t);
      if StartsTicks((body + t)[1..]) {
        assert BlankRun((body + t)[1..]) == 0;
      }
      forall k | 0 <= k < |body| - 1 ensures !Closes(body[1..][k..]) {
        assert body[1..][k..] == body[k + 1..];
      }
      FirstTicksAt(body[1..], t);
    }
  }

  lemma SourceIsRead(code: string, body: string, t: string)
    requires Closed(body)
    ensures MatchSource(code, body + (ClosingLine("") + t)) == Some(Extract(Chart(code, body + ['\n']), t))
  {
    var w := ClosingLine("") + t;
    assert w == ['\n', '`', '`', '`'] + t;
    FirstTicksAt(body, w);
    assert (body + w)[..|body|] == body && (body + w)[|body| + 4..] == t;
  }

  /** Behind the comment of a new block: white space up to the opening mark. */
  lemma GapOf(f: Fence, t: string)
    requires ValidFence(f)
    ensures LStrip(FenceText(Aligned(f)) + t) == f.mark + (f.body + (ClosingLine(f.indent) + t))
  {
    var p := ['\n'] + f.indent;
    var x := f.mark + (f.body + (ClosingLine(f.indent) + t));
    assert FenceText(Aligned(f)) + t == p + x;
    SpaceOver(p, x);
  }

  lemma GapEnd(f: Fence, t: string)
    requires ValidFence(f)
    ensures var s := FenceText(Aligned(f)) + t;
      var n := 1 + |f.indent|;
      |s| > n && |s| - n == |f.mark + (f.body + (ClosingLine(f.indent) + t))|
      && (s[n - 1] == '\n' <==> f.indent == "")
  {
    var s := FenceText(Aligned(f)) + t;
    assert s == ['\n'] + (f.indent + (f.mark + (f.body + (ClosingLine(f.indent) + t))));
  }

  /** The extractor takes a new block exactly if it is at column 0. */
  lemma BlockIsRead(code: string, f: Fence, t: string)
    requires ValidFence(f) && IsCode(code)
    ensures var s := CommentText(code) + (FenceText(Aligned(f)) + t);
      MatchChart(s) == if f.indent == "" then Some(Extract(Chart(code, f.body + ['\n']), t)) else None
  {
    TextIsParsed(code, FenceText(Aligned(f)) + t);
    GapOf(f, t);
    GapEnd(f, t);
    hide CommentText, FenceText, ParseComment;
    if f.indent == "" {
      var rest := f.body + (ClosingLine("") + t);
      assert (f.mark + rest)[11..] == rest;
      SourceIsRead(code, f.body, t);
    }
  }

  /** A comment cannot run over a backtick, so it shows in the text before it. */
  lemma BeforeTick(s: string, t: string)
    requires StartsComment(s + (['`'] + t))
    ensures StartsComment(s)
  {
    CommentIsLocal(s, ['`'] + t);
  }

  /** No comment starts within a fence that is left as it is. */
  lemma KeptFenceHasNone(before: string, x: string, rest: string, t: string, k: nat)
    requires x != "" && x[|x| - 1] == '`' && k < |x| && NoComment(before + (x + rest))
    ensures !StartsComment(x[k..] + t)
  {
    var b := x[k..|x| - 1];
    assert x[k..] + t == b + (['`'] + t);
    assert before + (x + rest) == before + x[..k] + b + (x[|x| - 1..] + rest);
    NoCommentWithin(before + x[..k], b, x[|x| - 1..] + rest);
    if StartsComment(b + (['`'] + t)) {
      BeforeTick(b, t);
    }
  }

  lemma FromBody(f: Fence, t: string, j: nat)
    requires IsMark(f.mark) && j < |f.body|
    ensures FenceText(Aligned(f))[12 + |f.indent| + j..] + t
      == f.body[j..] + ((['\n'] + f.indent) + (['`'] + (['`', '`'] + t)))
  {
    var hd := ['\n'] + f.indent + f.mark;
    assert FenceText(Aligned(f)) == hd + (f.body + ClosingLine(f.indent));
    assert FenceText(Aligned(f))[|hd| + j..] == f.body[j..] + ClosingLine(f.indent);
    assert ClosingLine(f.indent) + t == (['\n'] + f.indent) + (['`'] + (['`', '`'] + t));
  }

  lemma StartsOtherwise(s: string, t: string)
    requires s != "" && s[0] != '<'
    ensures !StartsComment(s + t)
  {
    var l := "<!--";
    assert l[0] == '<' && (s + t)[0] == s[0];
  }

  /** Nor within the lines of an annotated one, apart from its own comment. */
  lemma AlignedHasNone(before: string, f: Fence, rest: string, t: string, k: nat)
    requires ValidFence(f) && NoComment(before + (FenceText(f) + rest)) && k < |FenceText(Aligned(f))|
    ensures !StartsComment(FenceText(Aligned(f))[k..] + t)
  {
    var j := k - 12 - |f.indent|;
    if 0 <= j < |f.body| {
      FromBody(f, t, j);
      BodyHasNone(before, f, rest, ['\n'] + f.indent, ['`', '`'] + t, j);
    } else {
      NotAngle(f, k);
      StartsOtherwise(FenceText(Aligned(f))[k..], t);
    }
  }

  lemma NotAngle(f: Fence, k: nat)
    requires ValidFence(f) && k < |FenceText(Aligned(f))|
    requires k < 12 + |f.indent| || 12 + |f.indent| + |f.body| <= k
    ensures FenceText(Aligned(f))[k] != '<'
  {
    var hd, c := ['\n'] + f.indent + f.mark, ClosingLine(f.indent);
    assert FenceText(Aligned(f)) == hd + (f.body + c);
    if k < |hd| {
      assert FenceText(Aligned(f))[k] == hd[k];
      assert k > |f.indent| ==> hd[k] == f.mark[k - 1 - |f.indent|];
    } else {
      assert FenceText(Aligned(f))[k] == c[k - |hd| - |f.body|];
    }
  }

  lemma BodyHasNone(before: string, f: Fence, rest: string, gap: string, t: string, j: nat)
    requires NoComment(before + (FenceText(f) + rest)) && j < |f.body|
    requires gap != "" && gap[0] == '\n' && forall i | 0 <= i < |gap| :: IsSpace(gap[i])
    ensures !StartsComment(f.body[j..] + (gap + (['`'] + t)))
  {
    var b := f.body[j..];
    var hd := before + (f.lead + (f.indent + (f.mark + f.body[..j])));
    assert before + (FenceText(f) + rest) == hd + b + (f.closing + rest) by { CutBody(before, f, rest, j); }
    NoCommentWithin(hd, b, f.closing + rest);
    var w := gap + (['`'] + t);
    SpaceOver(gap, ['`'] + t);
    if StartsComment(b + w) {
      CommentIsLocal(b, w);
    }
  }

  lemma CutBody(before: string, f: Fence, rest: string, j: nat)
    requires j < |f.body|
    ensures before + (FenceText(f) + rest)
      == before + (f.lead + (f.indent + (f.mark + f.body[..j]))) + f.body[j..] + (f.closing + rest)
  {
    assert f.body == f.body[..j] + f.body[j..];
  }

  lemma SkipOthers(x: string, t: string)
    requires forall k | 0 <= k < |x| :: x[k] != '<'
    ensures AllCharts(x + t) == AllCharts(t)
  {
    hide AllCharts;
    forall k | 0 <= k < |x| ensures !StartsComment(x[k..] + t) {
      StartsOtherwise(x[k..], t);
    }
    SkipCharts(x, t, 0);
    assert x[0..] == x;
  }

  lemma SkipKept(before: string, x: string, rest: string, t: string)
    requires x != "" && x[|x| - 1] == '`' && NoComment(before + (x + rest))
    ensures AllCharts(x + t) == AllCharts(t)
  {
    hide AllCharts, NoComment;
    forall k | 0 <= k < |x| ensures !StartsComment(x[k..] + t) {
      KeptFenceHasNone(before, x, rest, t, k);
    }
    SkipCharts(x, t, 0);
    assert x[0..] == x;
  }

  lemma SkipAligned(before: string, f: Fence, rest: string, t: string)
    requires ValidFence(f) && NoComment(before + (FenceText(f) + rest))
    ensures AllCharts(FenceText(Aligned(f)) + t) == AllCharts(t)
  {
    hide *;
    var x := FenceText(Aligned(f));
    forall k | 0 <= k < |x| ensures !StartsComment(x[k..] + t) {
      AlignedHasNone(before, f, rest, t, k);
    }
    SkipCharts(x, t, 0);
    assert x[0..] == x;
  }

  lemma ChartAt(s: string)
    requires s != ""
    ensures AllCharts(s) == if MatchChart(s).Some? then [MatchChart(s).value.chart] + AllCharts(MatchChart(s).value.rest)
                            else AllCharts(s[1..])
  {
  }

  lemma CommentedBlock(code: string, before: string, f: Fence, rest: string, t: string)
    requires ValidFence(f) && IsCode(code) && NoComment(before + (FenceText(f) + rest))
    ensures AllCharts(CommentText(code) + (FenceText(Aligned(f)) + t))
      == (if f.indent == "" then [Chart(code, f.body + ['\n'])] else []) + AllCharts(t)
  {
    BlockIsRead(code, f, t);
    CommentCharacters(code);
    hide *;
    var c := CommentText(code);
    var x := FenceText(Aligned(f)) + t;
    ChartAt(c + x);
    if f.indent != "" {
      assert (c + x)[1..] == c[1..] + x;
      SkipOthers(c[1..], x);
      SkipAligned(before, f, rest, t);
    }
  }

  lemma LeadIsOther(code: string, f: Fence, t: string)
    requires ValidFence(f)
    ensures AllCharts(Annotated(code, f) + t) == AllCharts(CommentText(code) + (FenceText(Aligned(f)) + t))
  {
    hide AllCharts, CommentText, FenceText;
    var p := f.lead + f.indent;
    var x := CommentText(code) + (FenceText(Aligned(f)) + t);
    assert Annotated(code, f) + t == p + x;
    SkipOthers(p, x);
  }

  /** In a text without chart comments the extractor finds, behind the annotator, exactly the
      classified blocks at column 0: in order, with their codes and their bodies. */
  lemma {:induction false} ExtractorAgrees(word: char -> bool, before: string, s: string)
    requires NoComment(before + s)
    ensures AllCharts(AnnotateFrom(word, before, s)) == ClassifiedBlocks(word, before == "", s)
    decreases |s|
  {
    if s != "" {
      match MatchFence(before == "", s)
      case None => CopyAgrees(word, before, s);
      case Some(f) =>
        MatchIsPrefix(before == "", s);
        FenceLength(f);
        FenceAgrees(word, before, s, f);
    }
  }

  lemma BlocksSkip(word: char -> bool, first: bool, s: string)
    requires s != "" && MatchFence(first, s).None?
    ensures ClassifiedBlocks(word, first, s) == ClassifiedBlocks(word, false, s[1..])
  {
    hide MatchFence;
  }

  lemma CopyStep(word: char -> bool, before: string, s: string)
    requires s != "" && MatchFence(before == "", s).None?
    ensures AnnotateFrom(word, before, s) == [s[0]] + AnnotateFrom(word, before + [s[0]], s[1..])
    ensures ClassifiedBlocks(word, before == "", s) == ClassifiedBlocks(word, false, s[1..])
    ensures before + [s[0]] + s[1..] == before + s
  {
    hide *;
    AnnotateSkip(word, before, s);
    BlocksSkip(word, before == "", s);
    Associate(before, [s[0]], s[1..]);
    assert s == [s[0]] + s[1..];
  }

  lemma NoCommentHere(before: string, s: string)
    requires NoComment(before + s)
    ensures !StartsComment(s)
  {
    assert before + s + "" == before + s;
    NoCommentWithin(before, s, "");
  }

  lemma CopiedIsNoChart(word: char -> bool, before: string, s: string)
    requires s != "" && !StartsComment(s)
    ensures var t := AnnotateFrom(word, before + [s[0]], s[1..]); AllCharts([s[0]] + t) == AllCharts(t)
  {
    hide *;
    var t := AnnotateFrom(word, before + [s[0]], s[1..]);
    if StartsComment([s[0]] + t) {
      CopiedComment(word, before, s);
    }
    NoChartAt([s[0]] + t);
    assert ([s[0]] + t)[1..] == t;
  }

  lemma CopyAgrees(word: char -> bool, before: string, s: string)
    requires NoComment(before + s) && s != "" && MatchFence(before == "", s).None?
    ensures AllCharts(AnnotateFrom(word, before, s)) == ClassifiedBlocks(word, before == "", s)
    decreases |s|, 0
  {
    hide *;
    CopyStep(word, before, s);
    NoCommentHere(before, s);
    ExtractorAgrees(word, before + [s[0]], s[1..]);
    CopiedIsNoChart(word, before, s);
  }

  lemma BlocksStep(word: char -> bool, first: bool, s: string, f: Fence)
    requires s != "" && MatchFence(first, s) == Some(f) && 0 < |FenceText(f)| <= |s|
    ensures ClassifiedBlocks(word, first, s) == BlockOf(word, f) + ClassifiedBlocks(word, false, s[|FenceText(f)|..])
  {
  }

  lemma FenceAgrees(word: char -> bool, before: string, s: string, f: Fence)
    requires NoComment(before + s) && s != "" && MatchFence(before == "", s) == Some(f) && ValidFence(f)
    requires 0 < |FenceText(f)| <= |s| && s == FenceText(f) + s[|FenceText(f)|..]
    requires FenceText(f)[|FenceText(f)| - 1] == '`'
    ensures AllCharts(AnnotateFrom(word, before, s)) == ClassifiedBlocks(word, before == "", s)
    decreases |s|, 0
  {
    hide *;
    AnnotateStep(word, before, s, f);
    BlocksStep(word, before == "", s, f);
    NoAnnotationIn(before, s);
    DecisionHere(word, before, f);
    var x := FenceText(f);
    var rest := s[|x|..];
    var t := AnnotateFrom(word, before + x, rest);
    Associate(before, x, rest);
    ExtractorAgrees(word, before + x, rest);
    if Rewritten(word, before, f) {
      var code := Classify(word, f.body).value;
      LeadIsOther(code, f, t);
      CommentedBlock(code, before, f, rest, t);
    } else {
      SkipKept(before, x, rest, t);
    }
  }

  lemma DecisionHere(word: char -> bool, before: string, f: Fence)
    requires !HasAnnotation(before)
    ensures Rewritten(word, before, f) <==> Classify(word, f.body).Some?
    ensures Rewritten(word, before, f) ==> IsCode(Classify(word, f.body).value)
    ensures BlockOf(word, f)
      == if Rewritten(word, before, f) && f.indent == "" then [Chart(Classify(word, f.body).value, f.body + ['\n'])] else []
  {
  }

  lemma AnnotatorAndExtractorAgree(word: char -> bool, s: string)
    requires NoComment(s)
    ensures AllCharts(AnnotateMermaidBlocks(word, s)) == ClassifiedBlocks(word, true, s)
  {
    assert "" + s == s;
    ExtractorAgrees(word, "", s);
  }
}