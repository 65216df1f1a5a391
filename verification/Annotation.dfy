/** Classification of mermaid bodies, and the substitution that puts a chart comment before
    every classified fence that has none. */
module Annotation {
  import opened Basics
  import opened Comments
  import opened Fences

  /** `s.split("\n", 1)[0]`. */
  function FirstLine(s: string): string {
    if s == "" || s[0] == '\n' then "" else [s[0]] + FirstLine(s[1..])
  }

  /** `\bsubgraph` matches at `i`; `word` is the class `\w`. */
  predicate SubgraphAt(word: char -> bool, body: string, i: nat)
    requires i <= |body|
  {
    "subgraph" <= body[i..] && (i == 0 || !word(body[i - 1]))
  }

  predicate PhaseSubgraph(word: char -> bool, body: string) {
    exists i | 0 <= i <= |body| ::
      && SubgraphAt(word, body, i)
      && var rest := body[i..][8..];
      rest != "" && IsSpace(rest[0]) && "Phase" <= LStrip(rest)
  }

  predicate AnySubgraph(word: char -> bool, body: string) {
    exists i | 0 <= i <= |body| ::
      && SubgraphAt(word, body, i)
      && var rest := body[i..][8..];
      rest == "" || !word(rest[0])
  }

  /** The chart code a body calls for, if its first line is one of the known kinds. */
  function Classify(word: char -> bool, body: string): (r: Option<string>)
    ensures r.Some? ==> IsCode(r.value)
  {
    var line := Strip(FirstLine(LStrip(body)));
    if "sequenceDiagram" <= line then Some("D-SEQ")
    else if "classDiagram" <= line then Some("D-CLASS")
    else if "erDiagram" <= line then Some("D-CLASS")
    else if "stateDiagram" <= line then Some("D-STATE")
    else if "mindmap" <= line then Some("D-MIND")
    else if "gantt" <= line then Some("D-GANTT")
    else if "flowchart" <= line || "graph" <= line then
      if PhaseSubgraph(word, body) then Some("D-DAG")
      else if AnySubgraph(word, body) then Some("D-ARCH")
      else Some("D-DECISION")
    else None
  }

  function ClosingLine(indent: string): string { ['\n'] + (indent + ['`', '`', '`']) }

  /** The fence as it stands behind its comment: on a line of its own, with the closing fence
      indented like the opening one. */
  function Aligned(f: Fence): Fence { f.(lead := ['\n'], closing := ClosingLine(f.indent)) }

  /** Everything that is put before the line break of the aligned fence. */
  function CommentLine(code: string, f: Fence): string { f.lead + (f.indent + CommentText(code)) }

  function Annotated(code: string, f: Fence): string { CommentLine(code, f) + FenceText(Aligned(f)) }

  /** A classified fence gets a comment unless there is one already. */
  predicate Rewritten(word: char -> bool, before: string, f: Fence) {
    Classify(word, f.body).Some? && !HasAnnotation(before)
  }

  /** The substitution on the rest `s` of a text of which `before` has been scanned. */
  function AnnotateFrom(word: char -> bool, before: string, s: string): (t: string)
    decreases |s|
  {
    if s == "" then ""
    else
      match MatchFence(before == "", s)
      case None => [s[0]] + AnnotateFrom(word, before + [s[0]], s[1..])
      case Some(f) =>
        MatchIsPrefix(before == "", s);
        FenceLength(f);
        (if Rewritten(word, before, f) then Annotated(Classify(word, f.body).value, f) else FenceText(f))
        + AnnotateFrom(word, before + FenceText(f), s[|FenceText(f)|..])
  }

  function AnnotateMermaidBlocks(word: char -> bool, content: string): string {
    AnnotateFrom(word, "", content)
  }

  // ----- one pass settles a text -----

  /** Every classified fence of `s` has its annotation. */
  predicate Settled(word: char -> bool, before: string, s: string)
    decreases |s|
  {
    s == "" ||
    match MatchFence(before == "", s)
    case None => Settled(word, before + [s[0]], s[1..])
    case Some(f) =>
      MatchIsPrefix(before == "", s);
      FenceLength(f);
      !Rewritten(word, before, f) && Settled(word, before + FenceText(f), s[|FenceText(f)|..])
  }

  lemma SettledStep(word: char -> bool, before: string, s: string, f: Fence)
    requires s != "" && MatchFence(before == "", s) == Some(f) && 0 < |FenceText(f)| <= |s|
    requires Settled(word, before, s)
    ensures !Rewritten(word, before, f) && Settled(word, before + FenceText(f), s[|FenceText(f)|..])
  {
  }

  lemma AnnotateNothing(word: char -> bool, before: string)
    ensures AnnotateFrom(word, before, "") == ""
  {
  }

  lemma AnnotateSkip(word: char -> bool, before: string, s: string)
    requires s != "" && MatchFence(before == "", s).None?
    ensures AnnotateFrom(word, before, s) == [s[0]] + AnnotateFrom(word, before + [s[0]], s[1..])
  {
  }

  lemma AnnotateStep(word: char -> bool, before: string, s: string, f: Fence)
    requires s != "" && MatchFence(before == "", s) == Some(f) && |FenceText(f)| <= |s|
    ensures AnnotateFrom(word, before, s)
      == (if Rewritten(word, before, f) then Annotated(Classify(word, f.body).value, f) else FenceText(f))
         + AnnotateFrom(word, before + FenceText(f), s[|FenceText(f)|..])
  {
  }

  lemma {:induction false} SettledIsFixed(word: char -> bool, before: string, s: string)
    requires Settled(word, before, s)
    ensures AnnotateFrom(word, before, s) == s
    decreases |s|
  {
    if s != "" {
      match MatchFence(before == "", s)
      case None =>
        SettledIsFixed(word, before + [s[0]], s[1..]);
      case Some(f) =>
        MatchIsPrefix(before == "", s);
        FenceLength(f);
        FenceIsFixed(word, before, s, f);
    }
  }

  lemma FenceIsFixed(word: char -> bool, before: string, s: string, f: Fence)
    requires s != "" && MatchFence(before == "", s) == Some(f) && 0 < |FenceText(f)| <= |s|
    requires s == FenceText(f) + s[|FenceText(f)|..] && Settled(word, before, s)
    ensures AnnotateFrom(word, before, s) == s
    decreases |s|, 0
  {
    hide *;
    SettledStep(word, before, s, f);
    AnnotateStep(word, before, s, f);
    SettledIsFixed(word, before + FenceText(f), s[|FenceText(f)|..]);
  }

  // ----- the line a scan position is on -----

  /** The text up to and including its first line break. */
  function Line(s: string): (r: string)
    ensures |r| <= |s| && r == s[..|r|]
    ensures r == s || (r != "" && r[|r| - 1] == '\n')
  {
    if s == "" then "" else if s[0] == '\n' then s[..1] else [s[0]] + Line(s[1..])
  }

  lemma {:induction false} RunOfPrefix(s: string, n: nat)
    requires n <= |s| && BlankRun(s[..n]) < n
    ensures BlankRun(s[..n]) == BlankRun(s)
  {
    if IsBlank(s[0]) {
      assert s[..n][1..] == s[1..][..n - 1];
      RunOfPrefix(s[1..], n - 1);
    }
  }

  lemma {:induction false} RunWithin(s: string, n: nat)
    requires BlankRun(s) < n <= |s|
    ensures BlankRun(s[..n]) == BlankRun(s)
  {
    if IsBlank(s[0]) {
      assert s[..n][1..] == s[1..][..n - 1];
      RunWithin(s[1..], n - 1);
    }
  }

  lemma MarkWithin(s: string, w: nat, n: nat)
    requires w <= n <= |s|
    ensures StartsMark(s[..n][w..]) <==> n >= w + 11 && StartsMark(s[w..])
  {
    assert s[..n][w..] == s[w..][..n - w];
  }

  lemma MarkReaches(s: string)
    requires Opens(s)
    ensures |Line(s)| >= BlankRun(s) + 11
  {
    var w := BlankRun(s);
    forall k | 0 <= k < w + 10 ensures s[k] != '\n' {
      assert k < w || s[k] == s[w..][k - w];
    }
    LineReaches(s, w + 11);
  }

  /** Whether a fence opens at a position shows on its line. */
  lemma OpensOnLine(s: string)
    ensures Opens(s) <==> Opens(Line(s))
  {
    var n := |Line(s)|;
    if Opens(Line(s)) {
      RunOfPrefix(s, n);
      MarkWithin(s, BlankRun(s), n);
    }
    if Opens(s) {
      MarkReaches(s);
      RunWithin(s, n);
      MarkWithin(s, BlankRun(s), n);
    }
  }

  lemma {:induction false} LineReaches(s: string, n: nat)
    requires n <= |s| && forall k | 0 <= k < n - 1 :: s[k] != '\n'
    ensures n <= |Line(s)|
  {
    if n > 0 && s[0] != '\n' {
      LineReaches(s[1..], n - 1);
    }
  }

  lemma LineOfBreak(s: string)
    requires s != "" && s[0] == '\n'
    ensures Line(s) == ['\n']
  {
  }

  lemma LineMore(c: char, s: string)
    ensures Line([c] + s) == if c == '\n' then [c] else [c] + Line(s)
  {
  }

  lemma FenceKeepsBreak(word: char -> bool, before: string, s: string, f: Fence)
    requires before != "" && s != "" && MatchFence(false, s) == Some(f) && ValidFence(f) && f.lead != ""
    requires |FenceText(f)| <= |s| && s == FenceText(f) + s[|FenceText(f)|..]
    ensures s[0] == '\n' && AnnotateFrom(word, before, s) != "" && AnnotateFrom(word, before, s)[0] == '\n'
  {
    AnnotateStep(word, before, s, f);
    hide MatchFence, AnnotateFrom, Classify, HasAnnotation, Closed;
  }

  /** Annotating the rest of a text keeps the line the scan is on. */
  lemma {:induction false} LineIsKept(word: char -> bool, before: string, s: string)
    requires before != ""
    ensures Line(AnnotateFrom(word, before, s)) == Line(s)
    decreases |s|
  {
    hide *;
    if s == "" {
      AnnotateNothing(word, before);
    } else {
      var t := AnnotateFrom(word, before, s);
      match MatchFence(false, s)
      case None =>
        AnnotateSkip(word, before, s);
        LineIsKept(word, before + [s[0]], s[1..]);
        LineMore(s[0], s[1..]);
        LineMore(s[0], AnnotateFrom(word, before + [s[0]], s[1..]));
        assert s == [s[0]] + s[1..];
      case Some(f) =>
        MatchIsPrefix(false, s);
        FenceLength(f);
        FenceKeepsBreak(word, before, s, f);
        LineOfBreak(s);
        LineOfBreak(t);
    }
  }

  /** A fence is opened at the start of `s`, closed or not. */
  predicate OpenAt(first: bool, s: string) {
    (first && Opens(s)) || (s != "" && s[0] == '\n' && Opens(s[1..]))
  }

  /** Annotating what follows opens no fence at a position where none was open. */
  lemma OpenIsKept(word: char -> bool, before: string, s: string)
    requires s != "" && !OpenAt(before == "", s)
    ensures MatchFence(before == "", [s[0]] + AnnotateFrom(word, before + [s[0]], s[1..])).None?
  {
    var r := AnnotateFrom(word, before + [s[0]], s[1..]);
    var t := [s[0]] + r;
    LineIsKept(word, before + [s[0]], s[1..]);
    assert t[1..] == r;
    OpensOnLine(s[1..]);
    OpensOnLine(r);
    OpensOnLine(s);
    OpensOnLine(t);
  }

  /** From index `i` on, no fence starts in `s`. */
  predicate NoMatch(s: string, i: nat) { forall k | i <= k <= |s| :: MatchFence(false, s[k..]).None? }

  lemma MatchCloses(s: string) returns (p: nat)
    requires MatchFence(false, s).Some?
    ensures 12 <= p <= |s| && Closes(s[p..]) && s[0] == '\n'
  {
    var f := MatchFence(false, s).value;
    MatchIsPrefix(false, s);
    p := FenceCloses(f, s[|FenceText(f)|..]);
  }

  lemma FenceCloses(f: Fence, z: string) returns (p: nat)
    requires ValidFence(f) && f.lead != ""
    ensures 12 <= p <= |FenceText(f) + z| && Closes((FenceText(f) + z)[p..])
  {
    hide Closes, FenceText, StartsMark, Closed, Blanks;
    p := |f.lead| + |f.indent| + 11 + |f.body|;
    CutClosing(f, z);
    ClosesStays(f.closing, z);
  }

  lemma CutClosing(f: Fence, z: string)
    requires ValidFence(f)
    ensures var p := |f.lead| + |f.indent| + 11 + |f.body|;
      p <= |FenceText(f) + z| && (FenceText(f) + z)[p..] == f.closing + z
  {
  }

  /** A line break within an opening fence is its last character. */
  lemma BreakInOpening(x: string, k: nat)
    requires Opens(x) && k < BlankRun(x) + 11 && x[k] == '\n'
    ensures k == BlankRun(x) + 10
  {
    var w := BlankRun(x);
    if w <= k {
      assert x[k] == x[w..][k - w];
    }
  }

  lemma NoClosingBehind(s: string, o: nat, p: nat)
    requires o <= p <= |s| && FirstClosing(s[o..]) == |s| - o
    ensures !Closes(s[p..])
  {
    assert s[o..][p - o..] == s[p..];
    if p < |s| {
      BeforeFirstClosing(s[o..], p - o);
    }
  }

  lemma NoMatchInOpening(s: string, lead: nat, k: nat)
    requires lead <= 1 <= |s| && Opens(s[lead..]) && 1 <= k <= |s|
    requires FirstClosing(s[lead + BlankRun(s[lead..]) + 11..]) == |s| - (lead + BlankRun(s[lead..]) + 11)
    ensures MatchFence(false, s[k..]).None?
  {
    hide *;
    var x := s[lead..];
    var o := lead + BlankRun(x) + 11;
    var y := s[k..];
    if MatchFence(false, y).Some? {
      var p := MatchCloses(y);
      if k < o {
        assert x[k - lead] == y[0];
        BreakInOpening(x, k - lead);
      }
      assert o <= k + p;
      assert y[p..] == s[k + p..];
      NoClosingBehind(s, o, k + p);
    }
  }

  lemma CutThrice(s: string, a: nat, b: nat, c: nat)
    requires a + b + c <= |s|
    ensures s[a..][b..][c..] == s[a + b + c..]
  {
  }

  lemma NoneIsUnclosed(lead: string, s: string)
    requires Opens(s) && MatchBody(lead, s).None?
    ensures |s| >= BlankRun(s) + 11
    ensures FirstClosing(s[BlankRun(s)..][11..]) == |s| - BlankRun(s) - 11
  {
  }

  lemma UnclosedBody(lead: string, s: string, at: nat)
    requires at <= |s| && Opens(s[at..]) && MatchBody(lead, s[at..]).None?
    ensures var o := at + BlankRun(s[at..]) + 11; o <= |s| && FirstClosing(s[o..]) == |s| - o
  {
    var x := s[at..];
    NoneIsUnclosed(lead, x);
    CutThrice(s, at, BlankRun(x), 11);
    hide *;
  }

  /** Behind an opened fence that nothing closes there is no match at all. */
  lemma UnclosedIsLast(first: bool, s: string)
    requires OpenAt(first, s) && MatchFence(first, s).None?
    ensures NoMatch(s, 1)
  {
    var lead := if first && Opens(s) then 0 else 1;
    assert s == s[0..];
    UnclosedBody(s[..lead], s, lead);
    forall k | 1 <= k <= |s| ensures MatchFence(false, s[k..]).None? {
      NoMatchInOpening(s, lead, k);
    }
  }

  lemma {:induction false} QuietIsSettled(word: char -> bool, before: string, s: string, i: nat)
    requires before != "" && i <= |s| && NoMatch(s, i)
    ensures Settled(word, before, s[i..])
    decreases |s| - i
  {
    if i < |s| {
      QuietIsSettled(word, before + [s[i]], s, i + 1);
      assert s[i..][1..] == s[i + 1..];
    }
  }

  lemma CopySettled(word: char -> bool, before: string, c: char, x: string)
    requires MatchFence(before == "", [c] + x).None? && Settled(word, before + [c], x)
    ensures Settled(word, before, [c] + x)
  {
    assert ([c] + x)[1..] == x;
  }

  lemma FenceSettled(word: char -> bool, before: string, f: Fence, x: string)
    requires ValidFence(f) && (f.lead == "" ==> before == "")
    requires !Rewritten(word, before, f) && Settled(word, before + FenceText(f), x)
    ensures Settled(word, before, FenceText(f) + x)
  {
    var s := FenceText(f) + x;
    ValidIsMatched(before == "", f, x);
    FenceLength(f);
    assert s[|FenceText(f)|..] == x;
  }

  /** No fence starts at index `n` of `hd + x`. */
  predicate QuietAt(first: bool, hd: string, x: string, n: nat)
    requires n <= |hd|
  {
    MatchFence(first && n == 0, hd[n..] + x).None?
  }

  lemma StepAlong(before: string, hd: string, x: string, n: nat)
    requires n < |hd|
    ensures hd[n..] + x == [hd[n]] + (hd[n + 1..] + x)
    ensures before + hd[..n + 1] == before + hd[..n] + [hd[n]]
    ensures before + hd[..n] == "" <==> before == "" && n == 0
  {
  }

  lemma {:induction false} SkipSettled(word: char -> bool, before: string, hd: string, x: string, n: nat)
    requires var first := before == ""; forall k | 0 <= k < |hd| :: QuietAt(first, hd, x, k)
    requires Settled(word, before + hd, x)
    requires n <= |hd|
    ensures Settled(word, before + hd[..n], hd[n..] + x)
    decreases |hd| - n
  {
    hide MatchFence, Settled;
    if n == |hd| {
      assert hd[..n] == hd && hd[n..] + x == x;
    } else {
      SkipSettled(word, before, hd, x, n + 1);
      StepAlong(before, hd, x, n);
      assert QuietAt(before == "", hd, x, n);
      CopySettled(word, before + hd[..n], hd[n], hd[n + 1..] + x);
    }
  }

  lemma CommentCharacters(code: string)
    requires IsCode(code)
    ensures var c := CommentText(code);
      && |c| > 0 && c[0] == '<'
      && (forall k | 0 <= k < |c| :: c[k] != '\n' && c[k] != '{' && c[k] != '}' && c[k] != '`')
      && (forall k | 1 <= k < |c| :: c[k] != '<')
  {
  }

  lemma CommentLineStart(first: bool, code: string, f: Fence, x: string)
    requires IsCode(code) && ValidFence(f)
    ensures MatchFence(first, CommentLine(code, f)[0..] + x).None?
  {
    CommentCharacters(code);
    hide CommentText;
    var s := CommentLine(code, f)[0..] + x;
    var y := CommentText(code) + x;
    assert s == f.lead + (f.indent + y);
    RunIsAll(f.indent, y);
    assert (f.indent + y)[|f.indent|..] == y;
    if f.lead == "" {
      assert s == f.indent + y;
    } else {
      assert s[1..] == f.indent + y;
    }
  }

  /** No fence starts on the comment line. */
  lemma CommentLineIsQuiet(first: bool, code: string, f: Fence, x: string, k: nat)
    requires IsCode(code) && ValidFence(f) && k < |CommentLine(code, f)|
    ensures QuietAt(first, CommentLine(code, f), x, k)
  {
    CommentCharacters(code);
    if k == 0 {
      CommentLineStart(first, code, f, x);
    } else {
      var hd, c := CommentLine(code, f), CommentText(code);
      hide CommentText, Opens;
      assert k < |f.lead| + |f.indent| ==> hd[k] == f.indent[k - |f.lead|];
      assert k >= |f.lead| + |f.indent| ==> hd[k] == c[k - |f.lead| - |f.indent|];
      assert (hd[k..] + x)[0] == hd[k];
    }
  }

  lemma AlignedIsValid(f: Fence)
    requires ValidFence(f)
    ensures ValidFence(Aligned(f))
  {
    var ticks := ['`', '`', '`'];
    var c := ClosingLine(f.indent);
    assert c[1..] == f.indent + ticks;
    RunIsAll(f.indent, ticks);
    assert c[1..][|f.indent|..] == ticks;
  }

  lemma AlignedLead(f: Fence)
    ensures Aligned(f).lead != ""
  {
  }

  lemma CommentLineEnds(before: string, code: string, f: Fence)
    requires IsCode(code)
    ensures HasAnnotation(before + CommentLine(code, f))
  {
    hide CommentText, HasAnnotation;
    assert before + CommentLine(code, f) == (before + (f.lead + f.indent)) + CommentText(code);
    AnnotationAtEnd(before + (f.lead + f.indent), code);
  }

  lemma AnnotatedParts(code: string, f: Fence, t: string)
    ensures Annotated(code, f) + t == CommentLine(code, f) + (FenceText(Aligned(f)) + t)
  {
    hide CommentLine, FenceText;
    Associate(CommentLine(code, f), FenceText(Aligned(f)), t);
  }

  lemma NotRewritten(word: char -> bool, before: string, f: Fence)
    requires HasAnnotation(before)
    ensures !Rewritten(word, before, f)
  {
  }

  /** A fence that has been annotated is found again, with its annotation. */
  lemma AnnotatedIsSettled(word: char -> bool, before: string, code: string, f: Fence, t: string)
    requires IsCode(code) && ValidFence(f) && (f.lead == "" ==> before == "")
    requires Settled(word, before + CommentLine(code, f) + FenceText(Aligned(f)), t)
    ensures Settled(word, before, Annotated(code, f) + t)
  {
    hide *;
    var hd := CommentLine(code, f);
    var g := Aligned(f);
    AlignedIsValid(f);
    AlignedLead(f);
    CommentLineEnds(before, code, f);
    NotRewritten(word, before + hd, g);
    FenceSettled(word, before + hd, g, t);
    var first, x := before == "", FenceText(g) + t;
    forall k | 0 <= k < |hd| ensures QuietAt(first, hd, x, k) {
      CommentLineIsQuiet(first, code, f, x, k);
    }
    SkipSettled(word, before, hd, x, 0);
    assert before + hd[..0] == before && hd[0..] == hd;
    AnnotatedParts(code, f, t);
  }

  /** One pass settles a text: what it leaves, it would leave again. The texts before the scan
      position may differ in the two passes in what lies behind a backtick. */
  lemma {:induction false} AnnotateSettles(word: char -> bool, u: string, v: string, g: string, s: string)
    requires u == "" || u[|u| - 1] == '`'
    requires u == "" <==> v == ""
    ensures Settled(word, v + g, AnnotateFrom(word, u + g, s))
    decreases |s|
  {
    if s != "" {
      match MatchFence(u + g == "", s)
      case None => SettleCopied(word, u, v, g, s);
      case Some(f) =>
        MatchIsPrefix(u + g == "", s);
        FenceLength(f);
        SettleFence(word, u, v, g, s, f);
    }
  }

  lemma SettleCopied(word: char -> bool, u: string, v: string, g: string, s: string)
    requires u == "" || u[|u| - 1] == '`'
    requires u == "" <==> v == ""
    requires s != "" && MatchFence(u + g == "", s).None?
    ensures Settled(word, v + g, AnnotateFrom(word, u + g, s))
    decreases |s|, 0
  {
    hide Settled, MatchFence;
    var r := AnnotateFrom(word, u + g + [s[0]], s[1..]);
    assert u + g + [s[0]] == u + (g + [s[0]]) && v + g + [s[0]] == v + (g + [s[0]]);
    if OpenAt(u + g == "", s) {
      UnclosedIsLast(u + g == "", s);
      QuietIsSettled(word, u + g + [s[0]], s, 1);
      SettledIsFixed(word, u + g + [s[0]], s[1..]);
      QuietIsSettled(word, v + g + [s[0]], s, 1);
      assert s == [s[0]] + r;
    } else {
      OpenIsKept(word, u + g, s);
      AnnotateSettles(word, u, v, g + [s[0]], s[1..]);
    }
    CopySettled(word, v + g, s[0], r);
  }

  lemma SettleFence(word: char -> bool, u: string, v: string, g: string, s: string, f: Fence)
    requires u == "" || u[|u| - 1] == '`'
    requires u == "" <==> v == ""
    requires s != "" && MatchFence(u + g == "", s) == Some(f)
    requires ValidFence(f) && (f.lead == "" ==> u + g == "") && 0 < |FenceText(f)| <= |s|
    requires FenceText(f)[|FenceText(f)| - 1] == '`'
    ensures Settled(word, v + g, AnnotateFrom(word, u + g, s))
    decreases |s|, 0
  {
    hide *;
    AnnotateStep(word, u + g, s, f);
    var x := FenceText(f);
    var p := u + g + x;
    var t := AnnotateFrom(word, p, s[|x|..]);
    assert p + "" == p && p[|p| - 1] == '`';
    if Rewritten(word, u + g, f) {
      RewrittenHasCode(word, u + g, f);
      var code := Classify(word, f.body).value;
      AlignedIsValid(f);
      FenceLength(Aligned(f));
      var y := v + g + CommentLine(code, f) + FenceText(Aligned(f));
      AnnotateSettles(word, p, y, "", s[|x|..]);
      assert y + "" == y;
      AnnotatedIsSettled(word, v + g, code, f, t);
    } else {
      SameDecision(word, u, v, g, f);
      var y := v + g + x;
      AnnotateSettles(word, p, y, "", s[|x|..]);
      assert y + "" == y;
      FenceSettled(word, v + g, f, t);
    }
  }

  lemma RewrittenHasCode(word: char -> bool, before: string, f: Fence)
    requires Rewritten(word, before, f)
    ensures Classify(word, f.body).Some? && IsCode(Classify(word, f.body).value)
  {
  }

  lemma SameDecision(word: char -> bool, u: string, v: string, g: string, f: Fence)
    requires u == "" || u[|u| - 1] == '`'
    requires !Rewritten(word, u + g, f)
    ensures !Rewritten(word, v + g, f)
  {
    if HasAnnotation(u + g) {
      AnnotationIsLocal(u, v, g);
    }
  }

  /** `annotate(annotate(s)) == annotate(s)`, for every text and every class of word characters. */
  lemma AnnotateIsIdempotent(word: char -> bool, s: string)
    ensures Settled(word, "", AnnotateMermaidBlocks(word, s))
    ensures AnnotateMermaidBlocks(word, AnnotateMermaidBlocks(word, s)) == AnnotateMermaidBlocks(word, s)
  {
    AnnotateSettles(word, "", "", "", s);
    assert "" + "" == "";
    SettledIsFixed(word, "", AnnotateMermaidBlocks(word, s));
  }
}
