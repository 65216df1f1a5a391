/** What one annotation pass does to a text: it inserts comment lines and aligns the closing
    fences of the blocks that got one, and nothing else; in particular it neither makes nor
    removes a placeholder. */
module Effects {
  import opened Annotation
  import opened Basics
  import opened Comments
  import opened Fences
  import opened Placeholders

  const BREAK := ['\n']
  const TICKS := ['`', '`', '`']

  /** A piece of an edited text: kept as it is, or a mermaid block that gets its annotation. `lead`
      is the line break before the block, `was` the indentation its closing fence had. */
  datatype Edit =
    | Keep(text: string)
    | Annotate(lead: string, indent: string, mark: string, body: string, was: string, code: string)

  /** The piece before the pass: the block with its own closing fence. */
  function OldText(e: Edit): string {
    match e
    case Keep(text) => text
    case Annotate(lead, indent, mark, body, was, _) => lead + (indent + (mark + (body + (BREAK + (was + TICKS)))))
  }

  /** The piece after the pass: one line more, and the closing fence indented like the opening one. */
  function NewText(e: Edit): string {
    match e
    case Keep(text) => text
    case Annotate(lead, indent, mark, body, _, code) =>
      lead + (indent + ("<!-- chart: " + (code + " -->") + (BREAK + (indent + (mark + (body + (BREAK + (indent + TICKS))))))))
  }

  function Before(es: seq<Edit>): string {
    if es == [] then "" else OldText(es[0]) + Before(es[1..])
  }

  function After(es: seq<Edit>): string {
    if es == [] then "" else NewText(es[0]) + After(es[1..])
  }

  /** An annotated piece is a whole mermaid block at the start of a line: up to the first closing
      fence behind its opening mark, of the class that its comment names, and without an annotation
      before it. `before` is the text in front of the piece. */
  predicate LegalEdit(word: char -> bool, before: string, e: Edit) {
    e.Annotate? ==>
      && IsLead(e.lead) && (e.lead == "" ==> before == "")
      && Blanks(e.indent) && IsMark(e.mark) && Closed(e.body) && Blanks(e.was)
      && Classify(word, e.body) == Some(e.code)
      && !HasAnnotation(before)
  }

  predicate Legal(word: char -> bool, before: string, es: seq<Edit>)
    decreases |es|
  {
    es == [] || (LegalEdit(word, before, es[0]) && Legal(word, before + OldText(es[0]), es[1..]))
  }

  ghost predicate Edited(word: char -> bool, before: string, s: string, t: string) {
    exists es :: Legal(word, before, es) && Before(es) == s && After(es) == t
  }

  lemma EditedMore(word: char -> bool, before: string, e: Edit, s: string, t: string)
    requires LegalEdit(word, before, e) && Edited(word, before + OldText(e), s, t)
    ensures Edited(word, before, OldText(e) + s, NewText(e) + t)
  {
    hide OldText, NewText, LegalEdit;
    var es :| Legal(word, before + OldText(e), es) && Before(es) == s && After(es) == t;
    var all := [e] + es;
    assert all[1..] == es;
    assert Legal(word, before, all) && Before(all) == OldText(e) + s && After(all) == NewText(e) + t;
  }

  lemma ClosingParts(s: string) returns (was: string)
    requires IsClosing(s)
    ensures Blanks(was) && s == BREAK + (was + TICKS)
  {
    var r := s[1..];
    var n := BlankRun(r);
    was := r[..n];
    assert r == was + r[n..] && r[n..] == TICKS;
  }

  lemma ResultForm(code: string, f: Fence, was: string)
    ensures NewText(Annotate(f.lead, f.indent, f.mark, f.body, was, code)) == Annotated(code, f)
  {
  }

  lemma AnnotatedIsEdited(word: char -> bool, before: string, code: string, f: Fence, s: string, t: string)
    requires ValidFence(f) && (f.lead == "" ==> before == "")
    requires Classify(word, f.body) == Some(code) && !HasAnnotation(before)
    requires Edited(word, before + FenceText(f), s, t)
    ensures Edited(word, before, FenceText(f) + s, Annotated(code, f) + t)
  {
    var was := ClosingParts(f.closing);
    var e := Annotate(f.lead, f.indent, f.mark, f.body, was, code);
    assert OldText(e) == FenceText(f);
    ResultForm(code, f, was);
    assert LegalEdit(word, before, e);
    hide *;
    EditedMore(word, before, e, s, t);
  }

  lemma NoneIsEdited(word: char -> bool, before: string)
    ensures Edited(word, before, "", AnnotateFrom(word, before, ""))
  {
    assert Legal(word, before, []) && Before([]) == "" && After([]) == "";
  }

  lemma CharIsEdited(word: char -> bool, before: string, s: string)
    requires s != "" && MatchFence(before == "", s).None?
    requires Edited(word, before + [s[0]], s[1..], AnnotateFrom(word, before + [s[0]], s[1..]))
    ensures Edited(word, before, s, AnnotateFrom(word, before, s))
  {
    hide MatchFence, Edited, AnnotateFrom;
    AnnotateSkip(word, before, s);
    EditedMore(word, before, Keep([s[0]]), s[1..], AnnotateFrom(word, before + [s[0]], s[1..]));
    assert s == [s[0]] + s[1..];
  }

  // ----- a block that has its comment -----

  /** A fence opens only at a backtick that nothing but blanks comes before. */
  lemma NoTickNoOpening(y: string)
    requires BlankRun(y) < |y| && y[BlankRun(y)] != '`'
    ensures !Opens(y)
  {
  }

  /** In front of a line break no fence opens in text without a backtick. */
  lemma NoFenceAhead(first: bool, g: string, z: string)
    requires g != "" && '`' !in g && z != "" && z[0] == '\n'
    ensures MatchFence(first, g + z).None?
  {
    NoOpening(g, z);
    NoOpening(g[1..], z);
    assert (g + z)[1..] == g[1..] + z;
  }

  lemma NoOpening(x: string, z: string)
    requires '`' !in x && z != "" && z[0] == '\n'
    ensures !Opens(x + z)
  {
    var y := x + z;
    var k := BlankRun(y);
    assert y[|x|] == '\n' && !IsBlank(y[|x|]);
    assert k <= |x|;
    assert y[k] == if k < |x| then x[k] else z[0];
    NoTickNoOpening(y);
  }

  lemma {:induction false} NoTickIsKept(word: char -> bool, u: string, g: string, z: string)
    requires '`' !in g && z != "" && z[0] == '\n'
    ensures AnnotateFrom(word, u, g + z) == g + AnnotateFrom(word, u + g, z)
    decreases |g|
  {
    hide MatchFence, AnnotateFrom;
    if g == "" {
      assert g + z == z && u + g == u;
    } else {
      var h := g[1..];
      NoFenceAhead(u == "", g, z);
      AnnotateSkip(word, u, g + z);
      assert (g + z)[0] == g[0] && (g + z)[1..] == h + z;
      assert forall c | c in h :: c in g;
      NoTickIsKept(word, u + [g[0]], h, z);
      assert u + [g[0]] + h == u + g && [g[0]] + h == g;
    }
  }

  /** A block behind a chart comment stays exactly as it is, whatever white space is between the two and
      whatever class the comment names, as long as comment and white space are within 200 characters.
      `u` is what has been scanned before, `g` text without a fence. */
  lemma CommentedBlockStays(word: char -> bool, u: string, g: string, f: Fence, rest: string,
      p: string, a: string, b: string, code: string, c: string, d: string)
    requires '`' !in g && EndsInComment(u + g, p, a, b, code, c, d)
    requires ValidFence(f) && f.lead != ""
    ensures AnnotateFrom(word, u, g + (FenceText(f) + rest))
      == g + (FenceText(f) + AnnotateFrom(word, u + g + FenceText(f), rest))
  {
    hide MatchFence, AnnotateFrom, FenceText, ValidFence, EndsInComment;
    CommentShows(u + g, p, a, b, code, c, d);
    var z := FenceText(f) + rest;
    FenceLength(f);
    NoTickIsKept(word, u, g, z);
    ValidIsMatched(u + g == "", f, rest);
    AnnotateStep(word, u + g, z, f);
    assert z[|FenceText(f)|..] == rest;
    KeptFence(word, u + g, f);
  }

  lemma KeptFence(word: char -> bool, before: string, f: Fence)
    requires HasAnnotation(before)
    ensures !Rewritten(word, before, f)
  {
  }

  /** ... and a block of a known class without one gets it. */
  lemma BareBlockIsAnnotated(word: char -> bool, u: string, g: string, f: Fence, rest: string, code: string)
    requires '`' !in g && ValidFence(f) && f.lead != "" && Classify(word, f.body) == Some(code)
    requires forall p, a, b, other, c, d :: !EndsInComment(u + g, p, a, b, other, c, d)
    ensures AnnotateFrom(word, u, g + (FenceText(f) + rest))
      == g + (NewText(Annotate(f.lead, f.indent, f.mark, f.body, "", code)) + AnnotateFrom(word, u + g + FenceText(f), rest))
  {
    hide MatchFence, AnnotateFrom, ValidFence, EndsInComment, FenceText, Classify, NewText;
    HasAnnotationIff(u + g);
    var z := FenceText(f) + rest;
    FenceLength(f);
    NoTickIsKept(word, u, g, z);
    ValidIsMatched(u + g == "", f, rest);
    AnnotateStep(word, u + g, z, f);
    assert z[|FenceText(f)|..] == rest;
    ResultForm(code, f, "");
  }

  /** One pass does nothing but annotate blocks of their class that had no annotation. */
  lemma {:induction false} AnnotateOnlyEdits(word: char -> bool, before: string, s: string)
    ensures Edited(word, before, s, AnnotateFrom(word, before, s))
    decreases |s|
  {
    hide MatchFence, Edited, AnnotateFrom, ValidFence, FenceText;
    if s == "" {
      NoneIsEdited(word, before);
    } else {
      match MatchFence(before == "", s)
      case None =>
        AnnotateOnlyEdits(word, before + [s[0]], s[1..]);
        CharIsEdited(word, before, s);
      case Some(f) =>
        MatchIsPrefix(before == "", s);
        FenceLength(f);
        EditFence(word, before, s, f);
    }
  }

  lemma EditFence(word: char -> bool, before: string, s: string, f: Fence)
    requires s != "" && MatchFence(before == "", s) == Some(f) && ValidFence(f) && (f.lead == "" ==> before == "")
    requires 0 < |FenceText(f)| <= |s| && s == FenceText(f) + s[|FenceText(f)|..]
    ensures Edited(word, before, s, AnnotateFrom(word, before, s))
    decreases |s|, 0
  {
    AnnotateStep(word, before, s, f);
    hide *;
    var x := FenceText(f);
    var rest := s[|x|..];
    var t := AnnotateFrom(word, before + x, rest);
    AnnotateOnlyEdits(word, before + x, rest);
    if Rewritten(word, before, f) {
      RewrittenHasCode(word, before, f);
      RewrittenIsNew(word, before, f);
      AnnotatedIsEdited(word, before, Classify(word, f.body).value, f, rest, t);
    } else {
      KeptIsEdited(word, before, x, rest, t);
    }
  }

  lemma RewrittenIsNew(word: char -> bool, before: string, f: Fence)
    requires Rewritten(word, before, f)
    ensures !HasAnnotation(before)
  {
  }

  lemma KeptIsEdited(word: char -> bool, before: string, x: string, s: string, t: string)
    requires Edited(word, before + x, s, t)
    ensures Edited(word, before, x + s, x + t)
  {
    hide Edited;
    EditedMore(word, before, Keep(x), s, t);
  }

  // ----- placeholders -----

  predicate Plain(s: string) { s != "" && forall k | 0 <= k < |s| :: s[k] != '{' && s[k] != '}' }

  lemma PlainMark(s: string)
    requires IsMark(s)
    ensures Plain(s)
  {
  }

  lemma PlainClosing(s: string)
    requires IsClosing(s)
    ensures Plain(s)
  {
    var was := ClosingParts(s);
    hide Closes;
  }

  lemma PlainComment(c: string, indent: string, mark: string)
    requires Blanks(indent) && Plain(mark) && Plain(c)
    ensures Plain(c + (BREAK + (indent + mark))) && Plain(ClosingLine(indent))
  {
  }

  lemma PlainParts(code: string, f: Fence)
    requires ValidFence(f) && IsCode(code)
    ensures Plain(f.mark) && Plain(f.closing) && Plain(ClosingLine(f.indent))
    ensures Plain(CommentText(code) + (BREAK + (f.indent + f.mark)))
  {
    CommentCharacters(code);
    PlainMark(f.mark);
    PlainClosing(f.closing);
    PlainComment(CommentText(code), f.indent, f.mark);
    hide *;
  }

  lemma AnnotatedKeepsPlaceholders(code: string, f: Fence, a: string, b: string)
    requires ValidFence(f) && IsCode(code)
    ensures HasPlaceholder(a + Annotated(code, f) + b) <==> HasPlaceholder(a + FenceText(f) + b)
  {
    PlainParts(code, f);
    var v := CommentText(code) + (BREAK + (f.indent + f.mark));
    var hd := a + (f.lead + f.indent);
    PlainSwapIff(hd, f.mark, v, f.body + f.closing + b);
    PlainSwapIff(hd + v + f.body, f.closing, ClosingLine(f.indent), b);
    hide *;
    assert a + FenceText(f) + b == hd + f.mark + (f.body + f.closing + b) by { SourceParts(f, a, b); }
    assert hd + v + (f.body + f.closing + b) == hd + v + f.body + f.closing + b;
    assert a + Annotated(code, f) + b == hd + v + f.body + ClosingLine(f.indent) + b by { ResultParts(code, f, a, b); }
  }

  lemma SourceParts(f: Fence, a: string, b: string)
    ensures a + FenceText(f) + b == a + (f.lead + f.indent) + f.mark + (f.body + f.closing + b)
  {
  }

  lemma ResultParts(code: string, f: Fence, a: string, b: string)
    ensures a + Annotated(code, f) + b
      == a + (f.lead + f.indent) + (CommentText(code) + (BREAK + (f.indent + f.mark))) + f.body + ClosingLine(f.indent) + b
  {
    hide CommentText, ClosingLine;
  }

  /** The annotation pass neither makes nor removes a placeholder. */
  lemma {:induction false} AnnotateKeepsPlaceholders(word: char -> bool, before: string, a: string, s: string)
    ensures HasPlaceholder(a + AnnotateFrom(word, before, s)) <==> HasPlaceholder(a + s)
    decreases |s|
  {
    if s != "" {
      match MatchFence(before == "", s)
      case None =>
        var t := AnnotateFrom(word, before + [s[0]], s[1..]);
        AnnotateKeepsPlaceholders(word, before + [s[0]], a + [s[0]], s[1..]);
        assert a + ([s[0]] + t) == a + [s[0]] + t;
        assert a + s == a + [s[0]] + s[1..];
      case Some(f) =>
        MatchIsPrefix(before == "", s);
        FenceLength(f);
        FenceKeepsPlaceholders(word, before, a, s, f);
    }
  }

  lemma FenceKeepsPlaceholders(word: char -> bool, before: string, a: string, s: string, f: Fence)
    requires s != "" && MatchFence(before == "", s) == Some(f) && ValidFence(f)
    requires 0 < |FenceText(f)| <= |s| && s == FenceText(f) + s[|FenceText(f)|..]
    ensures HasPlaceholder(a + AnnotateFrom(word, before, s)) <==> HasPlaceholder(a + s)
    decreases |s|, 0
  {
    AnnotateStep(word, before, s, f);
    hide *;
    var x := FenceText(f);
    var rest := s[|x|..];
    var t := AnnotateFrom(word, before + x, rest);
    Associate(a, x, rest);
    if Rewritten(word, before, f) {
      RewrittenHasCode(word, before, f);
      var code := Classify(word, f.body).value;
      var y := Annotated(code, f);
      AnnotateKeepsPlaceholders(word, before + x, a + y, rest);
      AnnotatedKeepsPlaceholders(code, f, a, rest);
      Associate(a, y, t);
    } else {
      AnnotateKeepsPlaceholders(word, before + x, a + x, rest);
      Associate(a, x, t);
    }
  }

  /** A text that has been stripped and then annotated contains a placeholder exactly if the text
      before the strip pass contained a torn one. */
  lemma RenderedPlaceholders(word: char -> bool, s: string)
    ensures HasPlaceholder(AnnotateMermaidBlocks(word, StripPass(s))) <==> HasTorn(s)
  {
    var r := StripPass(s);
    AnnotateKeepsPlaceholders(word, "", "", r);
    assert "" + r == r && "" + AnnotateMermaidBlocks(word, r) == AnnotateMermaidBlocks(word, r);
    StripComplete(s);
  }
}
