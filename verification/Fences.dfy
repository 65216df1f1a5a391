/** Matching mermaid fences in a markdown text: the regular expression
    ``(^|\n)([ \t]*)```mermaid\n(.*?)\n[ \t]*``` `` written out as a matcher. A match never
    depends on the text before it, except for `^`, which holds only at the very start. */
module Fences {
  import opened Basics

  predicate IsBlank(c: char) { c == ' ' || c == '\t' }

  predicate Blanks(s: string) { forall k | 0 <= k < |s| :: IsBlank(s[k]) }

  /** Number of blanks at the start of `s`: the run that `[ \t]*` takes. */
  function BlankRun(s: string): (n: nat)
    ensures n <= |s|
    ensures forall k | 0 <= k < n :: IsBlank(s[k])
    ensures n < |s| ==> !IsBlank(s[n])
  {
    if s != "" && IsBlank(s[0]) then 1 + BlankRun(s[1..]) else 0
  }

  /** `s` starts with three backticks. */
  predicate StartsTicks(s: string) { |s| >= 3 && s[0] == '`' && s[1] == '`' && s[2] == '`' }

  /** `s` starts with three backticks, the word `mermaid` and a line break. */
  predicate StartsMark(s: string) {
    && |s| >= 11 && StartsTicks(s)
    && s[3] == 'm' && s[4] == 'e' && s[5] == 'r' && s[6] == 'm' && s[7] == 'a' && s[8] == 'i' && s[9] == 'd'
    && s[10] == '\n'
  }

  /** `s` starts with ``[ \t]*```mermaid\n``. */
  predicate Opens(s: string) { StartsMark(s[BlankRun(s)..]) }

  /** `s` starts with ``\n[ \t]*``` ``. */
  predicate Closes(s: string) { s != "" && s[0] == '\n' && StartsTicks(s[1..][BlankRun(s[1..])..]) }

  /** Where the first closing fence of `s` starts; the length of `s` if there is none. */
  function FirstClosing(s: string): (c: nat)
    ensures c <= |s|
    ensures c < |s| ==> Closes(s[c..])
  {
    if s == "" || Closes(s) then 0 else 1 + FirstClosing(s[1..])
  }

  /** One match of the fence pattern, cut at its groups: a line break or nothing, the indentation,
      the opening mark, the body and the closing fence with the line break before it. */
  datatype Fence = Fence(lead: string, indent: string, mark: string, body: string, closing: string)

  function FenceText(f: Fence): string { f.lead + BareText(f) }

  function BareText(f: Fence): string { f.indent + (f.mark + (f.body + f.closing)) }

  /** The pattern at the start of `s`; `first` tells whether `^` holds there. */
  function MatchFence(first: bool, s: string): (r: Option<Fence>) {
    if first && Opens(s) then MatchBody("", s)
    else if s != "" && s[0] == '\n' && Opens(s[1..]) then MatchBody(s[..1], s[1..])
    else None
  }

  /** The lazy body: it ends at the first closing fence. */
  function MatchBody(lead: string, s: string): (r: Option<Fence>)
    requires Opens(s)
  {
    var w := BlankRun(s);
    var rest := s[w..][11..];
    var c := FirstClosing(rest);
    if c == |rest| then None
    else Some(Fence(lead, s[..w], s[w..][..11], rest[..c], rest[c..][..4 + BlankRun(rest[c..][1..])]))
  }

  // ----- what a match is -----

  /** No closing fence starts inside the body. */
  predicate Closed(body: string) { forall k | 0 <= k < |body| :: !Closes(body[k..]) }

  predicate IsMark(s: string) { |s| == 11 && StartsMark(s) }

  predicate IsClosing(s: string) { Closes(s) && |s| == 4 + BlankRun(s[1..]) }

  predicate IsLead(s: string) { s == "" || (|s| == 1 && s[0] == '\n') }

  predicate ValidFence(f: Fence) {
    IsLead(f.lead) && Blanks(f.indent) && IsMark(f.mark) && Closed(f.body) && IsClosing(f.closing)
  }

  lemma FenceLength(f: Fence)
    requires ValidFence(f)
    ensures |FenceText(f)| >= 15
    ensures FenceText(f)[|FenceText(f)| - 1] == '`'
    ensures f.lead == "" ==> FenceText(f)[0] != '\n'
    ensures f.lead != "" ==> FenceText(f)[0] == '\n'
  {
    ClosingEnd(f.closing);
    if f.lead == "" {
      assert FenceText(f)[0] == if f.indent == "" then f.mark[0] else f.indent[0];
    }
  }

  lemma ClosingEnd(s: string)
    requires IsClosing(s)
    ensures s[|s| - 1] == '`'
  {
    assert s[1..][BlankRun(s[1..])..][2] == s[|s| - 1];
  }

  lemma Regroup(a: string, b: string, c: string, d: string, z: string)
    ensures a + (b + (c + d)) + z == a + (b + (c + (d + z)))
  {
  }

  lemma Reassemble(s: string, w: nat, c: nat, n: nat)
    requires w + 11 + c + n <= |s|
    ensures var rest := s[w..][11..];
      var x := s[..w] + (s[w..][..11] + (rest[..c] + rest[c..][..n]));
      |x| == w + 11 + c + n && s == x + s[|x|..]
  {
    var y := s[w..];
    var rest := y[11..];
    assert rest == rest[..c] + (rest[c..][..n] + rest[c..][n..]);
    assert y == y[..11] + rest;
    assert s == s[..w] + y;
    Regroup(s[..w], y[..11], rest[..c], rest[c..][..n], rest[c..][n..]);
    assert rest[c..][n..] == s[w + 11 + c + n..];
  }

  lemma OpensFits(s: string)
    requires Opens(s)
    ensures BlankRun(s) + 11 <= |s|
  {
    hide BlankRun;
  }

  lemma HasClosing(lead: string, s: string)
    requires Opens(s) && MatchBody(lead, s).Some? && BlankRun(s) + 11 <= |s|
    ensures var rest := s[BlankRun(s)..][11..];
      FirstClosing(rest) < |rest| && Closes(rest[FirstClosing(rest)..])
  {
    hide BlankRun, Closes;
  }

  lemma BareIs(lead: string, s: string, w: nat, c: nat, n: nat)
    requires Opens(s) && MatchBody(lead, s).Some?
    requires w == BlankRun(s) && w + 11 + c + n <= |s|
    requires var rest := s[w..][11..]; c == FirstClosing(rest) && c < |rest| && n == 4 + BlankRun(rest[c..][1..])
    ensures var rest := s[w..][11..];
      BareText(MatchBody(lead, s).value) == s[..w] + (s[w..][..11] + (rest[..c] + rest[c..][..n]))
  {
    hide BlankRun, Closes, FirstClosing, Opens;
  }

  lemma BodyIsPrefix(lead: string, s: string)
    requires Opens(s) && MatchBody(lead, s).Some?
    ensures var f := MatchBody(lead, s).value;
      |BareText(f)| <= |s| && s == BareText(f) + s[|BareText(f)|..]
  {
    hide *;
    OpensFits(s);
    HasClosing(lead, s);
    var w := BlankRun(s);
    var rest := s[w..][11..];
    var c := FirstClosing(rest);
    MatchedClosing(rest[c..]);
    var n := 4 + BlankRun(rest[c..][1..]);
    BareIs(lead, s, w, c, n);
    Reassemble(s, w, c, n);
  }

  lemma BodyIsValid(lead: string, s: string)
    requires Opens(s) && MatchBody(lead, s).Some? && IsLead(lead)
    ensures ValidFence(MatchBody(lead, s).value) && MatchBody(lead, s).value.lead == lead
  {
    var rest := s[BlankRun(s)..][11..];
    MatchedClosing(rest[FirstClosing(rest)..]);
    BodyIsClosed(rest);
  }

  /** A matched fence is a valid one and stands at the start of the text. */
  lemma MatchIsPrefix(first: bool, s: string)
    requires MatchFence(first, s).Some?
    ensures var f := MatchFence(first, s).value;
      |FenceText(f)| <= |s| && s == FenceText(f) + s[|FenceText(f)|..] && ValidFence(f) && (f.lead == "" ==> first)
  {
    if first && Opens(s) {
      BodyIsPrefix("", s);
      BodyIsValid("", s);
      AddLead("", BareText(MatchFence(first, s).value), s);
    } else {
      BodyIsPrefix(s[..1], s[1..]);
      BodyIsValid(s[..1], s[1..]);
      AddLead(s[..1], BareText(MatchFence(first, s).value), s);
    }
  }

  lemma AddLead(lead: string, x: string, s: string)
    requires |lead| + |x| <= |s| && s[..|lead|] == lead && s[|lead|..] == x + s[|lead|..][|x|..]
    ensures s == (lead + x) + s[|lead + x|..]
  {
    assert s == lead + s[|lead|..];
    assert s[|lead|..][|x|..] == s[|lead| + |x|..];
  }

  lemma MatchedClosing(s: string)
    requires Closes(s)
    ensures |s| >= 4 + BlankRun(s[1..]) && IsClosing(s[..4 + BlankRun(s[1..])])
  {
    var r := s[1..];
    var n := BlankRun(r);
    var x := s[..4 + n];
    assert x[1..] == r[..n] + r[n..][..3];
    RunIsAll(r[..n], r[n..][..3]);
    assert x[1..][n..] == r[n..][..3];
  }

  /** Whether a nonempty text starts with a closing fence is settled before its next line. */
  lemma ClosesIsLocal(s: string, t: string)
    requires s != "" && t != "" && t[0] == '\n'
    ensures Closes(s + t) == Closes(s)
  {
    var r := s[1..];
    assert (s + t)[1..] == r + t;
    RunIsLocal(r, t);
    var n := BlankRun(r);
    assert (r + t)[n..] == r[n..] + t;
  }

  lemma {:induction false} RunIsLocal(s: string, t: string)
    requires t == "" || !IsBlank(t[0])
    ensures BlankRun(s + t) == BlankRun(s)
  {
    if s == "" {
      assert s + t == t;
    } else if IsBlank(s[0]) {
      assert (s + t)[1..] == s[1..] + t;
      RunIsLocal(s[1..], t);
    }
  }

  lemma {:induction false} RunIsAll(s: string, t: string)
    requires Blanks(s) && (t == "" || !IsBlank(t[0]))
    ensures BlankRun(s + t) == |s|
  {
    if s == "" {
      assert s + t == t;
    } else {
      assert (s + t)[1..] == s[1..] + t;
      RunIsAll(s[1..], t);
    }
  }

  lemma {:induction false} ClosingIsFirst(body: string, t: string)
    requires Closed(body) && Closes(t)
    ensures FirstClosing(body + t) == |body|
  {
    if body == "" {
      assert body + t == t;
    } else {
      assert body[0..] == body;
      ClosesIsLocal(body, t);
      assert (body + t)[1..] == body[1..] + t;
      forall k | 0 <= k < |body| - 1 ensures !Closes(body[1..][k..]) {
        assert body[1..][k..] == body[k + 1..];
      }
      ClosingIsFirst(body[1..], t);
    }
  }

  lemma {:induction false} BeforeFirstClosing(s: string, k: nat)
    requires k < FirstClosing(s)
    ensures !Closes(s[k..])
  {
    if k == 0 {
      assert s[0..] == s;
    } else {
      BeforeFirstClosing(s[1..], k - 1);
      assert s[1..][k - 1..] == s[k..];
    }
  }

  lemma BodyClosedAt(s: string, c: nat, k: nat)
    requires k < c <= |s| && !Closes(s[k..])
    requires c < |s| ==> s[c] == '\n'
    ensures !Closes(s[..c][k..])
  {
    hide Closes;
    if c < |s| {
      assert s[k..] == s[..c][k..] + s[c..];
      ClosesIsLocal(s[..c][k..], s[c..]);
    } else {
      assert s[..c] == s;
    }
  }

  lemma BodyIsClosed(s: string)
    ensures Closed(s[..FirstClosing(s)])
  {
    var c := FirstClosing(s);
    forall k | 0 <= k < c ensures !Closes(s[..c][k..]) {
      BeforeFirstClosing(s, k);
      BodyClosedAt(s, c, k);
    }
  }

  /** A valid fence is matched as it is, whatever follows. */
  lemma ValidIsMatched(first: bool, f: Fence, t: string)
    requires ValidFence(f) && (f.lead == "" ==> first)
    ensures MatchFence(first, FenceText(f) + t) == Some(f)
  {
    ValidBodyIsMatched(f, t);
    LeadOff(f.lead, BareText(f), t);
  }

  lemma LeadOff(lead: string, x: string, t: string)
    requires IsLead(lead)
    ensures lead == "" ==> lead + x + t == x + t
    ensures lead != "" ==> var s := lead + x + t;
      s != "" && s[0] == '\n' && s[..1] == lead && s[1..] == x + t && !Opens(s)
  {
  }

  lemma ValidBodyIsMatched(f: Fence, t: string)
    requires ValidFence(f)
    ensures Opens(BareText(f) + t) && MatchBody(f.lead, BareText(f) + t) == Some(f)
  {
    var rest := f.body + (f.closing + t);
    var s := BareText(f) + t;
    Regroup(f.indent, f.mark, f.body, f.closing, t);
    ValidOpens(f.indent, f.mark, rest);
    ClosesStays(f.closing, t);
    ClosingIsFirst(f.body, f.closing + t);
    assert rest[..|f.body|] == f.body && rest[|f.body|..] == f.closing + t;
  }

  lemma ValidOpens(indent: string, mark: string, rest: string)
    requires Blanks(indent) && IsMark(mark)
    ensures var s := indent + (mark + rest);
      && Opens(s) && BlankRun(s) == |indent| && s[..|indent|] == indent
      && s[|indent|..][..11] == mark && s[|indent|..][11..] == rest
  {
    var y := mark + rest;
    var s := indent + y;
    RunIsAll(indent, y);
    assert s[|indent|..] == y;
  }

  lemma ClosesStays(s: string, t: string)
    requires IsClosing(s)
    ensures Closes(s + t) && BlankRun((s + t)[1..]) == |s| - 4 && (s + t)[..|s|] == s
  {
    var r := s[1..];
    var n := BlankRun(r);
    assert (s + t)[1..] == r[..n] + (r[n..] + t);
    RunIsAll(r[..n], r[n..] + t);
    assert (s + t)[1..][n..] == r[n..] + t;
  }

  // ----- a fence, spelled out -----

  /** Spaces and tabs only. */
  predicate OnlyBlanks(s: string) { forall k | 0 <= k < |s| :: s[k] in " \t" }

  /** A closing fence starts in the text, behind `p`. */
  predicate ClosesBehind(s: string, p: string, w: string, rest: string) {
    s == p + ("\n" + (w + ("```" + rest))) && OnlyBlanks(w)
  }

  /** The pattern, group by group. */
  ghost predicate IsBlock(f: Fence, w: string) {
    && f.lead in ["", "\n"] && OnlyBlanks(f.indent) && f.mark == "```mermaid\n"
    && (forall p, u, rest :: !ClosesBehind(f.body, p, u, rest))
    && f.closing == "\n" + (w + "```") && OnlyBlanks(w)
  }

  lemma ClosesSpelled(s: string) returns (w: string, rest: string)
    requires Closes(s)
    ensures ClosesBehind(s, "", w, rest)
  {
    var r := s[1..];
    var n := BlankRun(r);
    w, rest := r[..n], r[n..][3..];
    assert r[n..] == "```" + rest;
    assert r == w + ("```" + rest);
  }

  lemma SpelledCloses(s: string, w: string, rest: string)
    requires ClosesBehind(s, "", w, rest)
    ensures Closes(s)
  {
    var x := "```" + rest;
    assert s[1..] == w + x;
    RunIsAll(w, x);
    assert s[1..][|w|..] == x;
  }

  lemma DropFront(p: string, x: string)
    ensures (p + x)[|p|..] == x && "" + x == x
  {
  }

  lemma ClosedIff(body: string)
    ensures Closed(body) <==> forall p, w, rest :: !ClosesBehind(body, p, w, rest)
  {
    hide Closes, OnlyBlanks;
    if p, w, rest :| ClosesBehind(body, p, w, rest) {
      var x := "\n" + (w + ("```" + rest));
      DropFront(p, x);
      SpelledCloses(x, w, rest);
    }
    if k :| 0 <= k < |body| && Closes(body[k..]) {
      var w, rest := ClosesSpelled(body[k..]);
      DropFront("", "\n" + (w + ("```" + rest)));
      assert body == body[..k] + body[k..];
      assert ClosesBehind(body, body[..k], w, rest);
    }
  }

  lemma ClosingSpelled(s: string) returns (w: string)
    requires IsClosing(s)
    ensures s == "\n" + (w + "```") && OnlyBlanks(w)
  {
    w := s[1..][..BlankRun(s[1..])];
    assert s[1..] == w + "```";
  }

  lemma SpelledIsClosing(w: string)
    requires OnlyBlanks(w)
    ensures IsClosing("\n" + (w + "```"))
  {
    var s := "\n" + (w + "```");
    assert s[1..] == w + "```";
    RunIsAll(w, "```");
    assert s[1..][|w|..] == "```";
  }

  lemma ClosingIff(s: string)
    ensures IsClosing(s) <==> exists w :: s == "\n" + (w + "```") && OnlyBlanks(w)
  {
    hide *;
    if IsClosing(s) {
      var w := ClosingSpelled(s);
    }
    if w :| s == "\n" + (w + "```") && OnlyBlanks(w) {
      SpelledIsClosing(w);
    }
  }

  lemma MarkIff(s: string)
    ensures IsMark(s) <==> s == "```mermaid\n"
  {
    if IsMark(s) {
      assert forall i | 0 <= i < 11 :: s[i] == "```mermaid\n"[i];
    }
  }

  lemma LeadIff(s: string)
    ensures IsLead(s) <==> s in ["", "\n"]
  {
    if |s| == 1 && s[0] == '\n' {
      assert s == "\n";
    }
  }

  lemma BlanksIff(s: string)
    ensures Blanks(s) <==> OnlyBlanks(s)
  {
  }

  /** What is matched, group by group. */
  lemma FenceIs(f: Fence)
    ensures ValidFence(f) <==> exists w :: IsBlock(f, w)
  {
    ClosedIff(f.body);
    ClosingIff(f.closing);
    MarkIff(f.mark);
    LeadIff(f.lead);
    BlanksIff(f.indent);
    hide IsMark, IsLead, Closed, IsClosing, Blanks, OnlyBlanks, ClosesBehind;
    if w :| f.closing == "\n" + (w + "```") && OnlyBlanks(w) && ValidFence(f) {
      assert IsBlock(f, w);
    }
  }
}
