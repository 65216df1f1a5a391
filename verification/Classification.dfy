/** What decides the class of a mermaid body: the word its first line begins with and, for flow
    charts, the subgraphs it has. */
module Classification {
  import opened Annotation
  import opened Basics

  /** A keyword: not empty and without white space. */
  predicate IsKeyword(s: string) { s != "" && forall k | 0 <= k < |s| :: !IsSpace(s[k]) }

  lemma {:induction false} KeywordOnFirstLine(kw: string, rest: string)
    requires forall k | 0 <= k < |kw| :: !IsSpace(kw[k])
    ensures kw <= FirstLine(kw + rest)
  {
    if kw != "" {
      assert (kw + rest)[1..] == kw[1..] + rest;
      KeywordOnFirstLine(kw[1..], rest);
    }
  }

  lemma {:induction false} TrimKeepsKeyword(kw: string, line: string)
    requires IsKeyword(kw) && kw <= line
    ensures kw <= RStrip(line)
    decreases |line|
  {
    if IsSpace(line[|line| - 1]) {
      assert |kw| < |line| by { assert !IsSpace(kw[|kw| - 1]); assert line[|kw| - 1] == kw[|kw| - 1]; }
      TrimKeepsKeyword(kw, line[..|line| - 1]);
    }
  }

  /** The line the classifier looks at. */
  function Head(body: string): string { Strip(FirstLine(LStrip(body))) }

  /** Leading white space and line breaks are ignored, and the keyword stands first. */
  lemma HeadHasKeyword(pad: string, kw: string, rest: string)
    requires Spaces(pad) && IsKeyword(kw)
    ensures kw <= Head(pad + (kw + rest))
  {
    SpaceOver(pad, kw + rest);
    assert (kw + rest)[0] == kw[0];
    KeywordOnFirstLine(kw, rest);
    var line := FirstLine(kw + rest);
    assert line[0] == kw[0];
    TrimKeepsKeyword(kw, line);
  }

  lemma {:induction false} FirstLinePrefix(s: string)
    ensures FirstLine(s) <= s
  {
    if s != "" && s[0] != '\n' {
      FirstLinePrefix(s[1..]);
    }
  }

  /** The body begins with the word, white space before it aside. */
  predicate BeginsWith(body: string, pad: string, kw: string, rest: string) {
    Spaces(pad) && body == pad + (kw + rest)
  }

  lemma HeadIsAhead(kw: string, body: string) returns (pad: string, rest: string)
    requires IsKeyword(kw) && kw <= Head(body)
    ensures BeginsWith(body, pad, kw, rest)
  {
    pad := LStripParts(body);
    var x := LStrip(body);
    var line := FirstLine(x);
    FirstLinePrefix(x);
    assert line != "" ==> line[0] == x[0] && LStrip(line) == line;
    var b := RStripParts(line);
    assert kw <= x;
    rest := x[|kw|..];
  }

  lemma NotBoth(p: string, q: string, s: string, i: nat)
    requires p <= s && i < |p| && i < |q| && p[i] != q[i]
    ensures !(q <= s)
  {
  }

  /** `\bsubgraph\s+Phase` occurs: the body is cut into what stands before it, the gap and the rest. */
  ghost predicate HasPhase(word: char -> bool, body: string) {
    exists a, gap, b :: PhaseCut(word, body, a, gap, b)
  }

  ghost predicate PhaseCut(word: char -> bool, body: string, a: string, gap: string, b: string) {
    body == a + ("subgraph" + (gap + ("Phase" + b))) && Spaces(gap) && gap != "" && (a == "" || !word(a[|a| - 1]))
  }

  /** `\bsubgraph\b` occurs. */
  ghost predicate HasSubgraph(word: char -> bool, body: string) {
    exists a, b :: SubgraphCut(word, body, a, b)
  }

  ghost predicate SubgraphCut(word: char -> bool, body: string, a: string, b: string) {
    body == a + ("subgraph" + b) && (a == "" || !word(a[|a| - 1])) && (b == "" || !word(b[0]))
  }

  lemma PhaseIff(word: char -> bool, body: string)
    ensures PhaseSubgraph(word, body) <==> HasPhase(word, body)
  {
    if PhaseSubgraph(word, body) {
      PhaseFound(word, body);
    }
    if HasPhase(word, body) {
      var a, gap, b :| PhaseCut(word, body, a, gap, b);
      PhaseIsFound(word, body, a, gap, b);
    }
  }

  lemma CutAt(word: string, s: string, i: nat)
    requires i <= |s| && word <= s[i..]
    ensures s == s[..i] + (word + s[i..][|word|..])
    ensures i == 0 ==> s == word + s[|word|..]
  {
  }

  lemma PhaseFoundAt(word: char -> bool, body: string, i: nat)
    requires i <= |body| && SubgraphAt(word, body, i)
    requires body[i..][8..] != "" && IsSpace(body[i..][8..][0]) && "Phase" <= LStrip(body[i..][8..])
    ensures HasPhase(word, body)
  {
    hide IsSpace, LStrip;
    var rest := body[i..][8..];
    var gap := LStripParts(rest);
    var tail := LStrip(rest);
    assert tail[0..] == tail;
    CutAt("Phase", tail, 0);
    CutAt("subgraph", body, i);
    assert PhaseCut(word, body, body[..i], gap, tail[5..]);
  }

  lemma PhaseFound(word: char -> bool, body: string)
    requires PhaseSubgraph(word, body)
    ensures HasPhase(word, body)
  {
    var i: nat :| i <= |body| && SubgraphAt(word, body, i)
      && body[i..][8..] != "" && IsSpace(body[i..][8..][0]) && "Phase" <= LStrip(body[i..][8..]);
    PhaseFoundAt(word, body, i);
  }

  lemma PhaseIsFound(word: char -> bool, body: string, a: string, gap: string, b: string)
    requires PhaseCut(word, body, a, gap, b)
    ensures PhaseSubgraph(word, body)
  {
    var rest := gap + ("Phase" + b);
    assert body[|a|..] == "subgraph" + rest;
    assert body[|a|..][8..] == rest;
    SpaceOver(gap, "Phase" + b);
    assert SubgraphAt(word, body, |a|);
  }

  lemma SubgraphIsFound(word: char -> bool, body: string, a: string, b: string)
    requires SubgraphCut(word, body, a, b)
    ensures AnySubgraph(word, body)
  {
    assert body[|a|..] == "subgraph" + b;
    assert body[|a|..][8..] == b;
    assert SubgraphAt(word, body, |a|);
  }

  lemma SubgraphFoundAt(word: char -> bool, body: string, i: nat)
    requires i <= |body| && SubgraphAt(word, body, i) && (body[i..][8..] == "" || !word(body[i..][8..][0]))
    ensures HasSubgraph(word, body)
  {
    CutAt("subgraph", body, i);
    assert SubgraphCut(word, body, body[..i], body[i..][8..]);
  }

  lemma SubgraphFound(word: char -> bool, body: string)
    requires AnySubgraph(word, body)
    ensures HasSubgraph(word, body)
  {
    var i: nat :| i <= |body| && SubgraphAt(word, body, i) && (body[i..][8..] == "" || !word(body[i..][8..][0]));
    SubgraphFoundAt(word, body, i);
  }

  lemma SubgraphIff(word: char -> bool, body: string)
    ensures AnySubgraph(word, body) <==> HasSubgraph(word, body)
  {
    if AnySubgraph(word, body) {
      SubgraphFound(word, body);
    }
    if HasSubgraph(word, body) {
      var a, b :| SubgraphCut(word, body, a, b);
      SubgraphIsFound(word, body, a, b);
    }
  }

  // ----- the table of keywords -----

  datatype Kind = Sequence | ClassDiagram | EntityRelation | StateDiagram | MindMap | Gantt | FlowChart | Graph

  function Keyword(kind: Kind): string {
    match kind
    case Sequence => "sequenceDiagram"
    case ClassDiagram => "classDiagram"
    case EntityRelation => "erDiagram"
    case StateDiagram => "stateDiagram"
    case MindMap => "mindmap"
    case Gantt => "gantt"
    case FlowChart => "flowchart"
    case Graph => "graph"
  }

  /** What a body of this kind is: flow charts are told apart by their subgraphs. */
  ghost function CodeOf(word: char -> bool, kind: Kind, body: string): string {
    match kind
    case Sequence => "D-SEQ"
    case ClassDiagram => "D-CLASS"
    case EntityRelation => "D-CLASS"
    case StateDiagram => "D-STATE"
    case MindMap => "D-MIND"
    case Gantt => "D-GANTT"
    case FlowChart => FlowCode(word, body)
    case Graph => FlowCode(word, body)
  }

  ghost function FlowCode(word: char -> bool, body: string): string {
    if HasPhase(word, body) then "D-DAG" else if HasSubgraph(word, body) then "D-ARCH" else "D-DECISION"
  }

  /** The first place in which two keywords differ. */
  function DifferAt(kind: Kind, other: Kind): nat {
    match (kind, other)
    case (Sequence, StateDiagram) => 1
    case (StateDiagram, Sequence) => 1
    case (Gantt, Graph) => 1
    case (Graph, Gantt) => 1
    case _ => 0
  }

  lemma KeywordsDiffer(kind: Kind, other: Kind)
    requires kind != other
    ensures var i := DifferAt(kind, other);
      i < |Keyword(kind)| && i < |Keyword(other)| && Keyword(kind)[i] != Keyword(other)[i]
  {
  }

  /** No two keywords start the same line. */
  lemma OneKeyword(kind: Kind, other: Kind, line: string)
    requires kind != other && Keyword(kind) <= line
    ensures !(Keyword(other) <= line)
  {
    KeywordsDiffer(kind, other);
    NotBoth(Keyword(kind), Keyword(other), line, DifferAt(kind, other));
  }

  /** The classifier with its keywords named. */
  ghost function ByKeywords(word: char -> bool, body: string, line: string): Option<string> {
    if Keyword(Sequence) <= line then Some("D-SEQ")
    else if Keyword(ClassDiagram) <= line then Some("D-CLASS")
    else if Keyword(EntityRelation) <= line then Some("D-CLASS")
    else if Keyword(StateDiagram) <= line then Some("D-STATE")
    else if Keyword(MindMap) <= line then Some("D-MIND")
    else if Keyword(Gantt) <= line then Some("D-GANTT")
    else if Keyword(FlowChart) <= line || Keyword(Graph) <= line then
      Some(if PhaseSubgraph(word, body) then "D-DAG" else if AnySubgraph(word, body) then "D-ARCH" else "D-DECISION")
    else None
  }

  lemma ClassifyNamed(word: char -> bool, body: string)
    ensures Classify(word, body) == ByKeywords(word, body, Head(body))
  {
  }

  lemma HeadDecides(word: char -> bool, kind: Kind, body: string)
    requires Keyword(kind) <= Head(body)
    ensures Classify(word, body) == Some(CodeOf(word, kind, body))
  {
    ClassifyNamed(word, body);
    PhaseIff(word, body);
    SubgraphIff(word, body);
    forall other | other != kind ensures !(Keyword(other) <= Head(body)) {
      OneKeyword(kind, other, Head(body));
    }
    hide Classify, PhaseSubgraph, AnySubgraph, HasPhase, HasSubgraph, Head, Keyword;
  }

  lemma KeywordsAreWords(kind: Kind)
    ensures IsKeyword(Keyword(kind))
  {
    match kind
    case Sequence =>
    case ClassDiagram =>
    case EntityRelation =>
    case StateDiagram =>
    case MindMap =>
    case Gantt =>
    case FlowChart =>
    case Graph =>
  }

  /** The keyword decides: a body that begins with it has the code of its kind, whatever white space
      is before it and whatever follows. */
  lemma KeywordDecides(word: char -> bool, kind: Kind, body: string, pad: string, rest: string)
    requires BeginsWith(body, pad, Keyword(kind), rest)
    ensures Classify(word, body) == Some(CodeOf(word, kind, body))
  {
    KeywordsAreWords(kind);
    HeadHasKeyword(pad, Keyword(kind), rest);
    HeadDecides(word, kind, body);
  }

  lemma NoHeadNoCode(word: char -> bool, body: string)
    ensures Classify(word, body).None? <==> forall kind :: !(Keyword(kind) <= Head(body))
  {
    hide Classify, PhaseSubgraph, AnySubgraph, Head, Keyword, CodeOf;
    ClassifyNamed(word, body);
    if kind :| Keyword(kind) <= Head(body) {
      HeadDecides(word, kind, body);
    }
  }

  /** A body is left without a code exactly if it begins with none of the keywords. */
  lemma UnclassifiedIff(word: char -> bool, body: string)
    ensures Classify(word, body).None? <==> forall kind, pad, rest :: !BeginsWith(body, pad, Keyword(kind), rest)
  {
    hide *;
    NoHeadNoCode(word, body);
    if kind, pad, rest :| BeginsWith(body, pad, Keyword(kind), rest) {
      KeywordDecides(word, kind, body, pad, rest);
    }
    if kind :| Keyword(kind) <= Head(body) {
      KeywordsAreWords(kind);
      var pad, rest := HeadIsAhead(Keyword(kind), body);
    }
  }
}
