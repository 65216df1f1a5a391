/** Finding where a section of the template file ends: at the next `## ` line that is not inside a
    code fence. Lines end where `str.splitlines` ends them. */
module Sections {
  import opened Basics

  predicate IsBreak(c: char) {
    || '\n' <= c <= '\r' || '\U{1C}' <= c <= '\U{1E}' || c == '\U{85}' || c == '\U{2028}' || c == '\U{2029}'
  }

  /** Length of the first line of `s`, its line break included; `\r\n` is one break. */
  function LineLength(s: string): (n: nat)
    requires s != ""
    ensures 0 < n <= |s|
    ensures n < |s| ==> IsBreak(s[n - 1])
  {
    if s[0] == '\r' && |s| > 1 && s[1] == '\n' then 2
    else if IsBreak(s[0]) || |s| == 1 then 1
    else 1 + LineLength(s[1..])
  }

  /** `s.splitlines(keepends=True)`. */
  function Lines(s: string): seq<string> {
    if s == "" then [] else [s[..LineLength(s)]] + Lines(s[LineLength(s)..])
  }

  function Joined(lines: seq<string>): string {
    if lines == [] then "" else Joined(lines[..|lines| - 1]) + lines[|lines| - 1]
  }

  /** `line.lstrip().startswith("```")`. */
  predicate IsFenceLine(line: string) {
    var x := LStrip(line);
    |x| >= 3 && x[0] == '`' && x[1] == '`' && x[2] == '`'
  }

  /** `line.startswith("## ")`. */
  predicate IsHeader(line: string) { |line| >= 3 && line[0] == '#' && line[1] == '#' && line[2] == ' ' }

  predicate EndsInBreak(line: string) { line != "" && IsBreak(line[|line| - 1]) }

  /** Whether a line after `lines` is inside a fence: an odd number of fence lines is behind it. */
  predicate InFence(lines: seq<string>) {
    lines != [] && InFence(lines[..|lines| - 1]) != IsFenceLine(lines[|lines| - 1])
  }

  /** Line `k` starts a section. */
  predicate IsSection(lines: seq<string>, k: nat)
    requires k < |lines|
  {
    !InFence(lines[..k]) && !IsFenceLine(lines[k]) && IsHeader(lines[k])
  }

  /** Line `k` is the first that starts a section. */
  predicate FirstSection(lines: seq<string>, k: nat) {
    k < |lines| && IsSection(lines, k) && forall j | 0 <= j < k :: !IsSection(lines, j)
  }

  /** The first section line is line `k` of the text behind index `b`, and it follows `r`. */
  predicate Answers(lines: seq<string>, k: nat, b: nat, r: int) {
    FirstSection(lines, k) && r == b + |Joined(lines[..k])|
  }

  ghost predicate Found(lines: seq<string>, b: nat, r: int) {
    exists k: nat :: Answers(lines, k, b, r)
  }

  /** Index of the first line break `\n` at or after `i`, or the end of the text. */
  function FindBreak(s: string, i: nat): (j: nat)
    ensures i < |s| ==> i <= j <= |s|
    ensures i >= |s| ==> j == |s|
    ensures j < |s| ==> s[j] == '\n'
    ensures forall k | i <= k < j :: s[k] != '\n'
    decreases |s| - i
  {
    if i >= |s| then |s| else if s[i] == '\n' then i else FindBreak(s, i + 1)
  }

  lemma {:induction false} JoinedFrom(a: seq<string>, x: string)
    ensures Joined([x] + a) == x + Joined(a)
    decreases |a|
  {
    var all := [x] + a;
    if a == [] {
      assert all[..0] == [];
    } else {
      assert all[..|all| - 1] == [x] + a[..|a| - 1];
      JoinedFrom(a[..|a| - 1], x);
    }
  }

  /** Nothing is lost by splitting. */
  lemma {:induction false} LinesJoin(s: string)
    ensures Joined(Lines(s)) == s
  {
    if s != "" {
      LinesJoin(s[LineLength(s)..]);
      JoinedFrom(Lines(s[LineLength(s)..]), s[..LineLength(s)]);
    }
  }

  /** Every line but the last ends in a line break. */
  lemma {:induction false} LinesBreak(s: string, k: nat)
    requires k + 1 < |Lines(s)|
    ensures EndsInBreak(Lines(s)[k])
  {
    var n := LineLength(s);
    if k == 0 {
      assert n < |s|;
    } else {
      LinesBreak(s[n..], k - 1);
    }
  }

  // ----- what the lines are -----

  /** A line has its break at its end only; `\r\n` is one break. */
  predicate IsLine(line: string) {
    line != "" && forall i | 0 <= i < |line| - 1 :: IsBreak(line[i]) ==> line[i..] == "\r\n"
  }

  /** `x` ends where `y` begins: behind a break, and not in the middle of a `\r\n`. */
  predicate Parted(x: string, y: string) {
    EndsInBreak(x) && y != "" && !(x[|x| - 1] == '\r' && y[0] == '\n')
  }

  predicate AreLines(lines: seq<string>) {
    && (forall k | 0 <= k < |lines| :: IsLine(lines[k]))
    && (forall k | 1 <= k < |lines| :: Parted(lines[k - 1], lines[k]))
  }

  lemma {:induction false} FirstLineIs(s: string)
    requires s != ""
    ensures IsLine(s[..LineLength(s)])
    ensures LineLength(s) < |s| ==> Parted(s[..LineLength(s)], s[LineLength(s)..])
  {
    var n := LineLength(s);
    if n > 1 && s[..2] != "\r\n" {
      FirstLineIs(s[1..]);
      var x, y := s[..n], s[1..][..n - 1];
      forall i | 0 <= i < n - 1 && IsBreak(x[i]) ensures x[i..] == "\r\n" {
        assert y[i - 1] == x[i] && y[i - 1..] == x[i..];
      }
      assert s[n..] == s[1..][n - 1..];
    }
  }

  lemma {:induction false} LengthOfLine(line: string, rest: string)
    requires IsLine(line) && (rest == "" || Parted(line, rest))
    ensures LineLength(line + rest) == |line|
  {
    var s := line + rest;
    if |line| > 1 {
      assert IsBreak(line[0]) ==> line[0..] == "\r\n";
      if !IsBreak(line[0]) {
        assert s[1..] == line[1..] + rest;
        assert forall i | 0 <= i < |line| - 2 :: line[1..][i] == line[i + 1] && line[1..][i..] == line[i + 1..];
        LengthOfLine(line[1..], rest);
      }
    }
  }

  lemma LinesHead(lines: seq<string>)
    requires lines != []
    ensures Joined(lines) == lines[0] + Joined(lines[1..])
  {
    JoinedFrom(lines[1..], lines[0]);
    assert [lines[0]] + lines[1..] == lines;
  }

  lemma {:induction false} LinesAreLines(s: string)
    ensures AreLines(Lines(s))
  {
    if s != "" {
      var n := LineLength(s);
      FirstLineIs(s);
      LinesAreLines(s[n..]);
      if n < |s| {
        HeadIsParted(s, Lines(s[n..]));
      }
      hide IsLine, LineLength;
      var lines, rest := Lines(s), Lines(s[n..]);
      assert lines[0] == s[..n] && lines[1..] == rest;
      assert forall k | 1 <= k < |lines| :: lines[k] == rest[k - 1];
    }
  }

  lemma HeadIsParted(s: string, rest: seq<string>)
    requires s != "" && rest == Lines(s[LineLength(s)..]) && rest != []
    requires LineLength(s) < |s| ==> Parted(s[..LineLength(s)], s[LineLength(s)..])
    ensures Parted(s[..LineLength(s)], rest[0])
  {
  }

  lemma {:induction false} LinesAreUnique(lines: seq<string>)
    requires AreLines(lines)
    ensures Lines(Joined(lines)) == lines
  {
    if lines != [] {
      var s, line, rest := Joined(lines), lines[0], Joined(lines[1..]);
      LinesHead(lines);
      if |lines| > 1 {
        LinesHead(lines[1..]);
        assert Parted(lines[0], lines[1]);
      }
      LengthOfLine(line, rest);
      LinesAreUnique(lines[1..]);
      assert s[..|line|] == line && s[|line|..] == rest;
    }
  }

  /** The split is the only one into lines. */
  lemma SplitIff(s: string, lines: seq<string>)
    ensures lines == Lines(s) <==> Joined(lines) == s && AreLines(lines)
  {
    hide *;
    LinesJoin(s);
    LinesAreLines(s);
    if AreLines(lines) {
      LinesAreUnique(lines);
    }
  }

  /** The characters `str.splitlines` knows. */
  lemma BreaksAre(c: char)
    ensures IsBreak(c) <==> c in "\n\U{0B}\U{0C}\r\U{1C}\U{1D}\U{1E}\U{85}\U{2028}\U{2029}"
  {
  }

  /** What a heading and a fence line look like. */
  lemma MarksAre(line: string)
    ensures IsHeader(line) <==> exists rest :: line == "## " + rest
    ensures IsFenceLine(line) <==> exists pad, rest :: Spaces(pad) && line == pad + ("```" + rest)
  {
    if IsHeader(line) {
      assert line == "## " + line[3..];
    }
    if IsFenceLine(line) {
      var pad := LStripParts(line);
      assert LStrip(line) == "```" + LStrip(line)[3..];
    }
    if pad, rest :| Spaces(pad) && line == pad + ("```" + rest) {
      SpaceOver(pad, "```" + rest);
    }
  }

  lemma {:induction false} JoinedSplit(lines: seq<string>, k: nat)
    requires k < |lines|
    ensures var n := |Joined(lines[..k])|;
      n + |lines[k]| <= |Joined(lines)| && Joined(lines)[n..][..|lines[k]|] == lines[k]
    ensures |Joined(lines[..k])| <= |Joined(lines)| && Joined(lines)[..|Joined(lines[..k])|] == Joined(lines[..k])
    decreases |lines|
  {
    var init := lines[..|lines| - 1];
    if k < |init| {
      JoinedSplit(init, k);
      assert init[..k] == lines[..k];
      var n := |Joined(lines[..k])|;
      assert Joined(lines) == Joined(init) + lines[|lines| - 1];
      assert Joined(lines)[n..][..|lines[k]|] == Joined(init)[n..][..|lines[k]|];
    }
  }

  /** The result is the line break before the first section line that follows, or -1 if there is
      none. */
  method FindNextSectionOutsideFence(content: string, searchStart: nat) returns (r: int)
    ensures FindBreak(content, searchStart) == |content| ==> r == -1
    ensures FindBreak(content, searchStart) < |content| ==>
      var b := FindBreak(content, searchStart);
      var lines := Lines(content[b + 1..]);
      if r == -1 then forall k | 0 <= k < |lines| :: !IsSection(lines, k)
      else Found(lines, b, r)
    ensures r == -1 || (0 <= r < |content| && IsBreak(content[r]) && IsHeader(content[r + 1..]))
  {
    hide IsFenceLine, IsHeader, IsBreak, Lines;
    var firstNewline := FindBreak(content, searchStart);
    if firstNewline == |content| {
      return -1;
    }
    var inFence := false;
    var offset := firstNewline + 1;
    var lines := Lines(content[offset..]);
    for k := 0 to |lines|
      invariant inFence == InFence(lines[..k])
      invariant offset == firstNewline + 1 + |Joined(lines[..k])|
      invariant forall j | 0 <= j < k :: !IsSection(lines, j)
    {
      var line := lines[k];
      var lineOffset := offset;
      offset := offset + |line|;
      assert lines[..k + 1][..k] == lines[..k];
      if IsFenceLine(line) {
        inFence := !inFence;
        continue;
      }
      if inFence {
        continue;
      }
      if IsHeader(line) {
        assert Answers(lines, k, firstNewline, lineOffset - 1);
        SectionStart(content, firstNewline, lines, k);
        return lineOffset - 1;
      }
    }
    assert lines[..|lines|] == lines;
    return -1;
  }

  lemma SectionStart(content: string, b: nat, lines: seq<string>, k: nat)
    requires b < |content| && content[b] == '\n' && lines == Lines(content[b + 1..])
    requires k < |lines| && IsHeader(lines[k])
    ensures var r := b + |Joined(lines[..k])|;
      r < |content| && IsBreak(content[r]) && IsHeader(content[r + 1..])
  {
    var s := content[b + 1..];
    LinesJoin(s);
    JoinedSplit(lines, k);
    var n := |Joined(lines[..k])|;
    assert content[b + n + 1..] == s[n..];
    HeaderAhead(s[n..], lines[k]);
    if k > 0 {
      LinesBreak(s, k - 1);
      LastOfJoined(lines, k);
      assert content[b + n] == s[n - 1];
    }
  }

  lemma HeaderAhead(s: string, line: string)
    requires |line| <= |s| && s[..|line|] == line && IsHeader(line)
    ensures IsHeader(s)
  {
  }

  lemma LastOfJoined(lines: seq<string>, k: nat)
    requires 0 < k < |lines| && lines[k - 1] != ""
    ensures 0 < |Joined(lines[..k])| <= |Joined(lines)|
    ensures Joined(lines)[|Joined(lines[..k])| - 1] == lines[k - 1][|lines[k - 1]| - 1]
  {
    JoinedSplit(lines, k);
    var p := Joined(lines[..k]);
    assert lines[..k][..k - 1] == lines[..k - 1] && lines[..k][k - 1] == lines[k - 1];
    assert p == Joined(lines[..k - 1]) + lines[k - 1];
    assert Joined(lines)[..|p|][|p| - 1] == p[|p| - 1];
  }

  // ----- what the documentation says the index points at -----

  predicate EndsInNewline(line: string) { line != "" && line[|line| - 1] == '\n' }

  /** Line `k` starts a section and has the character `\n` right before it, as documented; line 0 stands
      behind the `\n` at which the scan begins. */
  predicate IsDocumented(lines: seq<string>, k: nat)
    requires k < |lines|
  {
    IsSection(lines, k) && (k > 0 ==> EndsInNewline(lines[k - 1]))
  }

  predicate FirstDocumented(lines: seq<string>, k: nat) {
    k < |lines| && IsDocumented(lines, k) && forall j | 0 <= j < k :: !IsDocumented(lines, j)
  }

  /** The index is that of the first documented section. */
  predicate DocumentedAnswer(lines: seq<string>, b: nat, r: int) {
    exists k | 0 <= k < |lines| :: FirstDocumented(lines, k) && r == b + |Joined(lines[..k])|
  }

  /** The character at the index is a `\n` exactly if the line before the heading ends in one. */
  lemma PointsAtNewlineIff(content: string, b: nat, k: nat, r: int)
    requires b < |content| && content[b] == '\n' && Answers(Lines(content[b + 1..]), k, b, r)
    ensures 0 <= r < |content|
    ensures content[r] == '\n' <==> (k > 0 ==> EndsInNewline(Lines(content[b + 1..])[k - 1]))
  {
    var s := content[b + 1..];
    var lines := Lines(s);
    LinesJoin(s);
    SectionStart(content, b, lines, k);
    if k > 0 {
      LinesBreak(s, k - 1);
      LastOfJoined(lines, k);
      assert content[r] == s[r - b - 1];
    } else {
      assert lines[..0] == [];
    }
  }

  lemma {:induction false} JoinedGrows(lines: seq<string>, j: nat, k: nat)
    requires j <= k <= |lines|
    ensures |Joined(lines[..j])| <= |Joined(lines[..k])|
    ensures j < k && lines[j] != "" ==> |Joined(lines[..j])| < |Joined(lines[..k])|
    decreases k
  {
    if j < k {
      JoinedGrows(lines, j, k - 1);
      assert lines[..k][..k - 1] == lines[..k - 1] && lines[..k][k - 1] == lines[k - 1];
    }
  }

  /** The index returned is the documented one exactly if it points at a `\n`. */
  lemma AsDocumentedIff(content: string, b: nat, k: nat, r: int)
    requires b < |content| && content[b] == '\n' && Answers(Lines(content[b + 1..]), k, b, r)
    ensures 0 <= r < |content|
    ensures DocumentedAnswer(Lines(content[b + 1..]), b, r) <==> content[r] == '\n'
  {
    var lines := Lines(content[b + 1..]);
    PointsAtNewlineIff(content, b, k, r);
    hide Lines, IsFenceLine, InFence, EndsInNewline;
    assert IsHeader(lines[k]);
    if k > 0 ==> EndsInNewline(lines[k - 1]) {
      assert FirstDocumented(lines, k);
    }
    if DocumentedAnswer(lines, b, r) {
      var m :| 0 <= m < |lines| && FirstDocumented(lines, m) && r == b + |Joined(lines[..m])|;
      JoinedGrows(lines, k, m);
      assert m == k;
    }
  }

  lemma HeadingLine()
    ensures Lines("## c") == ["## c"] && IsHeader("## c") && !IsFenceLine("## c")
  {
    var s := "## c";
    assert LineLength(s[3..]) == 1;
    assert LineLength(s[2..]) == 2 by { assert s[2..][1..] == s[3..]; }
    assert LineLength(s[1..]) == 3 by { assert s[1..][1..] == s[2..]; }
    assert LineLength(s) == 4;
    assert s[..4] == s && s[4..] == "";
  }

  lemma CarriageReturnLines()
    ensures Lines("b\r## c") == ["b\r", "## c"] && !IsFenceLine("b\r")
  {
    var s := "b\r## c";
    HeadingLine();
    assert LineLength(s) == 2 by { assert LineLength(s[1..]) == 1; }
    assert s[2..] == "## c" && s[..2] == "b\r";
  }

  /** A heading behind a lone carriage return: the index is that of the carriage return. */
  lemma CarriageReturnHeading()
    ensures FindBreak("a\nb\r## c", 0) == 1
    ensures Answers(Lines("b\r## c"), 1, 1, 3) && "a\nb\r## c"[3] == '\r'
  {
    CarriageReturnLines();
    HeadingLine();
    hide Lines, IsFenceLine;
    var lines := ["b\r", "## c"];
    assert lines[..0] == [] && lines[..1] == [lines[0]] && lines[..1][..0] == [];
    assert Joined(lines[..1]) == "b\r";
    assert FindBreak("a\nb\r## c", 1) == 1;
  }
}
