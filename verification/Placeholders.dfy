/** The last pass of variable replacement: delete every `\{\{[^}]+\}\}`, leftmost first and
    without overlaps. One pass does not always leave a text free of placeholders; what is
    proved is exactly when it does. */
module Placeholders {

  /** Index of the first `}` of `s` at or after `i`, or the end of `s`. */
  function NextClose(s: string, i: nat): (j: nat)
    requires i <= |s|
    ensures i <= j <= |s|
    ensures j < |s| ==> s[j] == '}'
    ensures forall k | i <= k < j :: s[k] != '}'
    decreases |s| - i
  {
    if i == |s| || s[i] == '}' then i else NextClose(s, i + 1)
  }

  /** The text `[i..e)` of `s` has the form `{{X}}`, X not empty and without `}`. */
  predicate Spans(s: string, i: nat, e: nat) {
    && i + 5 <= e <= |s|
    && s[i] == '{' && s[i + 1] == '{'
    && (forall k | i + 2 <= k < e - 2 :: s[k] != '}')
    && s[e - 2] == '}' && s[e - 1] == '}'
  }

  ghost predicate HasPlaceholder(s: string) {
    exists i: nat, e: nat :: Spans(s, i, e)
  }

  /** Length of the match of the pattern at the very start of `s`; 0 if there is none. */
  function MatchLength(s: string): (n: nat)
    ensures n <= |s|
    ensures n > 0 ==> n >= 5
  {
    if |s| < 2 || s[0] != '{' || s[1] != '{' then 0
    else
      var j := NextClose(s, 2);
      if 2 < j && j + 1 < |s| && s[j + 1] == '}' then j + 2 else 0
  }

  /** `re.sub(r'\{\{[^}]+\}\}', '', s)`. */
  function StripPass(s: string): string {
    if s == "" then ""
    else if MatchLength(s) > 0 then StripPass(s[MatchLength(s)..])
    else [s[0]] + StripPass(s[1..])
  }

  /** What is left of `s` after the placeholders standing directly at its start. */
  function SkipMatches(s: string): (r: string)
    ensures |r| <= |s|
    ensures MatchLength(r) == 0
  {
    if MatchLength(s) > 0 then SkipMatches(s[MatchLength(s)..]) else s
  }

  /** `s` starts with a torn placeholder: `{{X}`, then one or more whole placeholders, then `}`. */
  predicate Torn(s: string) {
    && |s| >= 2 && s[0] == '{' && s[1] == '{'
    && var j := NextClose(s, 2);
    && 2 < j < |s|
    && var rest := SkipMatches(s[j + 1..]);
    && |rest| < |s| - j - 1
    && rest != "" && rest[0] == '}'
  }

  ghost predicate HasTorn(s: string) {
    exists i: nat :: i <= |s| && Torn(s[i..])
  }

  /** A match at the start is a span from 0, and the other way round. */
  lemma MatchIsSpan(s: string)
    ensures MatchLength(s) > 0 <==> exists e: nat :: Spans(s, 0, e)
    ensures MatchLength(s) > 0 ==> Spans(s, 0, MatchLength(s))
  {
    if MatchLength(s) > 0 {
      assert Spans(s, 0, MatchLength(s));
    }
    forall e: nat | Spans(s, 0, e)
      ensures MatchLength(s) == e
    {
      assert NextClose(s, 2) == e - 2;
    }
  }

  lemma SpansShift(s: string, n: nat, i: nat, e: nat)
    requires n <= i && n <= |s|
    ensures Spans(s, i, e) <==> n <= e && Spans(s[n..], i - n, e - n)
  {
    if n <= e <= |s| && i + 5 <= e {
      assert forall k | n <= k < |s| :: s[k] == s[n..][k - n];
      assert forall k | 0 <= k < |s| - n :: s[n..][k] == s[n + k];
    }
  }

  lemma HasStep(s: string)
    requires s != ""
    ensures HasPlaceholder(s) <==> MatchLength(s) > 0 || HasPlaceholder(s[1..])
  {
    MatchIsSpan(s);
    if HasPlaceholder(s) {
      var i: nat, e: nat :| Spans(s, i, e);
      if i > 0 {
        SpansShift(s, 1, i, e);
      }
    }
    if HasPlaceholder(s[1..]) {
      var i: nat, e: nat :| Spans(s[1..], i, e);
      SpansShift(s, 1, i + 1, e + 1);
    }
  }

  lemma HasTornStep(s: string)
    requires s != ""
    ensures HasTorn(s) <==> Torn(s) || HasTorn(s[1..])
  {
    if HasTorn(s) {
      var i: nat :| i <= |s| && Torn(s[i..]);
      if i > 0 {
        assert s[i..] == s[1..][i - 1..];
      } else {
        assert s[i..] == s;
      }
    }
    if Torn(s) {
      assert s[0..] == s;
    }
    if HasTorn(s[1..]) {
      var i: nat :| i <= |s[1..]| && Torn(s[1..][i..]);
      assert s[i + 1..] == s[1..][i..];
    }
  }

  // ----- what one pass removes -----

  /** A piece of a text: one character that stays, or a placeholder that goes. */
  datatype Piece = Stays(c: char) | Goes(text: string)

  function TextOf(ps: seq<Piece>): string {
    if ps == [] then ""
    else (match ps[0] case Stays(c) => [c] case Goes(text) => text) + TextOf(ps[1..])
  }

  function LeftOf(ps: seq<Piece>): string {
    if ps == [] then ""
    else (match ps[0] case Stays(c) => [c] case Goes(_) => "") + LeftOf(ps[1..])
  }

  /** What goes is a placeholder, `{{`, something without `}`, `}}`, and where a character stays no
      placeholder starts. */
  ghost predicate Cut(ps: seq<Piece>) {
    ps != [] ==>
      && Cut(ps[1..])
      && match ps[0]
         case Goes(text) => Spans(text, 0, |text|)
         case Stays(_) => forall e: nat :: !Spans(TextOf(ps), 0, e)
  }

  lemma SpanAlone(s: string, n: nat)
    requires Spans(s, 0, n)
    ensures Spans(s[..n], 0, n)
  {
  }

  ghost predicate AreCut(ps: seq<Piece>, s: string, left: string) {
    TextOf(ps) == s && LeftOf(ps) == left && Cut(ps)
  }

  lemma GoesFirst(x: string, ps: seq<Piece>, s: string, left: string)
    requires AreCut(ps, s, left) && Spans(x, 0, |x|)
    ensures AreCut([Goes(x)] + ps, x + s, left)
  {
    hide Spans;
    assert ([Goes(x)] + ps)[1..] == ps;
  }

  lemma StaysFirst(c: char, ps: seq<Piece>, s: string, left: string)
    requires AreCut(ps, s, left) && forall e: nat :: !Spans([c] + s, 0, e)
    ensures AreCut([Stays(c)] + ps, [c] + s, [c] + left)
  {
    hide Spans;
    var all := [Stays(c)] + ps;
    assert all[1..] == ps;
    assert TextOf(all) == [c] + s;
    assert Cut(all) == (Cut(ps) && forall e: nat :: !Spans(TextOf(all), 0, e));
  }

  lemma MatchGoes(s: string) returns (x: string, rest: string)
    requires MatchLength(s) > 0
    ensures s == x + rest && Spans(x, 0, |x|) && StripPass(s) == StripPass(rest) && |rest| < |s|
  {
    var n := MatchLength(s);
    MatchIsSpan(s);
    SpanAlone(s, n);
    x, rest := s[..n], s[n..];
  }

  lemma CharacterStays(s: string) returns (rest: string)
    requires s != "" && MatchLength(s) == 0
    ensures s == [s[0]] + rest && (forall e: nat :: !Spans(s, 0, e)) && StripPass(s) == [s[0]] + StripPass(rest)
  {
    MatchIsSpan(s);
    rest := s[1..];
  }

  /** One pass takes out the placeholders it meets from left to right, and leaves every other character. */
  lemma {:induction false} StripRemoves(s: string) returns (ps: seq<Piece>)
    ensures TextOf(ps) == s && LeftOf(ps) == StripPass(s) && Cut(ps)
    decreases |s|
  {
    if s == "" {
      ps := [];
    } else if MatchLength(s) > 0 {
      hide Cut, TextOf, LeftOf, Spans, StripPass, MatchLength;
      var x, rest := MatchGoes(s);
      ps := StripRemoves(rest);
      GoesFirst(x, ps, rest, StripPass(rest));
      ps := [Goes(x)] + ps;
    } else {
      hide Cut, TextOf, LeftOf, Spans, StripPass, MatchLength;
      var rest := CharacterStays(s);
      ps := StripRemoves(rest);
      StaysFirst(s[0], ps, rest, StripPass(rest));
      ps := [Stays(s[0])] + ps;
    }
  }

  /** Stripping sees nothing of the placeholders standing at the start. */
  lemma {:induction false} StripSkips(s: string)
    ensures StripPass(s) == StripPass(SkipMatches(s))
  {
    if MatchLength(s) > 0 {
      StripSkips(s[MatchLength(s)..]);
    }
  }

  /** Positions at which nothing matches are copied. */
  lemma {:induction false} NoMatchIsCopied(s: string, n: nat)
    requires n <= |s|
    requires forall i | 0 <= i < n :: MatchLength(s[i..]) == 0
    ensures StripPass(s) == s[..n] + StripPass(s[n..])
    decreases n
  {
    hide MatchLength;
    if n > 0 {
      assert s[0..] == s;
      forall i | 0 <= i < n - 1 ensures MatchLength(s[1..][i..]) == 0 {
        assert s[1..][i..] == s[i + 1..];
      }
      NoMatchIsCopied(s[1..], n - 1);
      assert s[1..][n - 1..] == s[n..];
      assert s[..n] == [s[0]] + s[1..][..n - 1];
    }
  }

  /** If a placeholder starts between `{{` and the next `}`, then the `{{` opens one too. */
  lemma OpeningWidens(s: string, i: nat)
    requires |s| >= 2 && s[0] == '{' && s[1] == '{'
    requires i < NextClose(s, 2) && MatchLength(s[i..]) > 0
    ensures MatchLength(s) > 0
  {
    var e := MatchLength(s[i..]);
    MatchIsSpan(s[i..]);
    MatchIsSpan(s);
    SpansShift(s, i, i, i + e);
    var j := NextClose(s, 2);
    assert j == i + e - 2;
    assert Spans(s, 0, i + e);
  }

  lemma OpeningFails(s: string, i: nat)
    requires |s| >= 2 && s[0] == '{' && s[1] == '{' && MatchLength(s) == 0
    requires i < NextClose(s, 2)
    ensures MatchLength(s[i..]) == 0
  {
    if MatchLength(s[i..]) > 0 {
      OpeningWidens(s, i);
    }
  }

  /** The start of the output is a placeholder exactly if the start of the input is torn. */
  lemma StripStart(s: string)
    requires s != "" && MatchLength(s) == 0
    ensures MatchLength(StripPass(s)) > 0 <==> Torn(s)
  {
    var t := StripPass(s);
    assert t == [s[0]] + StripPass(s[1..]);
    if |s| >= 2 && s[0] == '{' && s[1] == '{' {
      StripOpening(s);
    } else if |s| >= 2 && s[0] == '{' {
      assert MatchLength(s[1..]) == 0;
      assert t == [s[0], s[1]] + StripPass(s[1..][1..]);
    }
  }

  /** An opening that fails is copied up to its first `}`. */
  lemma StripOpening(s: string)
    requires |s| >= 2 && s[0] == '{' && s[1] == '{' && MatchLength(s) == 0
    ensures MatchLength(StripPass(s)) > 0 <==> Torn(s)
  {
    var j := NextClose(s, 2);
    forall i | 0 <= i < j ensures MatchLength(s[i..]) == 0 {
      OpeningFails(s, i);
    }
    NoMatchIsCopied(s, j);
    if j == |s| {
      assert StripPass(s) == s;
    } else {
      assert MatchLength(s[j..]) == 0 && s[j..][1..] == s[j + 1..];
      StripSkips(s[j + 1..]);
      SkipIsProper(s[j + 1..]);
      StripTear(s, j, SkipMatches(s[j + 1..]));
    }
  }

  lemma StripTear(s: string, j: nat, rest: string)
    requires |s| >= 2 && s[0] == '{' && s[1] == '{' && MatchLength(s) == 0
    requires j == NextClose(s, 2) < |s|
    requires rest == SkipMatches(s[j + 1..])
    requires |rest| == |s| - j - 1 ==> rest == s[j + 1..]
    requires StripPass(s) == s[..j] + ("}" + StripPass(rest))
    ensures MatchLength(StripPass(s)) > 0 <==> Torn(s)
  {
    var t := StripPass(s);
    CloseOf(t, j);
    assert rest == "" || StripPass(rest) == [rest[0]] + StripPass(rest[1..]);
    assert |t| == j + 1 + |StripPass(rest)|;
    if rest != "" {
      assert t[j + 1] == rest[0];
    }
  }

  lemma CloseOf(s: string, j: nat)
    requires 2 <= j < |s| && s[j] == '}' && forall k | 2 <= k < j :: s[k] != '}'
    ensures NextClose(s, 2) == j
  {
  }

  lemma {:induction false} SkipIsProper(s: string)
    ensures |SkipMatches(s)| == |s| ==> SkipMatches(s) == s
  {
  }

  /** Nothing torn starts inside a placeholder. */
  lemma MatchIsNotTorn(s: string, i: nat)
    requires i < MatchLength(s)
    ensures !Torn(s[i..])
  {
    var e := MatchLength(s);
    var u := s[i..];
    if |u| >= 2 && u[0] == '{' && u[1] == '{' {
      assert i < e - 2;
      CloseOf(u, e - 2 - i);
      assert u[e - 1 - i..][0] == '}';
      SkipIsProper(u[e - 1 - i..]);
    }
  }

  lemma {:induction false} TornAfterMatch(s: string, n: nat)
    requires n <= MatchLength(s)
    ensures HasTorn(s) <==> HasTorn(s[n..])
    decreases n
  {
    if n == 0 {
      assert s[0..] == s;
    } else {
      TornAfterMatch(s, n - 1);
      MatchIsNotTorn(s, n - 1);
      HasTornStep(s[n - 1..]);
      assert s[n - 1..][1..] == s[n..];
    }
  }

  /** One pass leaves a placeholder exactly if the text contains a torn one. */
  lemma {:induction false} StripComplete(s: string)
    ensures HasPlaceholder(StripPass(s)) <==> HasTorn(s)
  {
    if s == "" {
      assert !Torn(s[0..]);
    } else if MatchLength(s) > 0 {
      StripComplete(s[MatchLength(s)..]);
      TornAfterMatch(s, MatchLength(s));
    } else {
      StripComplete(s[1..]);
      StripStart(s);
      HasStep(StripPass(s));
      HasTornStep(s);
    }
  }

  // ----- a torn placeholder, spelled out -----

  function Flat(ps: seq<string>): string {
    if ps == [] then "" else ps[0] + Flat(ps[1..])
  }

  predicate AllSpan(ps: seq<string>) {
    forall i | 0 <= i < |ps| :: Spans(ps[i], 0, |ps[i]|)
  }

  /** `{{X}`, the placeholders `ps` and `}`, and the rest. */
  predicate IsTorn(s: string, x: string, ps: seq<string>, rest: string) {
    && s == "{{" + (x + ("}" + (Flat(ps) + ("}" + rest))))
    && x != "" && '}' !in x
    && ps != [] && AllSpan(ps)
  }

  lemma SpanIsMatched(p: string, t: string)
    requires Spans(p, 0, |p|)
    ensures MatchLength(p + t) == |p| && (p + t)[|p|..] == t
  {
    CloseOf(p + t, |p| - 2);
  }

  lemma FlatMore(p: string, ps: seq<string>)
    ensures Flat([p] + ps) == p + Flat(ps)
  {
    assert ([p] + ps)[1..] == ps;
  }

  lemma OneMorePart(x: string, ps: seq<string>, r: string)
    requires Spans(x, 0, |x|) && AllSpan(ps)
    ensures AllSpan([x] + ps) && x + (Flat(ps) + r) == Flat([x] + ps) + r
  {
    hide Spans;
    FlatMore(x, ps);
  }

  lemma {:induction false} SkipParts(s: string) returns (ps: seq<string>)
    ensures s == Flat(ps) + SkipMatches(s) && AllSpan(ps)
  {
    var n := MatchLength(s);
    if n == 0 {
      ps := [];
    } else {
      hide Spans, Flat, AllSpan, MatchLength;
      ps := SkipParts(s[n..]);
      MatchIsSpan(s);
      SpanAlone(s, n);
      OneMorePart(s[..n], ps, SkipMatches(s[n..]));
      assert s == s[..n] + s[n..];
      ps := [s[..n]] + ps;
    }
  }

  lemma {:induction false} FlatIsSkipped(ps: seq<string>, t: string)
    requires AllSpan(ps) && t != "" && t[0] == '}'
    ensures SkipMatches(Flat(ps) + t) == t
  {
    if ps == [] {
      assert Flat(ps) + t == t;
    } else {
      var u := Flat(ps[1..]) + t;
      assert Flat(ps) + t == ps[0] + u;
      SpanIsMatched(ps[0], u);
      FlatIsSkipped(ps[1..], t);
    }
  }

  lemma TornParts(s: string) returns (x: string, ps: seq<string>, rest: string)
    requires Torn(s)
    ensures IsTorn(s, x, ps, rest)
  {
    hide NextClose, SkipMatches, Spans;
    var j := NextClose(s, 2);
    x := s[2..j];
    var u := SkipMatches(s[j + 1..]);
    ps := SkipParts(s[j + 1..]);
    rest := u[1..];
    assert u == "}" + rest;
    assert s == "{{" + (x + ("}" + s[j + 1..]));
  }

  lemma OpenAndClosed(x: string, u: string)
    requires '}' !in x
    ensures var s := "{{" + (x + ("}" + u));
      |s| >= 2 && s[0] == '{' && s[1] == '{' && NextClose(s, 2) == 2 + |x| < |s| && s[3 + |x|..] == u
  {
    var s := "{{" + (x + ("}" + u));
    assert forall k | 2 <= k < 2 + |x| :: s[k] == x[k - 2];
    CloseOf(s, 2 + |x|);
  }

  lemma PartsAreTorn(s: string, x: string, ps: seq<string>, rest: string)
    requires IsTorn(s, x, ps, rest)
    ensures Torn(s)
  {
    hide NextClose, SkipMatches;
    OpenAndClosed(x, Flat(ps) + ("}" + rest));
    FlatIsSkipped(ps, "}" + rest);
    assert |Flat(ps)| >= |ps[0]|;
  }

  /** A text is torn at its start exactly if it begins with `{{X}`, one or more placeholders and `}`. */
  lemma TornIff(s: string)
    ensures Torn(s) <==> exists x, ps, rest :: IsTorn(s, x, ps, rest)
  {
    hide *;
    if Torn(s) {
      var x, ps, rest := TornParts(s);
    }
    if x, ps, rest :| IsTorn(s, x, ps, rest) {
      PartsAreTorn(s, x, ps, rest);
    }
  }

  /** A text for which one pass is not enough: it deletes `{{d}}` and so joins the two closing
      braces of the placeholder around it. */
  lemma StripIsNotComplete()
    ensures HasPlaceholder(StripPass("{{abc}{{d}}}"))
  {
    var s, u := "{{abc}{{d}}}", "{{d}}}";
    CloseOf(s, 5);
    assert s[6..] == u;
    CloseOf(u, 3);
    assert MatchLength(u) == 5 && u[5..] == "}";
    assert Torn(s[0..]);
    StripComplete(s);
  }

  /** Text without braces can stand in for other such text in the middle of a placeholder. */
  lemma PlainSwap(a: string, u: string, v: string, b: string)
    requires u != "" && forall k | 0 <= k < |u| :: u[k] != '{' && u[k] != '}'
    requires v != "" && forall k | 0 <= k < |v| :: v[k] != '{' && v[k] != '}'
    requires HasPlaceholder(a + u + b)
    ensures HasPlaceholder(a + v + b)
  {
    var s, t := a + u + b, a + v + b;
    var i: nat, e: nat :| Spans(s, i, e);
    var m, n := |a| + |u|, |a| + |v|;
    assert forall k | 0 <= k < |a| :: s[k] == a[k] && t[k] == a[k];
    assert forall k | |a| <= k < m :: s[k] == u[k - |a|];
    assert forall k | |a| <= k < n :: t[k] == v[k - |a|];
    assert forall k | m <= k < |s| :: s[k] == b[k - m];
    assert forall k | n <= k < |t| :: t[k] == b[k - n];
    if e <= |a| {
      assert Spans(t, i, e);
    } else if m <= i {
      forall k | i - m + n + 2 <= k < e - m + n - 2 ensures t[k] != '}' {
        assert t[k] == s[k + m - n];
      }
      assert Spans(t, i - m + n, e - m + n);
    } else {
      assert i + 1 < |a| && m <= e - 2;
      forall k | i + 2 <= k < e - m + n - 2 ensures t[k] != '}' {
        assert n <= k ==> t[k] == s[k + m - n];
      }
      assert Spans(t, i, e - m + n);
    }
  }

  /** Exchanging one brace-free stretch for another neither makes nor breaks a placeholder. */
  lemma PlainSwapIff(a: string, u: string, v: string, b: string)
    requires u != "" && forall k | 0 <= k < |u| :: u[k] != '{' && u[k] != '}'
    requires v != "" && forall k | 0 <= k < |v| :: v[k] != '{' && v[k] != '}'
    ensures HasPlaceholder(a + u + b) <==> HasPlaceholder(a + v + b)
  {
    if HasPlaceholder(a + u + b) { PlainSwap(a, u, v, b); }
    if HasPlaceholder(a + v + b) { PlainSwap(a, v, u, b); }
  }
}
