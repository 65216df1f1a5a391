/** Every check of the guard, told from the fields of the result: when it is reported, when it is
    severe, and under which stage and name. */
module Checks {
  import opened Basics
  import opened Schema
  import opened Guard

  /** Some finding of this check is a severe one. */
  predicate ReportsSevere(findings: seq<Warning>, check: CheckId) {
    exists i | 0 <= i < |findings| :: findings[i].checkId == check && findings[i].severity == Severe
  }

  lemma SevereIdsAre(findings: seq<Warning>, check: CheckId)
    ensures check in SevereIds(findings) <==> ReportsSevere(findings, check)
  {
  }

  /** Every finding names the stage and the subagent. */
  predicate Named(findings: seq<Warning>, stage: string, subagent: string) {
    forall i | 0 <= i < |findings| :: findings[i].stage == stage && findings[i].subagent == subagent
  }

  /** Two lists of findings, one behind the other. */
  lemma Both(a: seq<Warning>, b: seq<Warning>, check: CheckId, stage: string, subagent: string)
    ensures Reports(a + b, check) <==> Reports(a, check) || Reports(b, check)
    ensures ReportsSevere(a + b, check) <==> ReportsSevere(a, check) || ReportsSevere(b, check)
    ensures Named(a, stage, subagent) && Named(b, stage, subagent) ==> Named(a + b, stage, subagent)
  {
    ReportsConcat(a, b, check);
    if i :| 0 <= i < |a| && a[i].checkId == check && a[i].severity == Severe {
      assert (a + b)[i] == a[i];
    }
    if i :| 0 <= i < |b| && b[i].checkId == check && b[i].severity == Severe {
      assert (a + b)[|a| + i] == b[i];
    }
  }

  lemma FlagReports(raised: bool, w: Warning, check: CheckId)
    ensures Reports(Flag(raised, w), check) <==> raised && w.checkId == check
    ensures ReportsSevere(Flag(raised, w), check) <==> raised && w.checkId == check && w.severity == Severe
    ensures Named(Flag(raised, w), w.stage, w.subagent)
  {
    if raised {
      assert Flag(raised, w)[0] == w;
    }
  }

  // ----- the claims held against the files -----

  /** The claim under this key cannot be proved: no file is registered for it, or the file is not there,
      or it has another digest than the one that is claimed. */
  predicate Unproved(w: World, key: string, claim: Claim, paths: map<string, string>) {
    match claim
    case NotAClaim => false
    case Claim(sha256) =>
      || key !in paths || paths[key] == "" || paths[key] !in w.disk
      || (sha256 != "" && sha256 != w.sha(w.disk[paths[key]]))
  }

  /** A file is registered for it, and it is not there. */
  predicate Missing(w: World, key: string, claim: Claim, paths: map<string, string>) {
    claim.Claim? && key in paths && paths[key] != "" && paths[key] !in w.disk
  }

  lemma ProofReported(w: World, key: string, claim: Claim, paths: map<string, string>, stage: Stage, subagent: string,
      check: CheckId)
    ensures var f := VerifyOne(w, key, claim, paths, stage, subagent);
      && (Reports(f, check) <==> check == G5_PROVE && Unproved(w, key, claim, paths))
      && (ReportsSevere(f, check) <==> check == G5_PROVE && Missing(w, key, claim, paths))
      && Named(f, StageValue(stage), subagent) && |f| <= 1
  {
    hide StageValue;
    var f := VerifyOne(w, key, claim, paths, stage, subagent);
    assert f != [] ==> f[0].checkId == G5_PROVE;
  }

  predicate AnyUnproved(w: World, updates: seq<(string, Claim)>, paths: map<string, string>) {
    exists i | 0 <= i < |updates| :: Unproved(w, updates[i].0, updates[i].1, paths)
  }

  predicate AnyMissing(w: World, updates: seq<(string, Claim)>, paths: map<string, string>) {
    exists i | 0 <= i < |updates| :: Missing(w, updates[i].0, updates[i].1, paths)
  }

  lemma AnyMore(w: World, updates: seq<(string, Claim)>, paths: map<string, string>)
    requires updates != []
    ensures var n := |updates| - 1;
      && (AnyUnproved(w, updates, paths)
          <==> AnyUnproved(w, updates[..n], paths) || Unproved(w, updates[n].0, updates[n].1, paths))
      && (AnyMissing(w, updates, paths)
          <==> AnyMissing(w, updates[..n], paths) || Missing(w, updates[n].0, updates[n].1, paths))
  {
    hide Unproved, Missing;
    var n := |updates| - 1;
    assert forall i | 0 <= i < n :: updates[..n][i] == updates[i];
  }

  lemma {:induction false} ProofsReported(w: World, updates: seq<(string, Claim)>, paths: map<string, string>, stage: Stage,
      subagent: string, check: CheckId)
    ensures var f := VerifyFindings(w, updates, paths, stage, subagent);
      && (Reports(f, check) <==> check == G5_PROVE && AnyUnproved(w, updates, paths))
      && (ReportsSevere(f, check) <==> check == G5_PROVE && AnyMissing(w, updates, paths))
      && Named(f, StageValue(stage), subagent)
  {
    if updates != [] {
      var n := |updates| - 1;
      var (key, claim) := updates[n];
      var a, b := VerifyFindings(w, updates[..n], paths, stage, subagent), VerifyOne(w, key, claim, paths, stage, subagent);
      assert VerifyFindings(w, updates, paths, stage, subagent) == a + b;
      hide *;
      ProofsReported(w, updates[..n], paths, stage, subagent, check);
      ProofReported(w, key, claim, paths, stage, subagent, check);
      Both(a, b, check, StageValue(stage), subagent);
      AnyMore(w, updates, paths);
    }
  }

  // ----- all checks -----

  predicate HasStatus(r: SubagentResult)
    requires !r.NotADict?
  {
    r.status.Some? && (r.status.value == "done" || r.status.value == "blocked" || r.status.value == "needs_input")
  }

  /** The result calls for a finding of this check. `stage` is the text of the stage it was dispatched
      in. */
  ghost predicate Fails(w: World, r: SubagentResult, stage: string, expected: seq<string>, paths: map<string, string>,
      check: CheckId)
  {
    match check
    case G1 => r.NotADict? || !HasStatus(r)
    case G3 => r.SubagentResult? && r.stage.Some? && r.stage.value != stage
    case G4 =>
      && r.SubagentResult? && r.gate.Some? && r.gate.value.passed == Some(false)
      && r.status.Some? && r.status.value != "blocked" && r.status.value != "needs_input"
    case G5_DECL =>
      && r.SubagentResult?
      && exists a | a in expected ::
           r.artifactUpdates.None? || forall i | 0 <= i < |r.artifactUpdates.value| :: r.artifactUpdates.value[i].0 != a
    case G5_PROVE =>
      && r.SubagentResult? && r.artifactUpdates.Some?
      && AnyUnproved(w, r.artifactUpdates.value, paths)
    case G6 => r.SubagentResult? && !Quotable(r.phaseSummary)
    case _ => false
  }

  /** ... and it is a reason not to trust the result. */
  ghost predicate FailsBadly(w: World, r: SubagentResult, stage: string, paths: map<string, string>, check: CheckId) {
    match check
    case G1 => r.NotADict? || !HasStatus(r)
    case G3 => r.SubagentResult? && r.stage.Some? && r.stage.value != stage
    case G5_PROVE => r.SubagentResult? && r.artifactUpdates.Some? && AnyMissing(w, r.artifactUpdates.value, paths)
    case _ => false
  }

  lemma StatusReported(r: SubagentResult, stage: string, subagent: string, check: CheckId)
    requires !r.NotADict?
    ensures var f := StatusFindings(r, stage, subagent);
      && (Reports(f, check) <==>
          (check == G1 && !HasStatus(r)) || (check == G3 && r.stage.Some? && r.stage.value != stage))
      && (ReportsSevere(f, check) <==> Reports(f, check))
      && Named(f, stage, subagent)
  {
    var a, b := Flag(!ValidStatus(r.status), Warning(stage, subagent, G1, Severe)),
                Flag(StageDrift(r, stage), Warning(stage, subagent, G3, Severe));
    FlagReports(!ValidStatus(r.status), Warning(stage, subagent, G1, Severe), check);
    FlagReports(StageDrift(r, stage), Warning(stage, subagent, G3, Severe), check);
    assert ValidStatus(r.status) <==> HasStatus(r);
    assert StageDrift(r, stage) <==> r.stage.Some? && r.stage.value != stage;
    assert StatusFindings(r, stage, subagent) == a + b;
    hide *;
    Both(a, b, check, stage, subagent);
  }

  lemma GateReports(r: SubagentResult, stage: string, subagent: string, check: CheckId)
    requires !r.NotADict?
    ensures var f := GateFindings(r, stage, subagent);
      && (Reports(f, check) <==> (
            && check == G4 && r.gate.Some? && r.gate.value.passed == Some(false)
            && r.status.Some? && r.status.value != "blocked" && r.status.value != "needs_input"))
      && !ReportsSevere(f, check) && Named(f, stage, subagent)
  {
    var w := Warning(stage, subagent, G4, Minor);
    var x := r.status == Some("done") && DeniesGate(r);
    var y := DeniesGate(r) && r.status !in [None, Some("blocked"), Some("needs_input")];
    FlagReports(x, w, check);
    FlagReports(y, w, check);
    assert GateFindings(r, stage, subagent) == Flag(x, w) + Flag(y, w);
    assert x || y <==>
      && r.gate.Some? && r.gate.value.passed == Some(false)
      && r.status.Some? && r.status.value != "blocked" && r.status.value != "needs_input";
    hide *;
    Both(Flag(x, w), Flag(y, w), check, stage, subagent);
  }

  lemma HandoffReports(p: Option<PhaseSummary>, stage: string, subagent: string, check: CheckId)
    ensures var f := HandoffFindings(p, stage, subagent);
      && (Reports(f, check) <==> check == G6 && !Quotable(p))
      && !ReportsSevere(f, check) && Named(f, stage, subagent)
  {
    QuotableIff(p);
    hide Quotable, Strip;
    var f := HandoffFindings(p, stage, subagent);
    assert f != [] ==> f[0].checkId == G6;
  }

  lemma MissesIff(r: SubagentResult, expected: seq<string>)
    requires r.SubagentResult?
    ensures MissesExpected(r, expected) <==>
      exists a | a in expected ::
        r.artifactUpdates.None? || forall i | 0 <= i < |r.artifactUpdates.value| :: r.artifactUpdates.value[i].0 != a
  {
    var u := Updates(r);
    forall a ensures !Names(u, a) <==>
      r.artifactUpdates.None? || forall i | 0 <= i < |r.artifactUpdates.value| :: r.artifactUpdates.value[i].0 != a
    {
    }
  }

  lemma DeclaredSplits(r: SubagentResult, stage: string, expected: seq<string>, subagent: string, check: CheckId)
    requires r.SubagentResult?
    ensures
      var f := AntiDropFindings(r, stage, expected, subagent);
      var a, b := StatusFindings(r, stage, subagent), GateFindings(r, stage, subagent);
      var c := Flag(MissesExpected(r, expected), Warning(stage, subagent, G5_DECL, Minor));
      var d := HandoffFindings(r.phaseSummary, stage, subagent);
      && (Reports(f, check) <==> Reports(a, check) || Reports(b, check) || Reports(c, check) || Reports(d, check))
      && (ReportsSevere(f, check) <==>
            ReportsSevere(a, check) || ReportsSevere(b, check) || ReportsSevere(c, check) || ReportsSevere(d, check))
      && (Named(a, stage, subagent) && Named(b, stage, subagent) && Named(c, stage, subagent) && Named(d, stage, subagent)
          ==> Named(f, stage, subagent))
  {
    var a, b := StatusFindings(r, stage, subagent), GateFindings(r, stage, subagent);
    var c := Flag(MissesExpected(r, expected), Warning(stage, subagent, G5_DECL, Minor));
    var d := HandoffFindings(r.phaseSummary, stage, subagent);
    assert AntiDropFindings(r, stage, expected, subagent) == a + b + c + d;
    hide *;
    Both(a, b, check, stage, subagent);
    Both(a + b, c, check, stage, subagent);
    Both(a + b + c, d, check, stage, subagent);
  }

  lemma DeclaredReported(r: SubagentResult, stage: string, expected: seq<string>, subagent: string, w: World,
      paths: map<string, string>, check: CheckId)
    requires r.SubagentResult?
    ensures var f := AntiDropFindings(r, stage, expected, subagent);
      && (Reports(f, check) <==> check != G5_PROVE && Fails(w, r, stage, expected, paths, check))
      && (ReportsSevere(f, check) <==> check != G5_PROVE && FailsBadly(w, r, stage, paths, check))
      && Named(f, stage, subagent)
  {
    hide Reports, ReportsSevere, Named, AntiDropFindings, StatusFindings, GateFindings, HandoffFindings, MissesExpected,
      Quotable, AnyUnproved, AnyMissing, HasStatus, Flag;
    DeclaredSplits(r, stage, expected, subagent, check);
    StatusReported(r, stage, subagent, check);
    GateReports(r, stage, subagent, check);
    FlagReports(MissesExpected(r, expected), Warning(stage, subagent, G5_DECL, Minor), check);
    HandoffReports(r.phaseSummary, stage, subagent, check);
    MissesIff(r, expected);
  }

  /** The whole guard on any result, check by check: what is reported and what is severe, under the text
      of the stage and the name of the subagent. Nothing but these six checks is ever reported. */
  lemma AllReported(w: World, r: SubagentResult, expected: seq<string>, paths: map<string, string>, stage: Stage,
      subagent: string, check: CheckId)
    ensures var f := AllFindings(w, r, expected, paths, stage, subagent);
      && (Reports(f, check) <==> Fails(w, r, StageValue(stage), expected, paths, check))
      && (ReportsSevere(f, check) <==> FailsBadly(w, r, StageValue(stage), paths, check))
      && Named(f, StageValue(stage), subagent)
  {
    var a := AntiDropFindings(r, StageValue(stage), expected, subagent);
    var b := VerifyFindings(w, Updates(r), paths, stage, subagent);
    ProofsReported(w, Updates(r), paths, stage, subagent, check);
    if r.NotADict? {
      FlagReports(true, Warning(StageValue(stage), subagent, G1, Severe), check);
    } else {
      DeclaredReported(r, StageValue(stage), expected, subagent, w, paths, check);
    }
    hide Reports, ReportsSevere, Named, AntiDropFindings, VerifyFindings, Quotable, HasStatus, Unproved, Missing, StageValue;
    Both(a, b, check, StageValue(stage), subagent);
  }

  // ----- how often, and in which order -----

  function Copies(w: Warning, n: nat): (f: seq<Warning>)
    ensures |f| == n && forall i | 0 <= i < n :: f[i] == w
  {
    seq(n, _ => w)
  }

  /** The note breaks both rules at once: more than one line, and too long. */
  predicate TwiceWrong(note: string, a: string, q: string, b: string) {
    && note == a + q + b && Spaces(a) && Spaces(b)
    && q != "" && !IsSpace(q[0]) && !IsSpace(q[|q| - 1])
    && ('\n' in q || '\r' in q) && |q| > 280
  }

  /** Each check is reported once, but for two: a denied gate under "done" breaks both forms of its
      rule, and a note may break both of its own. */
  ghost function Times(w: World, r: SubagentResult, stage: string, expected: seq<string>, paths: map<string, string>,
      check: CheckId): nat
  {
    if !Fails(w, r, stage, expected, paths, check) then 0
    else if check == G4 && r.status == Some("done") then 2
    else if check == G6 && r.phaseSummary.Some? && exists a, q, b :: TwiceWrong(r.phaseSummary.value.handoffNote, a, q, b) then 2
    else 1
  }

  lemma FlagCopies(raised: bool, w: Warning)
    ensures Flag(raised, w) == Copies(w, if raised then 1 else 0)
  {
  }

  lemma CopiesAdd(w: Warning, m: nat, n: nat)
    ensures Copies(w, m) + Copies(w, n) == Copies(w, m + n)
  {
  }

  lemma TwiceWrongIff(note: string)
    ensures (exists a, q, b :: TwiceWrong(note, a, q, b)) <==>
      var s := Strip(note); s != "" && ('\n' in s || '\r' in s) && |s| > 280
  {
    var a, b := StripParts(note);
    var s := Strip(note);
    if s != "" && ('\n' in s || '\r' in s) && |s| > 280 {
      assert TwiceWrong(note, a, s, b);
    }
    if c, q, d :| TwiceWrong(note, c, q, d) {
      StripOf(c, q, d);
    }
  }

  lemma HandoffCopies(p: Option<PhaseSummary>, stage: string, subagent: string)
    ensures HandoffFindings(p, stage, subagent) == Copies(Warning(stage, subagent, G6, Minor),
      if Quotable(p) then 0
      else if p.Some? && exists a, q, b :: TwiceWrong(p.value.handoffNote, a, q, b) then 2 else 1)
  {
    QuotableIff(p);
    if p.Some? {
      TwiceWrongIff(p.value.handoffNote);
    }
    hide Quotable, Strip, TwiceWrong;
  }

  lemma GateCopies(w: World, r: SubagentResult, stage: string, expected: seq<string>, paths: map<string, string>,
      subagent: string)
    requires r.SubagentResult?
    ensures GateFindings(r, stage, subagent)
      == Copies(Warning(stage, subagent, G4, Minor), Times(w, r, stage, expected, paths, G4))
  {
  }

  lemma OnceEach(w: World, r: SubagentResult, stage: string, expected: seq<string>, paths: map<string, string>)
    requires r.SubagentResult?
    ensures Times(w, r, stage, expected, paths, G1) == if ValidStatus(r.status) then 0 else 1
    ensures Times(w, r, stage, expected, paths, G3) == if StageDrift(r, stage) then 1 else 0
    ensures Times(w, r, stage, expected, paths, G5_DECL) == if MissesExpected(r, expected) then 1 else 0
  {
    MissesIff(r, expected);
    hide MissesExpected, TwiceWrong;
  }

  lemma NoteIsDue(w: World, r: SubagentResult, stage: string, expected: seq<string>, paths: map<string, string>)
    requires r.SubagentResult?
    ensures Times(w, r, stage, expected, paths, G6) ==
      if Quotable(r.phaseSummary) then 0
      else if r.phaseSummary.Some? && exists a, q, b :: TwiceWrong(r.phaseSummary.value.handoffNote, a, q, b) then 2 else 1
  {
    hide Quotable, TwiceWrong;
  }

  /** The declarative findings stand in the order of the checks, each as often as it is due. */
  lemma DeclaredInOrder(w: World, r: SubagentResult, stage: string, expected: seq<string>, paths: map<string, string>,
      subagent: string)
    ensures AntiDropFindings(r, stage, expected, subagent) ==
      Copies(Warning(stage, subagent, G1, Severe), Times(w, r, stage, expected, paths, G1))
      + Copies(Warning(stage, subagent, G3, Severe), Times(w, r, stage, expected, paths, G3))
      + Copies(Warning(stage, subagent, G4, Minor), Times(w, r, stage, expected, paths, G4))
      + Copies(Warning(stage, subagent, G5_DECL, Minor), Times(w, r, stage, expected, paths, G5_DECL))
      + Copies(Warning(stage, subagent, G6, Minor), Times(w, r, stage, expected, paths, G6))
  {
    if r.SubagentResult? {
      FlagCopies(!ValidStatus(r.status), Warning(stage, subagent, G1, Severe));
      FlagCopies(StageDrift(r, stage), Warning(stage, subagent, G3, Severe));
      FlagCopies(MissesExpected(r, expected), Warning(stage, subagent, G5_DECL, Minor));
      OnceEach(w, r, stage, expected, paths);
      GateCopies(w, r, stage, expected, paths, subagent);
      HandoffCopies(r.phaseSummary, stage, subagent);
      assert AntiDropFindings(r, stage, expected, subagent)
        == Flag(!ValidStatus(r.status), Warning(stage, subagent, G1, Severe))
           + Flag(StageDrift(r, stage), Warning(stage, subagent, G3, Severe))
           + GateFindings(r, stage, subagent)
           + Flag(MissesExpected(r, expected), Warning(stage, subagent, G5_DECL, Minor))
           + HandoffFindings(r.phaseSummary, stage, subagent) by {
        hide Flag, GateFindings, HandoffFindings, ValidStatus, StageDrift, MissesExpected;
      }
      NoteIsDue(w, r, stage, expected, paths);
      hide *;
    }
  }
}
