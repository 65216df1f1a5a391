/** The Anti-Drop Guard: the structural checks made on every subagent result before any
    of it reaches the workflow state, and the key under which retries are counted. */
module Guard {
  import opened Basics
  import opened Schema

  const GUARD_RETRY_LIMIT := 1
  const HANDOFF_NOTE_MAX_CHARS := 280

  // ----- the declarative checks -----

  function Flag(raised: bool, w: Warning): seq<Warning> {
    if raised then [w] else []
  }

  predicate ValidStatus(status: Option<string>) {
    status.Some? && status.value in ["done", "blocked", "needs_input"]
  }

  predicate StageDrift(r: SubagentResult, stage: string)
    requires !r.NotADict?
  {
    r.stage.Some? && r.stage.value != stage
  }

  predicate DeniesGate(r: SubagentResult)
    requires !r.NotADict?
  {
    r.gate.Some? && r.gate.value.passed == Some(false)
  }

  /** The `(key, claim)` items of `artifact_updates`, in order; none when it is not a dict. */
  function Updates(r: SubagentResult): seq<(string, Claim)> {
    if r.NotADict? || r.artifactUpdates.None? then [] else r.artifactUpdates.value
  }

  predicate Names(updates: seq<(string, Claim)>, key: string) {
    exists i | 0 <= i < |updates| :: updates[i].0 == key
  }

  predicate MissesExpected(r: SubagentResult, expected: seq<string>) {
    exists a | a in expected :: !Names(Updates(r), a)
  }

  function HandoffFindings(p: Option<PhaseSummary>, stage: string, subagent: string): seq<Warning> {
    var w := Warning(stage, subagent, G6, Minor);
    if p.None? then [w] else
    var note := Strip(p.value.handoffNote);
    if note == "" then [w]
    else Flag('\n' in note || '\r' in note, w) + Flag(|note| > HANDOFF_NOTE_MAX_CHARS, w)
  }

  function StatusFindings(r: SubagentResult, stage: string, subagent: string): seq<Warning>
    requires !r.NotADict?
  {
    Flag(!ValidStatus(r.status), Warning(stage, subagent, G1, Severe))
    + Flag(StageDrift(r, stage), Warning(stage, subagent, G3, Severe))
  }

  function GateFindings(r: SubagentResult, stage: string, subagent: string): seq<Warning>
    requires !r.NotADict?
  {
    var w := Warning(stage, subagent, G4, Minor);
    Flag(r.status == Some("done") && DeniesGate(r), w)
    + Flag(DeniesGate(r) && r.status !in [None, Some("blocked"), Some("needs_input")], w)
  }

  function AntiDropFindings(r: SubagentResult, stage: string, expected: seq<string>, subagent: string): seq<Warning> {
    if r.NotADict? then [Warning(stage, subagent, G1, Severe)] else
    StatusFindings(r, stage, subagent)
    + GateFindings(r, stage, subagent)
    + Flag(MissesExpected(r, expected), Warning(stage, subagent, G5_DECL, Minor))
    + HandoffFindings(r.phaseSummary, stage, subagent)
  }

  method RunAntiDropGuard(r: SubagentResult, stage: string, expected: seq<string>, subagent: string)
    returns (findings: seq<Warning>)
    ensures findings == AntiDropFindings(r, stage, expected, subagent)
  {
    hide HandoffFindings, Quotable, MissesExpected, Updates;
    findings := [];
    if r.NotADict? {
      return [Warning(stage, subagent, G1, Severe)];
    }
    if r.status.None? {
      findings := findings + [Warning(stage, subagent, G1, Severe)];
    } else if r.status.value !in ["done", "blocked", "needs_input"] {
      findings := findings + [Warning(stage, subagent, G1, Severe)];
    }
    if StageDrift(r, stage) {
      findings := findings + [Warning(stage, subagent, G3, Severe)];
    }
    assert findings == StatusFindings(r, stage, subagent);
    if r.gate.Some? {
      var passed := r.gate.value.passed;
      if r.status == Some("done") && passed == Some(false) {
        findings := findings + [Warning(stage, subagent, G4, Minor)];
      }
      if passed == Some(false) && r.status !in [None, Some("blocked"), Some("needs_input")] {
        findings := findings + [Warning(stage, subagent, G4, Minor)];
      }
    }
    assert findings == StatusFindings(r, stage, subagent) + GateFindings(r, stage, subagent);
    ghost var sofar := findings;
    var missing := MissingArtifacts(r, expected);
    if missing != [] {
      findings := findings + [Warning(stage, subagent, G5_DECL, Minor)];
    }
    var handoff := CheckHandoff(r.phaseSummary, stage, subagent);
    findings := findings + handoff;
    assert findings == sofar + Flag(MissesExpected(r, expected), Warning(stage, subagent, G5_DECL, Minor)) + handoff;
  }

  /** The expected keys the result does not name, in order. */
  method MissingArtifacts(r: SubagentResult, expected: seq<string>) returns (missing: seq<string>)
    ensures forall a :: a in missing <==> a in expected && !Names(Updates(r), a)
    ensures missing == [] <==> !MissesExpected(r, expected)
  {
    missing := [];
    for i := 0 to |expected|
      invariant forall a :: a in missing <==> a in expected[..i] && !Names(Updates(r), a)
    {
      if !Names(Updates(r), expected[i]) {
        missing := missing + [expected[i]];
      }
    }
    assert missing != [] ==> missing[0] in missing;
  }

  /** The note is `q` between white space, and `q` can be quoted: not empty, one line, not too long. */
  predicate QuotedAs(note: string, a: string, q: string, b: string) {
    && note == a + q + b && Spaces(a) && Spaces(b)
    && q != "" && !IsSpace(q[0]) && !IsSpace(q[|q| - 1])
    && '\n' !in q && '\r' !in q && |q| <= 280
  }

  /** The summary has a note that can be quoted word for word on one line. */
  ghost predicate Quotable(p: Option<PhaseSummary>) {
    p.Some? && exists a, q, b :: QuotedAs(p.value.handoffNote, a, q, b)
  }

  lemma QuotableIff(p: Option<PhaseSummary>)
    ensures Quotable(p) <==> p.Some? && var note := Strip(p.value.handoffNote);
      note != "" && '\n' !in note && '\r' !in note && |note| <= HANDOFF_NOTE_MAX_CHARS
  {
    if p.Some? {
      var s := p.value.handoffNote;
      var a, b := StripParts(s);
      if Strip(s) != "" && '\n' !in Strip(s) && '\r' !in Strip(s) && |Strip(s)| <= HANDOFF_NOTE_MAX_CHARS {
        assert QuotedAs(s, a, Strip(s), b);
      }
      if c, q, d :| QuotedAs(s, c, q, d) {
        StripOf(c, q, d);
      }
    }
  }

  method CheckHandoff(p: Option<PhaseSummary>, stage: string, subagent: string) returns (findings: seq<Warning>)
    ensures findings == HandoffFindings(p, stage, subagent)
    ensures findings == [] <==> Quotable(p)
    ensures |findings| <= 2 && forall w | w in findings :: w == Warning(stage, subagent, G6, Minor)
  {
    QuotableIff(p);
    findings := [];
    if p.None? {
      findings := [Warning(stage, subagent, G6, Minor)];
    } else {
      var note := Strip(p.value.handoffNote);
      if note == "" {
        findings := [Warning(stage, subagent, G6, Minor)];
      } else {
        if '\n' in note || '\r' in note {
          findings := [Warning(stage, subagent, G6, Minor)];
        }
        if |note| > HANDOFF_NOTE_MAX_CHARS {
          findings := findings + [Warning(stage, subagent, G6, Minor)];
        }
      }
    }
  }

  // ----- the files behind the claims -----

  predicate Registered(paths: map<string, string>, key: string) {
    key in paths && paths[key] != ""
  }

  /** A claim that can be held against a file. */
  predicate Claims(updates: seq<(string, Claim)>, key: string) {
    exists i | 0 <= i < |updates| :: updates[i].0 == key && updates[i].1.Claim?
  }

  function VerifyOne(w: World, key: string, claim: Claim, paths: map<string, string>, stage: Stage, subagent: string)
    : seq<Warning>
  {
    var minor := Warning(StageValue(stage), subagent, G5_PROVE, Minor);
    if claim.NotAClaim? then []
    else if !Registered(paths, key) then [minor]
    else if paths[key] !in w.disk then [minor.(severity := Severe)]
    else Flag(claim.sha256 != "" && claim.sha256 != w.sha(w.disk[paths[key]]), minor)
  }

  function VerifyFindings(w: World, updates: seq<(string, Claim)>, paths: map<string, string>, stage: Stage, subagent: string)
    : seq<Warning>
  {
    if updates == [] then [] else
    var n := |updates| - 1;
    VerifyFindings(w, updates[..n], paths, stage, subagent)
    + VerifyOne(w, updates[n].0, updates[n].1, paths, stage, subagent)
  }

  /** What a result proves about the disk: for every claimed, registered and existing file,
      the digest the orchestrator reads itself.  The subagent's own sha plays no part. */
  function ProvedArtifacts(w: World, updates: seq<(string, Claim)>, paths: map<string, string>, stage: Stage)
    : map<string, ArtifactRef>
  {
    map key | key in paths && Claims(updates, key) && Registered(paths, key) && paths[key] in w.disk ::
      ArtifactRef(paths[key], w.sha(w.disk[paths[key]]), stage)
  }

  lemma ProvedExtend(w: World, updates: seq<(string, Claim)>, i: nat, paths: map<string, string>, stage: Stage)
    requires i < |updates|
    ensures
      var (key, claim) := updates[i];
      ProvedArtifacts(w, updates[..i + 1], paths, stage) ==
      if claim.Claim? && Registered(paths, key) && paths[key] in w.disk
      then ProvedArtifacts(w, updates[..i], paths, stage)[key := ArtifactRef(paths[key], w.sha(w.disk[paths[key]]), stage)]
      else ProvedArtifacts(w, updates[..i], paths, stage)
  {
    var (key, claim) := updates[i];
    var a, b := updates[..i], updates[..i + 1];
    assert b == a + [updates[i]];
    forall k
      ensures Claims(b, k) <==> Claims(a, k) || (k == key && claim.Claim?)
    {
      if k == key && claim.Claim? {
        assert b[i].0 == k && b[i].1.Claim?;
      }
      if Claims(a, k) {
        var j :| 0 <= j < |a| && a[j].0 == k && a[j].1.Claim?;
        assert b[j] == a[j];
      }
    }
  }

  method VerifyAndPersistArtifacts(w: World, r: SubagentResult, paths: map<string, string>, stage: Stage, subagent: string)
    returns (findings: seq<Warning>, artifacts: map<string, ArtifactRef>)
    ensures findings == VerifyFindings(w, Updates(r), paths, stage, subagent)
    ensures artifacts == ProvedArtifacts(w, Updates(r), paths, stage)
  {
    findings, artifacts := [], map[];
    var updates := Updates(r);
    for i := 0 to |updates|
      invariant findings == VerifyFindings(w, updates[..i], paths, stage, subagent)
      invariant artifacts == ProvedArtifacts(w, updates[..i], paths, stage)
    {
      var (key, claim) := updates[i];
      ProvedExtend(w, updates, i, paths, stage);
      assert VerifyFindings(w, updates[..i + 1], paths, stage, subagent)
          == findings + VerifyOne(w, key, claim, paths, stage, subagent) by {
        assert updates[..i + 1][..i] == updates[..i];
      }
      if claim.NotAClaim? {
        continue;
      }
      if !Registered(paths, key) {
        findings := findings + [Warning(StageValue(stage), subagent, G5_PROVE, Minor)];
        continue;
      }
      var path := paths[key];
      if path !in w.disk {
        findings := findings + [Warning(StageValue(stage), subagent, G5_PROVE, Severe)];
        continue;
      }
      var actual := w.sha(w.disk[path]);
      if claim.sha256 != "" && claim.sha256 != actual {
        findings := findings + [Warning(StageValue(stage), subagent, G5_PROVE, Minor)];
      }
      artifacts := artifacts[key := ArtifactRef(path, actual, stage)];
    }
    assert updates[..|updates|] == updates;
  }

  // ----- severity -----

  predicate HasSevere(findings: seq<Warning>) {
    exists i | 0 <= i < |findings| :: findings[i].severity == Severe
  }

  function SevereIds(findings: seq<Warning>): set<CheckId> {
    set i | 0 <= i < |findings| && findings[i].severity == Severe :: findings[i].checkId
  }

  /** `_run_full_guard_check`: both halves of the guard on one result. */
  function AllFindings(w: World, r: SubagentResult, expected: seq<string>, paths: map<string, string>, stage: Stage, subagent: string)
    : seq<Warning>
  {
    AntiDropFindings(r, StageValue(stage), expected, subagent)
    + VerifyFindings(w, Updates(r), paths, stage, subagent)
  }

  /** A claimed, registered file that is not there. */
  predicate MissingFile(w: World, r: SubagentResult, paths: map<string, string>) {
    exists i | 0 <= i < |Updates(r)| ::
      Updates(r)[i].1.Claim? && Registered(paths, Updates(r)[i].0) && paths[Updates(r)[i].0] !in w.disk
  }

  predicate Untrustworthy(w: World, r: SubagentResult, paths: map<string, string>, stage: Stage) {
    || r.NotADict?
    || !ValidStatus(r.status)
    || StageDrift(r, StageValue(stage))
    || MissingFile(w, r, paths)
  }

  lemma SevereConcat(a: seq<Warning>, b: seq<Warning>)
    ensures HasSevere(a + b) <==> HasSevere(a) || HasSevere(b)
  {
    if HasSevere(a) {
      var i :| 0 <= i < |a| && a[i].severity == Severe;
      assert (a + b)[i].severity == Severe;
    }
    if HasSevere(b) {
      var i :| 0 <= i < |b| && b[i].severity == Severe;
      assert (a + b)[|a| + i].severity == Severe;
    }
  }

  lemma {:induction false} VerifySevere(w: World, updates: seq<(string, Claim)>, paths: map<string, string>, stage: Stage,
      subagent: string)
    ensures HasSevere(VerifyFindings(w, updates, paths, stage, subagent)) <==>
            exists i | 0 <= i < |updates| ::
              updates[i].1.Claim? && Registered(paths, updates[i].0) && paths[updates[i].0] !in w.disk
  {
    if updates != [] {
      var n := |updates| - 1;
      var one := VerifyOne(w, updates[n].0, updates[n].1, paths, stage, subagent);
      VerifySevere(w, updates[..n], paths, stage, subagent);
      SevereConcat(VerifyFindings(w, updates[..n], paths, stage, subagent), one);
      assert forall i | 0 <= i < n :: updates[..n][i] == updates[i];
      assert HasSevere(one) <==> one != [] && one[0].severity == Severe;
    }
  }

  ghost function OtherFindings(r: SubagentResult, stage: string, expected: seq<string>, subagent: string): seq<Warning>
    requires !r.NotADict?
  {
    GateFindings(r, stage, subagent)
    + (Flag(MissesExpected(r, expected), Warning(stage, subagent, G5_DECL, Minor)) + HandoffFindings(r.phaseSummary, stage, subagent))
  }

  lemma FindingsSplit(r: SubagentResult, stage: string, expected: seq<string>, subagent: string)
    requires !r.NotADict?
    ensures AntiDropFindings(r, stage, expected, subagent)
      == StatusFindings(r, stage, subagent) + OtherFindings(r, stage, expected, subagent)
  {
    hide StatusFindings, GateFindings, Flag, HandoffFindings;
  }

  lemma StatusSevere(r: SubagentResult, stage: string, subagent: string)
    requires !r.NotADict?
    ensures HasSevere(StatusFindings(r, stage, subagent)) <==> !ValidStatus(r.status) || StageDrift(r, stage)
  {
    hide ValidStatus, StageDrift;
    if !ValidStatus(r.status) || StageDrift(r, stage) {
      assert StatusFindings(r, stage, subagent)[0].severity == Severe;
    }
  }

  lemma OthersAreMinor(r: SubagentResult, stage: string, expected: seq<string>, subagent: string)
    requires !r.NotADict?
    ensures !HasSevere(OtherFindings(r, stage, expected, subagent))
  {
    hide Strip, MissesExpected, DeniesGate;
  }

  lemma DeclarativeSevere(r: SubagentResult, stage: string, expected: seq<string>, subagent: string)
    ensures HasSevere(AntiDropFindings(r, stage, expected, subagent)) <==>
            r.NotADict? || !ValidStatus(r.status) || StageDrift(r, stage)
  {
    if r.NotADict? {
      assert AntiDropFindings(r, stage, expected, subagent)[0].severity == Severe;
    } else {
      var head := StatusFindings(r, stage, subagent);
      var rest := OtherFindings(r, stage, expected, subagent);
      FindingsSplit(r, stage, expected, subagent);
      StatusSevere(r, stage, subagent);
      OthersAreMinor(r, stage, expected, subagent);
      hide *;
      SevereConcat(head, rest);
    }
  }

  /** The severity table of the guard: a result is severe exactly when it is malformed, drifted
      to another stage, or claims a registered file that does not exist. */
  lemma SevereIff(w: World, r: SubagentResult, expected: seq<string>, paths: map<string, string>, stage: Stage, subagent: string)
    ensures HasSevere(AllFindings(w, r, expected, paths, stage, subagent)) <==> Untrustworthy(w, r, paths, stage)
  {
    DeclarativeSevere(r, StageValue(stage), expected, subagent);
    VerifySevere(w, Updates(r), paths, stage, subagent);
    SevereConcat(AntiDropFindings(r, StageValue(stage), expected, subagent),
                 VerifyFindings(w, Updates(r), paths, stage, subagent));
  }

  // ----- the gate check and its documentation -----

  /** What the result claims about its gate; none if it makes no such claim. */
  function GatePassed(r: SubagentResult): Option<bool>
    requires !r.NotADict?
  {
    if r.gate.None? then None else r.gate.value.passed
  }

  /** The contradictions the documentation lists under G4: done without a passed gate, and a gate not
      passed under any status but blocked and needs_input. */
  predicate Contradicts(r: SubagentResult)
    requires !r.NotADict?
  {
    || (r.status == Some("done") && GatePassed(r) != Some(true))
    || (GatePassed(r) == Some(false) && r.status !in [Some("blocked"), Some("needs_input")])
  }

  predicate Reports(findings: seq<Warning>, check: CheckId) {
    exists i | 0 <= i < |findings| :: findings[i].checkId == check
  }

  lemma ReportsConcat(a: seq<Warning>, b: seq<Warning>, check: CheckId)
    ensures Reports(a + b, check) <==> Reports(a, check) || Reports(b, check)
  {
    if i :| 0 <= i < |a| && a[i].checkId == check {
      assert (a + b)[i].checkId == check;
    }
    if i :| 0 <= i < |b| && b[i].checkId == check {
      assert (a + b)[|a| + i].checkId == check;
    }
  }

  lemma GateReported(r: SubagentResult, stage: string, subagent: string)
    requires !r.NotADict?
    ensures Reports(GateFindings(r, stage, subagent), G4) <==>
            GatePassed(r) == Some(false) && r.status !in [None, Some("blocked"), Some("needs_input")]
  {
    var w := GateFindings(r, stage, subagent);
    if w != [] {
      assert w[0].checkId == G4;
    }
  }

  lemma OthersReportElse(r: SubagentResult, stage: string, expected: seq<string>, subagent: string)
    requires !r.NotADict?
    ensures !Reports(StatusFindings(r, stage, subagent), G4)
    ensures !Reports(HandoffFindings(r.phaseSummary, stage, subagent), G4)
    ensures !Reports(Flag(MissesExpected(r, expected), Warning(stage, subagent, G5_DECL, Minor)), G4)
  {
    hide Strip, MissesExpected, ValidStatus, StageDrift;
  }

  /** The guard reports G4 exactly if the gate is denied outright under a status that is there and is
      neither blocked nor needs_input. */
  lemma GateCheckIff(r: SubagentResult, stage: string, expected: seq<string>, subagent: string)
    requires !r.NotADict?
    ensures Reports(AntiDropFindings(r, stage, expected, subagent), G4) <==>
            GatePassed(r) == Some(false) && r.status !in [None, Some("blocked"), Some("needs_input")]
  {
    var a, b := StatusFindings(r, stage, subagent), GateFindings(r, stage, subagent);
    var c := Flag(MissesExpected(r, expected), Warning(stage, subagent, G5_DECL, Minor));
    var d := HandoffFindings(r.phaseSummary, stage, subagent);
    assert AntiDropFindings(r, stage, expected, subagent) == a + b + c + d;
    GateReported(r, stage, subagent);
    OthersReportElse(r, stage, expected, subagent);
    hide *;
    ReportsConcat(a, b, G4);
    ReportsConcat(a + b, c, G4);
    ReportsConcat(a + b + c, d, G4);
  }

  /** The gate check does what is documented except on two kinds of results: one that is done without
      saying whether its gate passed, and one that denies its gate without a status. */
  lemma GateCheckAsDocumentedIff(r: SubagentResult, stage: string, expected: seq<string>, subagent: string)
    requires !r.NotADict?
    ensures (Reports(AntiDropFindings(r, stage, expected, subagent), G4) <==> Contradicts(r)) <==>
            !(r.status == Some("done") && GatePassed(r).None?) && !(r.status.None? && GatePassed(r) == Some(false))
  {
    GateCheckIff(r, stage, expected, subagent);
    hide Reports, AntiDropFindings;
    assert "done" != "blocked" && "done" != "needs_input";
    assert GatePassed(r).Some? ==> GatePassed(r) == Some(if GatePassed(r).value then true else false);
  }

  /** A result of the first kind. */
  lemma SilentGate(stage: string, expected: seq<string>, subagent: string)
    ensures
      var r := SubagentResult(Some("done"), None, None, None, None, None, [], None, "", "");
      Contradicts(r) && !Reports(AntiDropFindings(r, stage, expected, subagent), G4)
  {
    GateCheckIff(SubagentResult(Some("done"), None, None, None, None, None, [], None, "", ""), stage, expected, subagent);
    hide Reports, AntiDropFindings;
  }

  // ----- retry keys -----

  function GuardRetryKey(stage: Stage, subagent: string, retryCount: nat): string {
    StageValue(stage) + ":" + subagent + ":r" + Decimal(retryCount)
  }

  lemma StageValueInjective(a: Stage, b: Stage)
    requires StageValue(a) == StageValue(b)
    ensures a == b
  {
    var u, v := StageValue(a), StageValue(b);
    assert |u| == |v|;
    assert u[0] == v[0];
    assert u[|u| - 1] == v[|v| - 1];
  }

  predicate Digits(s: string) { forall i | 0 <= i < |s| :: '0' <= s[i] <= '9' }

  lemma SplitHead(u: string, x: string, v: string, y: string)
    requires ':' !in u && ':' !in v
    requires u + ":" + x == v + ":" + y
    ensures u == v && x == y
  {
    var k := u + ":" + x;
    assert k[|u|] == ':' && k[|v|] == ':';
    assert k[..|u|] == u && k[..|v|] == v;
    assert |u| == |v|;
    assert k[|u| + 1..] == x && k[|u| + 1..] == y;
  }

  lemma SplitTail(p: string, d: string, q: string, e: string)
    requires Digits(d) && Digits(e)
    requires p + ":r" + d == q + ":r" + e
    ensures p == q && d == e
  {
    var k := p + ":r" + d;
    assert k[|k| - |d| - 1] == 'r' && k[|k| - |e| - 1] == 'r';
    assert k[|k| - |d|..] == d && k[|k| - |e|..] == e;
    assert |d| == |e|;
    assert k[..|p|] == p && k[..|q|] == q;
  }

  lemma StageValueHasNoColon(a: Stage)
    ensures ':' !in StageValue(a)
  {
  }

  /** A subagent name may be any text at all (task ids are the planner's), and still two keys
      are equal only for the same stage, subagent and rollback round. */
  lemma KeyInjective(a: Stage, p: string, m: nat, b: Stage, q: string, n: nat)
    requires GuardRetryKey(a, p, m) == GuardRetryKey(b, q, n)
    ensures a == b && p == q && m == n
  {
    hide Decimal, StageValue;
    var x, y := p + ":r" + Decimal(m), q + ":r" + Decimal(n);
    assert GuardRetryKey(a, p, m) == StageValue(a) + ":" + x;
    assert GuardRetryKey(b, q, n) == StageValue(b) + ":" + y;
    StageValueHasNoColon(a);
    StageValueHasNoColon(b);
    SplitHead(StageValue(a), x, StageValue(b), y);
    StageValueInjective(a, b);
    SplitTail(p, Decimal(m), q, Decimal(n));
    DecimalInjective(m, n);
  }
}
