/** Ground truth of `state.artifacts`: every entry is what the orchestrator itself read. */
module Artifacts {
  import opened Basics
  import opened Schema
  import opened Guard
  import opened Workflow
  import opened ControlMachine
  import opened Refinement
  import opened Runs
  import NonInterference

  /** The dispatches whose subagents may write artifacts; consultations and reviews are read-only. */
  predicate IsWriter(n: Node) {
    n.PmPhase? || n.PlanningPhase? || n.DevSubtaskDispatch? || n.RevDispatch?
  }

  /** At this configuration the event is accepted and proves the file behind `key`. */
  predicate Writes(c: Config, e: Event, key: string) {
    var r, paths := AsResult(e.input), c.state.artifactPaths;
    && IsWriter(c.node) && DispatchOf(c.node, c.state).Some?
    && !Untrustworthy(e.world, r, paths, DispatchOf(c.node, c.state).value.stage)
    && Claims(Updates(r), key) && Registered(paths, key) && paths[key] in e.world.disk
  }

  lemma LoggedArtifacts(t: State, note: Note, next: Stage)
    ensures Log(t, PLANNING_PHASE, note).(stage := next).artifacts == t.artifacts
  {
  }

  lemma PlannedArtifacts(t: State, warnings: seq<Warning>, r: SubagentResult, note: Note)
    requires r.SubagentResult?
    ensures Planned(t.(warnings := t.warnings + warnings), r, note).artifacts == t.artifacts
  {
    hide ParsePlan;
  }

  lemma OutcomeArtifacts(t: State, r: SubagentResult)
    requires r.SubagentResult?
    ensures PlanningOutcome(t, r).artifacts == t.artifacts
  {
    hide Planned, Log, ConsultLimitWarning, AsksDev;
    var status := OrElse(r.status, "done");
    var exhausted := t.consultRound >= MAX_PLANNING_CONSULTATIONS;
    LoggedArtifacts(t, PlanningBlocked, BLOCKED);
    LoggedArtifacts(t, PlanningNeedsConsult(t.consultRound + 1), PLANNING_PHASE);
    PlannedArtifacts(t, ConsultLimitWarning(exhausted), r, PlanningSurfaced(exhausted));
    PlannedArtifacts(t, [], r, PlanningDispatch(status));
    assert t.(warnings := t.warnings + []) == t;
  }

  lemma AcceptedKeeps(w: World, s: State, d: Dispatch, r: SubagentResult, findings: seq<Warning>, id: string)
    requires r.SubagentResult?
    ensures Accepted(w, s, d, r, findings, id).artifacts == s.artifacts
    ensures Accepted(w, s, d, r, findings, id).artifactPaths == s.artifactPaths
  {
    if ClearPending(s, d) == s {
    } else {
    }
  }

  lemma PlanningArtifacts(w: World, s: State, d: Dispatch, r: SubagentResult, findings: seq<Warning>)
    requires r.SubagentResult?
    ensures PlanningAccept(w, s, d, r, findings).artifacts ==
            s.artifacts + ProvedArtifacts(w, Updates(r), s.artifactPaths, d.stage)
  {
    var a := WithArtifacts(w, Accepted(w, s, d, r, findings, "d_planning_dispatch"), d, r);
    OutcomeArtifacts(WithClaims(a, r, "PLANNING_PHASE", "Gate 1.5"), r);
  }

  lemma PmArtifacts(w: World, s: State, d: Dispatch, r: SubagentResult, findings: seq<Warning>)
    requires r.SubagentResult?
    ensures PmAccept(w, s, d, r, findings).artifacts == s.artifacts + ProvedArtifacts(w, Updates(r), s.artifactPaths, d.stage)
  {
    AcceptedKeeps(w, s, d, r, findings, "d_pm_dispatch");
  }

  lemma DevArtifacts(w: World, s: State, d: Dispatch, r: SubagentResult, findings: seq<Warning>, id: string)
    requires r.SubagentResult?
    ensures DevAccept(w, s, d, r, findings, id).artifacts == s.artifacts + ProvedArtifacts(w, Updates(r), s.artifactPaths, d.stage)
  {
    AcceptedKeeps(w, s, d, r, findings, "d_dev_" + id);
  }

  lemma RevArtifacts(w: World, s: State, d: Dispatch, r: SubagentResult, findings: seq<Warning>)
    requires r.SubagentResult?
    ensures RevAccept(w, s, d, r, findings).artifacts == s.artifacts + ProvedArtifacts(w, Updates(r), s.artifactPaths, d.stage)
  {
    AcceptedKeeps(w, s, d, r, findings, "d_rev_agent");
  }

  lemma ConsultArtifacts(w: World, s: State, d: Dispatch, r: SubagentResult, findings: seq<Warning>)
    requires r.SubagentResult?
    ensures ConsultAccept(w, s, d, r, findings).artifacts == s.artifacts
  {
  }

  lemma ReviewArtifacts(w: World, s: State, d: Dispatch, r: SubagentResult, findings: seq<Warning>, id: string)
    requires r.SubagentResult?
    ensures ReviewAccept(w, s, d, r, findings, id).artifacts == s.artifacts
  {
  }

  lemma FinalArtifacts(w: World, s: State, d: Dispatch, r: SubagentResult, findings: seq<Warning>)
    requires r.SubagentResult?
    ensures CodexFinalAccept(w, s, d, r, findings).artifacts == s.artifacts
  {
  }

  lemma AcceptedArtifacts(w: World, n: Node, s: State, d: Dispatch, r: SubagentResult, findings: seq<Warning>)
    requires r.SubagentResult? && DispatchOf(n, s) == Some(d)
    ensures Accept(w, n, s, d, r, findings).artifacts ==
      if IsWriter(n) then s.artifacts + ProvedArtifacts(w, Updates(r), s.artifactPaths, d.stage) else s.artifacts
  {
    match n
    case PmPhase => PmArtifacts(w, s, d, r, findings);
    case PlanningPhase => PlanningArtifacts(w, s, d, r, findings);
    case PlanningDevConsult => ConsultArtifacts(w, s, d, r, findings);
    case DevSubtaskDispatch => DevArtifacts(w, s, d, r, findings, CurrentSubtask(s).value.taskId);
    case DevCodexReview => ReviewArtifacts(w, s, d, r, findings, CurrentSubtask(s).value.taskId);
    case RevDispatch => RevArtifacts(w, s, d, r, findings);
    case RevCodexFinal => FinalArtifacts(w, s, d, r, findings);
  }

  lemma DispatchArtifacts(w: World, n: Node, s: State, d: Dispatch, r: SubagentResult)
    requires IsDispatch(n) && DispatchOf(n, s) == Some(d)
    ensures DispatchNode(w, n, s, r).artifacts ==
      if IsWriter(n) && !Untrustworthy(w, r, s.artifactPaths, d.stage)
      then s.artifacts + ProvedArtifacts(w, Updates(r), s.artifactPaths, d.stage)
      else s.artifacts
  {
    var findings := Findings(w, s, d, r);
    SevereIff(w, r, d.expected, s.artifactPaths, d.stage, d.subagent);
    if HasSevere(findings) {
      FailedArtifacts(s, d, findings);
    } else {
      AcceptedArtifacts(w, n, s, d, r, findings);
    }
  }

  lemma FailedArtifacts(s: State, d: Dispatch, findings: seq<Warning>)
    ensures GuardFailed(s, d, findings).artifacts == s.artifacts
  {
    if Count(s.guardRetries, RetryKey(s, d)) >= GUARD_RETRY_LIMIT {
    } else {
    }
  }

  /** The entry an accepted writer leaves: the registered path, the digest of the file behind it
      at that moment, and the stage the writer ran in.  The subagent's own sha is not in it. */
  function Written(base: string, c: Config, e: Event, key: string): ArtifactRef {
    var path := if key in ArtifactPaths(base) then ArtifactPaths(base)[key] else "";
    ArtifactRef(path, e.world.sha(if path in e.world.disk then e.world.disk[path] else ""), c.state.stage)
  }

  lemma DispatchStage(n: Node, s: State)
    requires IsDispatch(n) && DispatchOf(n, s).Some?
    ensures DispatchOf(n, s).value.stage == StageAt(n)
  {
  }

  lemma DispatchEntry(base: string, c: Config, e: Event, key: string)
    requires IsDispatch(c.node) && DispatchOf(c.node, c.state).Some? && c.state.stage == StageAt(c.node)
    requires c.state.artifactPaths == ArtifactPaths(base)
    ensures
      var after := DispatchNode(e.world, c.node, c.state, AsResult(e.input)).artifacts;
      if Writes(c, e, key) then key in after && after[key] == Written(base, c, e, key)
      else SameAt(c.state.artifacts, after, key)
  {
    var d := DispatchOf(c.node, c.state).value;
    DispatchStage(c.node, c.state);
    DispatchArtifacts(e.world, c.node, c.state, d, AsResult(e.input));
  }

  lemma {:induction false} PathsAreRegistered(base: string, cs: seq<Config>, events: seq<Event>, n: nat)
    requires Execution(base, cs, events) && n < |cs|
    ensures cs[n].node != Init ==> cs[n].state.artifactPaths == ArtifactPaths(base)
  {
    if n > 0 {
      PathsAreRegistered(base, cs, events, n - 1);
      NonInterference.PathsStay(base, cs, events, n - 1);
    }
  }

  lemma NoWriteElsewhere(c: Config, e: Event, key: string)
    requires !IsDispatch(c.node)
    ensures !Writes(c, e, key)
  {
  }

  /** A guard-rejected result, a read-only subagent, a gate or a routing node never touches an
      entry; an accepted writer overwrites exactly the entries it proves. */
  lemma EntryStep(base: string, cs: seq<Config>, events: seq<Event>, n: nat, key: string)
    requires Execution(base, cs, events) && n < |events|
    ensures
      if Writes(cs[n], events[n], key)
      then key in cs[n + 1].state.artifacts && cs[n + 1].state.artifacts[key] == Written(base, cs[n], events[n], key)
      else SameAt(cs[n].state.artifacts, cs[n + 1].state.artifacts, key)
  {
    assert cs[n + 1] == Step(base, cs[n], events[n]);
    if IsDispatch(cs[n].node) {
      ExecutionInv(base, cs, events, n);
      DispatchExists(cs[n].node, cs[n].state);
      PathsAreRegistered(base, cs, events, n);
      DispatchEntry(base, cs[n], events[n], key);
      DispatchRuns(base, cs[n], events[n]);
      hide Step, Writes, Written, Inv;
    } else {
      NoWriteElsewhere(cs[n], events[n], key);
      hide Step, Writes, Written;
      if cs[n].node != End {
        var rec := ExecutionExplains(base, cs, events, n);
      } else {
        EndStays(base, cs[n], events[n]);
      }
    }
  }

  /** The last event before `n` that wrote the entry for `key`. */
  function LastWrite(cs: seq<Config>, events: seq<Event>, n: nat, key: string): (last: Option<nat>)
    requires n <= |events| && n < |cs|
    ensures last.Some? ==> last.value < n && Writes(cs[last.value], events[last.value], key)
    ensures forall i | (if last.Some? then last.value + 1 else 0) <= i < n :: !Writes(cs[i], events[i], key)
  {
    if n == 0 then None
    else if Writes(cs[n - 1], events[n - 1], key) then Some(n - 1)
    else LastWrite(cs, events, n - 1, key)
  }

  /** Artifact ground truth.  In every reachable state an entry exists exactly when some accepted
      writer proved it, and it is what the last such dispatch left. */
  lemma {:induction false} ArtifactTruth(base: string, cs: seq<Config>, events: seq<Event>, n: nat, key: string)
    requires Execution(base, cs, events) && n < |cs|
    ensures key in cs[n].state.artifacts <==> LastWrite(cs, events, n, key).Some?
    ensures
      var last := LastWrite(cs, events, n, key);
      last.Some? ==> cs[n].state.artifacts[key] == Written(base, cs[last.value], events[last.value], key)
  {
    hide Writes, Written, Step;
    ExecutionLength(base, cs, events);
    if n > 0 {
      ArtifactTruth(base, cs, events, n - 1, key);
      EntryStep(base, cs, events, n - 1, key);
    }
  }
}
