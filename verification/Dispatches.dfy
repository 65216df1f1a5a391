/** What every dispatch node does with every result, node by node and status by status: who is asked
    under which stage, when the result is sent back, what is put down about it, and where the
    workflow goes. */
module Dispatches {
  import opened Basics
  import opened Schema
  import opened Guard
  import opened Workflow
  import opened ControlMachine
  import opened Refinement
  import opened Runs
  import opened Checks

  /** A dispatch as its node has it: the stage, that stage as a text, the name of the subagent, the
      artifacts it is expected to name and the default id of the decision. */
  datatype Post = Post(stage: Stage, text: string, name: string, expected: seq<string>, id: string)

  function PostOf(n: Node, s: State): Option<Post> {
    match n
    case PmPhase => Some(Post(PM_PHASE, "PM_PHASE", "pm_agent", ["pm_spec", "pm_risks"], "d_pm_dispatch"))
    case PlanningPhase =>
      Some(Post(PLANNING_PHASE, "PLANNING_PHASE", "planner", ["plan", "task_list"], "d_planning_dispatch"))
    case PlanningDevConsult =>
      Some(Post(PLANNING_PHASE, "PLANNING_PHASE", "dev_agent[consult]", [], "d_consult_" + Decimal(s.consultRound + 1)))
    case DevSubtaskDispatch =>
      if !(0 <= s.subtaskIndex < |s.subtasks|) then None else
      var id := s.subtasks[s.subtaskIndex].taskId;
      Some(Post(DEV_PHASE, "DEV_PHASE", "dev_agent[" + id + "]", ["dev_summary", "dev_self_check", "dev_changed_files"],
        "d_dev_" + id))
    case DevCodexReview =>
      if !(0 <= s.subtaskIndex < |s.subtasks|) then None else
      var id := s.subtasks[s.subtaskIndex].taskId;
      Some(Post(DEV_PHASE, "DEV_PHASE", "codex_reviewer[" + id + "]", [], "d_codex_" + id))
    case RevDispatch =>
      Some(Post(REV_PHASE, "REV_PHASE", "rev_agent", ["rev_report", "acceptance_checklist"], "d_rev_agent"))
    case RevCodexFinal => Some(Post(REV_PHASE, "REV_PHASE", "codex_final", [], "d_codex_final"))
    case _ => None
  }

  lemma PostIs(n: Node, s: State)
    requires PostOf(n, s).Some?
    ensures
      var p := PostOf(n, s).value;
      DispatchOf(n, s) == Some(Dispatch(p.stage, p.name, p.expected)) && StageValue(p.stage) == p.text
  {
    hide Decimal;
  }

  // ----- results that are sent back -----

  /** Reasons not to trust a result: no status, another stage, or a claimed file that is not there. */
  ghost predicate Distrusts(w: World, r: SubagentResult, p: Post, paths: map<string, string>) {
    || FailsBadly(w, r, p.text, paths, G1)
    || FailsBadly(w, r, p.text, paths, G3)
    || FailsBadly(w, r, p.text, paths, G5_PROVE)
  }

  /** The findings put down on a result: each check exactly when the result calls for it. */
  ghost predicate Finds(w: World, r: SubagentResult, p: Post, paths: map<string, string>, findings: seq<Warning>) {
    && Named(findings, p.text, p.name)
    && forall check :: (Reports(findings, check) <==> Fails(w, r, p.text, p.expected, paths, check))
         && (ReportsSevere(findings, check) <==> FailsBadly(w, r, p.text, paths, check))
  }

  /** The ids a guard record lists are those of the severe checks. */
  ghost predicate Lists(w: World, r: SubagentResult, p: Post, paths: map<string, string>, ids: set<CheckId>) {
    forall check :: check in ids <==> FailsBadly(w, r, p.text, paths, check)
  }

  function KeyOf(p: Post, s: State): string { p.text + ":" + p.name + ":r" + Decimal(s.retryCount) }

  /** The first time round the node runs again and is told the findings; the second time is the end. */
  ghost predicate SentBack(w: World, n: Node, s: State, r: SubagentResult, p: Post, m: Node, t: State) {
    exists findings, ids ::
      && Finds(w, r, p, s.artifactPaths, findings) && Lists(w, r, p, s.artifactPaths, ids)
      && if KeyOf(p, s) in s.guardRetries then
           && m == End
           && t == s.(
                stage := BLOCKED, pendingRetry := None, warnings := s.warnings + findings,
                stageLog := s.stageLog + [LogRecord(p.stage, GuardBlocked(p.name, ids, s.guardRetries[KeyOf(p, s)]))])
         else
           && m == n
           && t == s.(
                guardRetries := s.guardRetries[KeyOf(p, s) := 1],
                pendingRetry := Some(PendingRetry(p.text, p.name, 1, findings)), warnings := s.warnings + findings,
                stageLog := s.stageLog + [LogRecord(p.stage, GuardRetry(p.name, ids, 1))])
  }

  lemma FindingsFind(w: World, n: Node, s: State, r: SubagentResult)
    requires PostOf(n, s).Some?
    ensures
      var p := PostOf(n, s).value;
      var f := Findings(w, s, Dispatch(p.stage, p.name, p.expected), r);
      && Finds(w, r, p, s.artifactPaths, f) && Lists(w, r, p, s.artifactPaths, SevereIds(f))
      && (HasSevere(f) <==> Distrusts(w, r, p, s.artifactPaths))
  {
    PostIs(n, s);
    var p := PostOf(n, s).value;
    var f := Findings(w, s, Dispatch(p.stage, p.name, p.expected), r);
    hide *;
    OneFinding(w, s, r, p, G1);
    forall check
      ensures Reports(f, check) <==> Fails(w, r, p.text, p.expected, s.artifactPaths, check)
    {
      OneFinding(w, s, r, p, check);
    }
    forall check
      ensures ReportsSevere(f, check) <==> FailsBadly(w, r, p.text, s.artifactPaths, check)
    {
      OneFinding(w, s, r, p, check);
    }
    forall check
      ensures check in SevereIds(f) <==> FailsBadly(w, r, p.text, s.artifactPaths, check)
    {
      OneFinding(w, s, r, p, check);
    }
    Wrap(w, r, p, s.artifactPaths, f);
  }

  lemma OneFinding(w: World, s: State, r: SubagentResult, p: Post, check: CheckId)
    requires StageValue(p.stage) == p.text
    ensures
      var f := Findings(w, s, Dispatch(p.stage, p.name, p.expected), r);
      && Named(f, p.text, p.name)
      && (Reports(f, check) <==> Fails(w, r, p.text, p.expected, s.artifactPaths, check))
      && (ReportsSevere(f, check) <==> FailsBadly(w, r, p.text, s.artifactPaths, check))
      && (check in SevereIds(f) <==> FailsBadly(w, r, p.text, s.artifactPaths, check))
  {
    hide *;
    FindingsAre(w, s, p, r);
    AllReported(w, r, p.expected, s.artifactPaths, p.stage, p.name, check);
    SevereIdsAre(Findings(w, s, Dispatch(p.stage, p.name, p.expected), r), check);
  }

  lemma FindingsAre(w: World, s: State, p: Post, r: SubagentResult)
    ensures Findings(w, s, Dispatch(p.stage, p.name, p.expected), r)
      == AllFindings(w, r, p.expected, s.artifactPaths, p.stage, p.name)
  {
    hide AllFindings;
  }

  lemma Wrap(w: World, r: SubagentResult, p: Post, paths: map<string, string>, f: seq<Warning>)
    requires Named(f, p.text, p.name)
    requires forall check :: Reports(f, check) <==> Fails(w, r, p.text, p.expected, paths, check)
    requires forall check :: ReportsSevere(f, check) <==> FailsBadly(w, r, p.text, paths, check)
    requires forall check :: check in SevereIds(f) <==> FailsBadly(w, r, p.text, paths, check)
    ensures Finds(w, r, p, paths, f) && Lists(w, r, p, paths, SevereIds(f))
    ensures HasSevere(f) <==> Distrusts(w, r, p, paths)
  {
    hide Named, Reports, Fails, SevereIds;
    if HasSevere(f) {
      var i :| 0 <= i < |f| && f[i].severity == Severe;
      assert ReportsSevere(f, f[i].checkId);
    }
    if check :| ReportsSevere(f, check) {
      assert HasSevere(f);
    }
  }

  lemma FailedIs(w: World, n: Node, s: State, r: SubagentResult)
    requires IsDispatch(n) && PostOf(n, s).Some?
    requires BudgetInv(CoreOf(n, s)) && Distrusts(w, r, PostOf(n, s).value, s.artifactPaths)
    ensures
      var t := DispatchNode(w, n, s, r);
      SentBack(w, n, s, r, PostOf(n, s).value, Route(n, t), t)
  {
    var p := PostOf(n, s).value;
    PostIs(n, s);
    FindingsFind(w, n, s, r);
    var d := Dispatch(p.stage, p.name, p.expected);
    var f := Findings(w, s, d, r);
    DispatchIs(w, n, s, d, r);
    assert KeyOf(p, s) == RetryKey(s, d);
    var t := GuardFailed(s, d, f);
    hide Finds, Lists, Distrusts, Findings, HasSevere, SevereIds, PostOf, DispatchOf, DispatchNode, GuardRetryKey, Decimal,
      StageValue;
    SentBackBy(w, n, s, r, p, f, t);
  }

  /** Every retry that was spent is one. */
  lemma SpentIsOne(k: Core, key: string)
    requires BudgetInv(k) && key in k.guardRetries
    ensures k.guardRetries[key] == 1
  {
  }

  lemma RetriedIs(s: State, d: Dispatch, f: seq<Warning>, text: string, key: string)
    requires key !in s.guardRetries && key == RetryKey(s, d) && text == StageValue(d.stage)
    ensures GuardFailed(s, d, f) == s.(
      guardRetries := s.guardRetries[key := 1],
      pendingRetry := Some(PendingRetry(text, d.subagent, 1, f)), warnings := s.warnings + f,
      stageLog := s.stageLog + [LogRecord(d.stage, GuardRetry(d.subagent, SevereIds(f), 1))])
  {
    hide SevereIds, RetryKey, StageValue;
  }

  lemma BlockedIs(s: State, d: Dispatch, f: seq<Warning>, key: string)
    requires key in s.guardRetries && s.guardRetries[key] == 1 && key == RetryKey(s, d)
    ensures GuardFailed(s, d, f) == s.(
      stage := BLOCKED, pendingRetry := None, warnings := s.warnings + f,
      stageLog := s.stageLog + [LogRecord(d.stage, GuardBlocked(d.subagent, SevereIds(f), 1))])
  {
    hide SevereIds, RetryKey, StageValue;
  }

  lemma RetriedRoute(n: Node, t: State)
    requires IsDispatch(n)
    ensures t.pendingRetry.Some? ==> Route(n, t) == n
    ensures t.pendingRetry.None? && t.stage == BLOCKED ==> Route(n, t) == End
  {
  }

  lemma SentBackBy(w: World, n: Node, s: State, r: SubagentResult, p: Post, f: seq<Warning>, t: State)
    requires IsDispatch(n) && BudgetInv(CoreOf(n, s)) && StageValue(p.stage) == p.text
    requires Finds(w, r, p, s.artifactPaths, f) && Lists(w, r, p, s.artifactPaths, SevereIds(f))
    requires KeyOf(p, s) == RetryKey(s, Dispatch(p.stage, p.name, p.expected))
    requires t == GuardFailed(s, Dispatch(p.stage, p.name, p.expected), f)
    ensures SentBack(w, n, s, r, p, Route(n, t), t)
  {
    hide Finds, Lists, SevereIds, KeyOf, RetryKey, StageValue, IsKeyUpTo, GuardFailed, Route, BudgetInv;
    var d := Dispatch(p.stage, p.name, p.expected);
    if KeyOf(p, s) in s.guardRetries {
      SpentIsOne(CoreOf(n, s), KeyOf(p, s));
      BlockedIs(s, d, f, KeyOf(p, s));
    } else {
      RetriedIs(s, d, f, p.text, KeyOf(p, s));
    }
    RetriedRoute(n, t);
  }

  // ----- results that are accepted -----

  /** The decision kept of a result: under its own id or that of the dispatch, with its status as the
      answer, and the digest of its file or, without one, of that status. */
  function Reported(w: World, r: SubagentResult, status: string, id: string): Decision
    requires r.SubagentResult?
  {
    Decision(
      if r.decisionId.Some? then r.decisionId.value else id,
      status,
      if r.fileSha != "" then r.fileSha else w.sha(status),
      r.filePath)
  }

  /** One decision and one record more, the findings put down, no retry pending, and the counters as
      they were. */
  predicate Kept(w: World, s: State, r: SubagentResult, status: string, id: string, warnings: seq<Warning>, rec: LogRecord,
      t: State)
    requires r.SubagentResult?
  {
    && t.decisions == s.decisions + [Reported(w, r, status, id)]
    && t.warnings == s.warnings + warnings
    && t.stageLog == s.stageLog + [rec]
    && t.pendingRetry == None
    && t.retryCount == s.retryCount && t.rollbackCounts == s.rollbackCounts && t.guardRetries == s.guardRetries
    && t.hints == s.hints && t.artifactPaths == s.artifactPaths
  }

  predicate SameConsultations(s: State, t: State) {
    t.consultRound == s.consultRound && t.consultations == s.consultations
  }

  predicate SameSubtasks(s: State, t: State) {
    t.subtasks == s.subtasks && t.subtaskIndex == s.subtaskIndex && t.subtaskResults == s.subtaskResults
  }

  /** The planner asks the developer something: the question has a character that is not white space. */
  predicate Asks(r: SubagentResult) {
    && r.SubagentResult? && r.consultQuestion.Some?
    && exists k | 0 <= k < |r.consultQuestion.value| :: !IsSpace(r.consultQuestion.value[k])
  }

  /** The planner's result goes on to Gate 1.5 with its plan, and DEV starts from nothing. */
  predicate Planning(w: World, s: State, r: SubagentResult, status: string, warnings: seq<Warning>, note: Note, m: Node,
      t: State)
    requires r.SubagentResult?
  {
    && m == Gate1_5 && t.stage == GATE_1_5 && SameConsultations(s, t)
    && Kept(w, s, r, status, "d_planning_dispatch", warnings, LogRecord(PLANNING_PHASE, note), t)
    && t.subtasks == ParsePlan(r.subtaskPlan) && t.subtaskIndex == -1 && t.subtaskResults == []
  }

  predicate AtPlanning(w: World, s: State, r: SubagentResult, status: string, f: seq<Warning>, m: Node, t: State)
    requires r.SubagentResult?
  {
    if status == "blocked" then
      && m == End && t.stage == BLOCKED && SameConsultations(s, t) && SameSubtasks(s, t)
      && Kept(w, s, r, status, "d_planning_dispatch", f, LogRecord(PLANNING_PHASE, PlanningBlocked), t)
    else if status == "needs_input" && Asks(r) && s.consultRound < 3 then
      && m == PlanningDevConsult && t.stage == PLANNING_PHASE && SameConsultations(s, t) && SameSubtasks(s, t)
      && Kept(w, s, r, status, "d_planning_dispatch", f, LogRecord(PLANNING_PHASE, PlanningNeedsConsult(s.consultRound + 1)), t)
    else if status == "needs_input" && s.consultRound >= 3 then
      Planning(w, s, r, status, f + [Warning("PLANNING_PHASE", "planner", PLANNING_CONSULT_LIMIT, Minor)],
        PlanningSurfaced(true), m, t)
    else if status == "needs_input" then
      Planning(w, s, r, status, f, PlanningSurfaced(false), m, t)
    else
      Planning(w, s, r, status, f, PlanningDispatch(status), m, t)
  }

  /** The question's digest is that of the planner's decision, if that came in a file; the answer's is
      that of the developer's file. */
  predicate AtConsultation(w: World, s: State, r: SubagentResult, status: string, f: seq<Warning>, m: Node, t: State)
    requires r.SubagentResult?
  {
    var round := s.consultRound + 1;
    var asked := s.decisions != [] && s.decisions[|s.decisions| - 1].filePath != "";
    && m == PlanningPhase && t.stage == PLANNING_PHASE && SameSubtasks(s, t) && t.artifacts == s.artifacts
    && Kept(w, s, r, status, "d_consult_" + Decimal(round), f, LogRecord(PLANNING_PHASE, DevConsult(round, status)), t)
    && t.consultRound == round
    && t.consultations == s.consultations
         + [Consultation(round, if asked then s.decisions[|s.decisions| - 1].sha256 else "", r.fileSha)]
  }

  /** What an accepted result makes of the state, node by node. */
  predicate AcceptedAt(w: World, n: Node, s: State, r: SubagentResult, status: string, f: seq<Warning>, m: Node, t: State)
    requires r.SubagentResult?
  {
    match n
    case PmPhase =>
      && m == Gate1 && t.stage == GATE_1 && SameConsultations(s, t) && SameSubtasks(s, t)
      && Kept(w, s, r, status, "d_pm_dispatch", f, LogRecord(PM_PHASE, PmDispatch(status)), t)
    case PlanningPhase => AtPlanning(w, s, r, status, f, m, t)
    case PlanningDevConsult => AtConsultation(w, s, r, status, f, m, t)
    case DevSubtaskDispatch =>
      0 <= s.subtaskIndex < |s.subtasks| &&
      var id := s.subtasks[s.subtaskIndex].taskId;
      && m == DevCodexReview && t.stage == DEV_PHASE && SameConsultations(s, t)
      && t.subtasks == s.subtasks && t.subtaskIndex == s.subtaskIndex
      && Kept(w, s, r, status, "d_dev_" + id, f, LogRecord(DEV_PHASE, DevDispatched(id, status)), t)
    case DevCodexReview =>
      0 <= s.subtaskIndex < |s.subtasks| &&
      var id := s.subtasks[s.subtaskIndex].taskId;
      var passed := r.gate.Some? && r.gate.value.passed == Some(true);
      && m == DevLoopRouter && t.stage == DEV_PHASE && SameConsultations(s, t) && t.artifacts == s.artifacts
      && t.subtasks == s.subtasks && t.subtaskIndex == s.subtaskIndex
      && Kept(w, s, r, status, "d_codex_" + id, f, LogRecord(DEV_PHASE, Note.Reviewed(id, passed)), t)
    case RevDispatch =>
      && m == RevCodexFinal && t.stage == REV_PHASE && SameConsultations(s, t) && SameSubtasks(s, t)
      && Kept(w, s, r, status, "d_rev_agent", f, LogRecord(REV_PHASE, RevDispatched(status)), t)
    case RevCodexFinal =>
      var passed := r.gate.Some? && r.gate.value.passed == Some(true);
      && m == Gate3 && t.stage == GATE_3 && SameConsultations(s, t) && SameSubtasks(s, t) && t.artifacts == s.artifacts
      && Kept(w, s, r, status, "d_codex_final", f, LogRecord(REV_PHASE, Note.CodexFinal(status, passed)), t)
    case _ => false
  }

  // ----- the accepting functions, one by one -----

  /** A state in which a result has been put down, but no record of it written yet. */
  predicate PutDown(w: World, s: State, r: SubagentResult, status: string, id: string, f: seq<Warning>, t: State)
    requires r.SubagentResult?
  {
    && t.decisions == s.decisions + [Reported(w, r, status, id)]
    && t.warnings == s.warnings + f && t.stageLog == s.stageLog && t.stage == s.stage && t.pendingRetry == None
    && t.retryCount == s.retryCount && t.rollbackCounts == s.rollbackCounts && t.guardRetries == s.guardRetries
    && t.hints == s.hints && t.artifactPaths == s.artifactPaths && SameConsultations(s, t) && SameSubtasks(s, t)
  }

  lemma AcceptedPutsDown(w: World, s: State, d: Dispatch, r: SubagentResult, f: seq<Warning>, id: string, status: string)
    requires r.SubagentResult? && r.status == Some(status) && ClearPending(s, d).pendingRetry == None
    ensures PutDown(w, s, r, status, id, f, Accepted(w, s, d, r, f, id))
    ensures Accepted(w, s, d, r, f, id).artifacts == s.artifacts
  {
    assert ClearPending(s, d) == s.(pendingRetry := None);
  }

  lemma ArtifactsPutDown(w: World, s: State, a: State, d: Dispatch, r: SubagentResult, status: string, id: string, f: seq<Warning>)
    requires r.SubagentResult? && PutDown(w, s, r, status, id, f, a)
    ensures PutDown(w, s, r, status, id, f, WithArtifacts(w, a, d, r))
  {
    hide ProvedArtifacts, Reported;
  }

  lemma ClaimsPutDown(w: World, s: State, a: State, r: SubagentResult, status: string, id: string, f: seq<Warning>,
      summary: string, gate: string)
    requires r.SubagentResult? && PutDown(w, s, r, status, id, f, a)
    ensures PutDown(w, s, r, status, id, f, WithClaims(a, r, summary, gate))
    ensures WithClaims(a, r, summary, gate).artifacts == a.artifacts
  {
    hide SummaryOf, GateClaimed, Reported;
  }

  lemma PmIs(w: World, s: State, d: Dispatch, r: SubagentResult, f: seq<Warning>, status: string)
    requires r.SubagentResult? && r.status == Some(status) && ClearPending(s, d).pendingRetry == None
    ensures var t := PmAccept(w, s, d, r, f); AcceptedAt(w, PmPhase, s, r, status, f, Route(PmPhase, t), t)
  {
    var id := "d_pm_dispatch";
    var a := Accepted(w, s, d, r, f, id);
    AcceptedPutsDown(w, s, d, r, f, id, status);
    ArtifactsPutDown(w, s, a, d, r, status, id, f);
    ClaimsPutDown(w, s, WithArtifacts(w, a, d, r), r, status, id, f, "PM_PHASE", "Gate 1");
    hide Accepted, WithArtifacts, WithClaims, Reported;
  }

  lemma LoggedIs(w: World, s: State, a: State, r: SubagentResult, status: string, id: string, f: seq<Warning>, stage: Stage,
      note: Note)
    requires r.SubagentResult? && PutDown(w, s, r, status, id, f, a)
    ensures var t := Log(a, stage, note);
      && Kept(w, s, r, status, id, f, LogRecord(stage, note), t)
      && t.stage == s.stage && SameConsultations(s, t) && SameSubtasks(s, t) && t.artifacts == a.artifacts
  {
    hide Reported;
  }

  lemma RevIs(w: World, s: State, d: Dispatch, r: SubagentResult, f: seq<Warning>, status: string)
    requires r.SubagentResult? && r.status == Some(status) && ClearPending(s, d).pendingRetry == None && s.stage == REV_PHASE
    ensures var t := RevAccept(w, s, d, r, f); AcceptedAt(w, RevDispatch, s, r, status, f, Route(RevDispatch, t), t)
  {
    var id := "d_rev_agent";
    var a := Accepted(w, s, d, r, f, id);
    AcceptedPutsDown(w, s, d, r, f, id, status);
    ArtifactsPutDown(w, s, a, d, r, status, id, f);
    var b := WithArtifacts(w, a, d, r);
    ClaimsPutDown(w, s, b, r, status, id, f, "REV_PHASE", "Gate 3 - rev_agent");
    var c := WithClaims(b, r, "REV_PHASE", "Gate 3 - rev_agent");
    LoggedIs(w, s, c, r, status, id, f, REV_PHASE, RevDispatched(status));
    assert RevAccept(w, s, d, r, f) == Log(c, REV_PHASE, RevDispatched(status)) by {
      hide Accepted, WithArtifacts, WithClaims, Log;
    }
    RevRoute(Log(c, REV_PHASE, RevDispatched(status)), w, s, r, status, id, f);
    hide RevAccept, Kept, SameConsultations, SameSubtasks, Log, WithClaims, WithArtifacts, Accepted, Route;
  }

  lemma RevRoute(t: State, w: World, s: State, r: SubagentResult, status: string, id: string, f: seq<Warning>)
    requires r.SubagentResult? && t.stage == REV_PHASE
    requires Kept(w, s, r, status, id, f, LogRecord(REV_PHASE, RevDispatched(status)), t)
    ensures Route(RevDispatch, t) == RevCodexFinal
  {
    hide Reported;
  }

  lemma FinalIs(w: World, s: State, d: Dispatch, r: SubagentResult, f: seq<Warning>, status: string)
    requires r.SubagentResult? && r.status == Some(status) && ClearPending(s, d).pendingRetry == None
    ensures var t := CodexFinalAccept(w, s, d, r, f); AcceptedAt(w, RevCodexFinal, s, r, status, f, Route(RevCodexFinal, t), t)
  {
    var id := "d_codex_final";
    AcceptedPutsDown(w, s, d, r, f, id, status);
    ClaimsPutDown(w, s, Accepted(w, s, d, r, f, id), r, status, id, f, "REV_PHASE_CODEX", "Gate 3");
    hide Accepted, WithClaims, Reported;
  }

  lemma ConsultIs(w: World, s: State, d: Dispatch, r: SubagentResult, f: seq<Warning>, status: string)
    requires r.SubagentResult? && r.status == Some(status) && ClearPending(s, d).pendingRetry == None
    ensures
      var t := ConsultAccept(w, s, d, r, f);
      AcceptedAt(w, PlanningDevConsult, s, r, status, f, Route(PlanningDevConsult, t), t)
  {
    var id := "d_consult_" + Decimal(s.consultRound + 1);
    AcceptedPutsDown(w, s, d, r, f, id, status);
    hide Accepted, Reported, Decimal;
  }

  lemma DevIs(w: World, s: State, d: Dispatch, r: SubagentResult, f: seq<Warning>, status: string)
    requires r.SubagentResult? && r.status == Some(status) && ClearPending(s, d).pendingRetry == None && s.stage == DEV_PHASE
    requires 0 <= s.subtaskIndex < |s.subtasks|
    ensures
      var t := DevAccept(w, s, d, r, f, s.subtasks[s.subtaskIndex].taskId);
      AcceptedAt(w, DevSubtaskDispatch, s, r, status, f, Route(DevSubtaskDispatch, t), t)
  {
    var id := "d_dev_" + s.subtasks[s.subtaskIndex].taskId;
    AcceptedPutsDown(w, s, d, r, f, id, status);
    ArtifactsPutDown(w, s, Accepted(w, s, d, r, f, id), d, r, status, id, f);
    hide Accepted, WithArtifacts, Reported, Put, DevResult;
  }

  lemma ReviewIs(w: World, s: State, d: Dispatch, r: SubagentResult, f: seq<Warning>, status: string)
    requires r.SubagentResult? && r.status == Some(status) && ClearPending(s, d).pendingRetry == None && s.stage == DEV_PHASE
    requires 0 <= s.subtaskIndex < |s.subtasks|
    ensures
      var t := ReviewAccept(w, s, d, r, f, s.subtasks[s.subtaskIndex].taskId);
      AcceptedAt(w, DevCodexReview, s, r, status, f, Route(DevCodexReview, t), t)
  {
    AcceptedPutsDown(w, s, d, r, f, "d_codex_" + s.subtasks[s.subtaskIndex].taskId, status);
    hide Accepted, Reported, Put, ReviewResult;
  }

  // ----- the planner -----

  lemma AsksIff(r: SubagentResult)
    ensures AsksDev(r) <==> Asks(r)
  {
    if r.SubagentResult? && r.consultQuestion.Some? {
      var q := r.consultQuestion.value;
      var a, b := StripParts(q);
      if Strip(q) != "" {
        assert q[|a|] == Strip(q)[0];
      } else {
        assert q == a + b;
      }
    }
  }

  lemma BlockedOutcome(w: World, s: State, a: State, r: SubagentResult, status: string, f: seq<Warning>)
    requires r.SubagentResult? && PutDown(w, s, r, status, "d_planning_dispatch", f, a)
    ensures var t := Log(a, PLANNING_PHASE, PlanningBlocked).(stage := BLOCKED);
      && RoutePlanning(t) == End && t.stage == BLOCKED && SameConsultations(s, t) && SameSubtasks(s, t)
      && Kept(w, s, r, status, "d_planning_dispatch", f, LogRecord(PLANNING_PHASE, PlanningBlocked), t)
  {
    hide Reported;
  }

  lemma AskingOutcome(w: World, s: State, a: State, r: SubagentResult, status: string, f: seq<Warning>)
    requires r.SubagentResult? && PutDown(w, s, r, status, "d_planning_dispatch", f, a)
    ensures var t := Log(a, PLANNING_PHASE, PlanningNeedsConsult(a.consultRound + 1)).(stage := PLANNING_PHASE);
      && RoutePlanning(t) == PlanningDevConsult && t.stage == PLANNING_PHASE && SameConsultations(s, t) && SameSubtasks(s, t)
      && Kept(w, s, r, status, "d_planning_dispatch", f,
           LogRecord(PLANNING_PHASE, PlanningNeedsConsult(s.consultRound + 1)), t)
  {
    hide Reported;
  }

  lemma PlannedOutcome(w: World, s: State, a: State, r: SubagentResult, status: string, f: seq<Warning>, more: seq<Warning>,
      note: Note)
    requires r.SubagentResult? && PutDown(w, s, r, status, "d_planning_dispatch", f, a)
    ensures
      var t := Planned(a.(warnings := a.warnings + more), r, note);
      Planning(w, s, r, status, f + more, note, RoutePlanning(t), t)
  {
    hide Reported, ParsePlan;
  }

  lemma OutcomeIs(w: World, s: State, a: State, r: SubagentResult, status: string, f: seq<Warning>)
    requires r.SubagentResult? && r.status == Some(status) && PutDown(w, s, r, status, "d_planning_dispatch", f, a)
    ensures var t := PlanningOutcome(a, r); AtPlanning(w, s, r, status, f, RoutePlanning(t), t)
  {
    var exhausted := a.consultRound >= MAX_PLANNING_CONSULTATIONS;
    assert a.consultRound == s.consultRound;
    assert a.(warnings := a.warnings + []) == a && f + [] == f;
    AsksIff(r);
    hide Kept, PutDown, SameConsultations, SameSubtasks, Planning, Planned, Log, RoutePlanning, AsksDev, Asks;
    if status == "blocked" {
      BlockedOutcome(w, s, a, r, status, f);
    } else if status == "needs_input" && Asks(r) && !exhausted {
      AskingOutcome(w, s, a, r, status, f);
    } else if status == "needs_input" {
      PlannedOutcome(w, s, a, r, status, f, ConsultLimitWarning(exhausted), PlanningSurfaced(exhausted));
    } else {
      PlannedOutcome(w, s, a, r, status, f, [], PlanningDispatch(status));
    }
  }

  lemma PlanningIs(w: World, s: State, d: Dispatch, r: SubagentResult, f: seq<Warning>, status: string)
    requires r.SubagentResult? && r.status == Some(status) && ClearPending(s, d).pendingRetry == None
    ensures
      var t := PlanningAccept(w, s, d, r, f);
      AcceptedAt(w, PlanningPhase, s, r, status, f, Route(PlanningPhase, t), t)
  {
    var id := "d_planning_dispatch";
    var a := Accepted(w, s, d, r, f, id);
    AcceptedPutsDown(w, s, d, r, f, id, status);
    ArtifactsPutDown(w, s, a, d, r, status, id, f);
    var b := WithArtifacts(w, a, d, r);
    ClaimsPutDown(w, s, b, r, status, id, f, "PLANNING_PHASE", "Gate 1.5");
    OutcomeIs(w, s, WithClaims(b, r, "PLANNING_PHASE", "Gate 1.5"), r, status, f);
    hide Accepted, WithArtifacts, WithClaims, PlanningOutcome, AtPlanning, PutDown, RoutePlanning;
  }

  // ----- whole executions -----

  /** What a dispatch node makes of any result. */
  ghost predicate Treated(w: World, n: Node, s: State, r: SubagentResult, m: Node, t: State) {
    PostOf(n, s).Some? &&
    var p := PostOf(n, s).value;
    if Distrusts(w, r, p, s.artifactPaths) then SentBack(w, n, s, r, p, m, t)
    else
      r.SubagentResult? && r.status.Some?
      && exists f :: Finds(w, r, p, s.artifactPaths, f) && AcceptedAt(w, n, s, r, r.status.value, f, m, t)
  }

  lemma AcceptIs(w: World, n: Node, s: State, d: Dispatch, r: SubagentResult, f: seq<Warning>, status: string)
    requires r.SubagentResult? && r.status == Some(status) && ClearPending(s, d).pendingRetry == None
    requires IsDispatch(n) && DispatchOf(n, s) == Some(d) && s.stage == StageAt(n)
    ensures var t := Accept(w, n, s, d, r, f); AcceptedAt(w, n, s, r, status, f, Route(n, t), t)
  {
    hide AcceptedAt, PmAccept, PlanningAccept, ConsultAccept, DevAccept, ReviewAccept, RevAccept, CodexFinalAccept, Route,
      ClearPending;
    match n
    case PmPhase => PmIs(w, s, d, r, f, status);
    case PlanningPhase => PlanningIs(w, s, d, r, f, status);
    case PlanningDevConsult => ConsultIs(w, s, d, r, f, status);
    case DevSubtaskDispatch => DevIs(w, s, d, r, f, status);
    case DevCodexReview => ReviewIs(w, s, d, r, f, status);
    case RevDispatch => RevIs(w, s, d, r, f, status);
    case RevCodexFinal => FinalIs(w, s, d, r, f, status);
  }

  lemma TrustedHasStatus(w: World, r: SubagentResult, p: Post, paths: map<string, string>)
    requires !Distrusts(w, r, p, paths)
    ensures r.SubagentResult? && r.status.Some? && ValidStatus(r.status)
  {
    hide AnyMissing;
  }

  lemma PostExists(n: Node, s: State)
    requires IsDispatch(n) && LoopInv(ControlOf(Config(n, s)))
    ensures PostOf(n, s).Some?
  {
    hide Decimal;
  }

  lemma NodeTreats(w: World, n: Node, s: State, r: SubagentResult)
    requires IsDispatch(n) && Inv(ControlOf(Config(n, s)))
    ensures var t := DispatchNode(w, n, s, r); Treated(w, n, s, r, Route(n, t), t)
  {
    PostExists(n, s);
    var p := PostOf(n, s).value;
    PostIs(n, s);
    var d := Dispatch(p.stage, p.name, p.expected);
    FindingsFind(w, n, s, r);
    PendingIsCleared(n, s, d);
    StageOfDispatch(n, s);
    hide Finds, Lists, Distrusts, SentBack, AcceptedAt, Findings, HasSevere, PostOf, DispatchOf, Accept, DispatchNode, Route,
      ClearPending, LoopInv, PendingInv, CountInv;
    if Distrusts(w, r, p, s.artifactPaths) {
      FailedIs(w, n, s, r);
    } else {
      TrustedHasStatus(w, r, p, s.artifactPaths);
      DispatchIs(w, n, s, d, r);
      AcceptIs(w, n, s, d, r, Findings(w, s, d, r), r.status.value);
    }
  }

  lemma StageOfDispatch(n: Node, s: State)
    requires IsDispatch(n) && Inv(ControlOf(Config(n, s)))
    ensures s.stage == StageAt(n)
  {
    hide LoopInv, PendingInv, BudgetInv, CountInv;
  }

  /** In every execution, whatever comes back at whichever dispatch. */
  lemma ResultTreated(base: string, cs: seq<Config>, events: seq<Event>, n: nat)
    requires Execution(base, cs, events) && n < |events| && IsDispatch(cs[n].node)
    ensures n + 1 < |cs|
    ensures Treated(events[n].world, cs[n].node, cs[n].state, AsResult(events[n].input), cs[n + 1].node, cs[n + 1].state)
  {
    hide *;
    ExecutionStep(base, cs, events, n);
    ExecutionInv(base, cs, events, n);
    DispatchRuns(base, cs[n], events[n]);
    SameConfig(cs[n]);
    NodeTreats(events[n].world, cs[n].node, cs[n].state, AsResult(events[n].input));
  }

  lemma SameConfig(c: Config)
    ensures Config(c.node, c.state) == c
  {
  }
}
