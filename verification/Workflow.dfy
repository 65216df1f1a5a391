/** The workflow graph: thirteen nodes over one state record, and the routers between them.
    Every node returns its update of the state; outside input arrives only where the graph
    pauses, as a subagent result or as the user's answer at a gate. */
module Workflow {
  import opened Basics
  import opened Schema
  import opened Guard

  const MAX_PLANNING_CONSULTATIONS: nat := 3

  datatype Gate = GateOne | GateOneFive | GateTwo | GateThree

  /** The notes of the stage log, one constructor per format string. */
  datatype Note =
    | Initialized
    | GuardBlocked(subagent: string, severe: set<CheckId>, attempts: nat)
    | GuardRetry(subagent: string, severe: set<CheckId>, attempt: nat)
    | PmDispatch(answer: string)
    | PlanningBlocked
    | PlanningNeedsConsult(round: nat)
    | PlanningSurfaced(exhausted: bool)
    | PlanningDispatch(answer: string)
    | DevConsult(round: nat, answer: string)
    | GateApproved(gate: Gate)
    | GateRolledBack(gate: Gate, target: Stage)
    | GateRejected(gate: Gate, answer: string)
    | GateInvalid(gate: Gate, answer: string)
    | ContinuePlanning(hintSha: string)
    | ContinueRejected(reason: CheckId)
    | EnterSubtask(taskId: string)
    | DevLoopExit(done: nat, total: nat, allPassed: bool)
    | DevNoCurrent
    | ReviewNoCurrent
    | DevDispatched(taskId: string, answer: string)
    | Reviewed(taskId: string, passed: bool)
    | RevDispatched(answer: string)
    | CodexFinal(answer: string, passed: bool)

  datatype LogRecord = LogRecord(stage: Stage, note: Note)

  datatype PendingRetry = PendingRetry(stage: string, subagent: string, attempt: nat, findings: seq<Warning>)

  datatype State = State(
    stage: Stage,
    artifactPaths: map<string, string>,
    artifacts: map<string, ArtifactRef>,
    decisions: seq<Decision>,
    phaseSummaries: map<string, PhaseSummary>,
    gateResults: map<string, GateResult>,
    warnings: seq<Warning>,
    stageLog: seq<LogRecord>,
    retryCount: nat,
    rollbackCounts: map<string, nat>,
    guardRetries: map<string, nat>,
    pendingRetry: Option<PendingRetry>,
    subtasks: seq<Subtask>,
    subtaskIndex: int,
    subtaskResults: ResultTable,
    consultRound: nat,
    consultations: seq<Consultation>,
    hints: seq<HintRef>)

  const EMPTY_STATE :=
    State(INIT, map[], map[], [], map[], map[], [], [], 0, map[], map[], None, [], -1, [], 0, [], [])

  datatype Node =
    | Init | PmPhase | Gate1 | PlanningPhase | PlanningDevConsult | Gate1_5
    | DevLoopRouter | DevSubtaskDispatch | DevCodexReview | Gate2
    | RevDispatch | RevCodexFinal | Gate3 | End

  // ----- shared pieces of the nodes -----

  function Log(s: State, stage: Stage, note: Note): State {
    s.(stageLog := s.stageLog + [LogRecord(stage, note)])
  }

  function CurrentSubtask(s: State): Option<Subtask> {
    if 0 <= s.subtaskIndex < |s.subtasks| then Some(s.subtasks[s.subtaskIndex]) else None
  }

  /** Who is asked, under which stage, and which artifacts it is expected to name. */
  datatype Dispatch = Dispatch(stage: Stage, subagent: string, expected: seq<string>)

  function DevName(taskId: string): string { "dev_agent[" + taskId + "]" }

  function ReviewerName(taskId: string): string { "codex_reviewer[" + taskId + "]" }

  predicate IsDispatch(n: Node) {
    || n.PmPhase? || n.PlanningPhase? || n.PlanningDevConsult? || n.DevSubtaskDispatch? || n.DevCodexReview?
    || n.RevDispatch? || n.RevCodexFinal?
  }

  predicate IsGate(n: Node) {
    n.Gate1? || n.Gate1_5? || n.Gate2? || n.Gate3?
  }

  /** The dispatch a node makes; none at other nodes, or when there is no current subtask. */
  function DispatchOf(n: Node, s: State): Option<Dispatch> {
    match n
    case PmPhase => Some(Dispatch(PM_PHASE, "pm_agent", ["pm_spec", "pm_risks"]))
    case PlanningPhase => Some(Dispatch(PLANNING_PHASE, "planner", ["plan", "task_list"]))
    case PlanningDevConsult => Some(Dispatch(PLANNING_PHASE, "dev_agent[consult]", []))
    case DevSubtaskDispatch =>
      (match CurrentSubtask(s)
       case None => None
       case Some(t) => Some(Dispatch(DEV_PHASE, DevName(t.taskId), ["dev_summary", "dev_self_check", "dev_changed_files"])))
    case DevCodexReview =>
      (match CurrentSubtask(s)
       case None => None
       case Some(t) => Some(Dispatch(DEV_PHASE, ReviewerName(t.taskId), [])))
    case RevDispatch => Some(Dispatch(REV_PHASE, "rev_agent", ["rev_report", "acceptance_checklist"]))
    case RevCodexFinal => Some(Dispatch(REV_PHASE, "codex_final", []))
    case _ => None
  }

  function RetryKey(s: State, d: Dispatch): string {
    GuardRetryKey(d.stage, d.subagent, s.retryCount)
  }

  /** `_handle_guard_outcome` on severe findings: one retry per key, then BLOCKED. */
  function GuardFailed(s: State, d: Dispatch, findings: seq<Warning>): State {
    var attempts := Count(s.guardRetries, RetryKey(s, d));
    var warned := s.(warnings := s.warnings + findings);
    if attempts >= GUARD_RETRY_LIMIT then
      Log(warned, d.stage, GuardBlocked(d.subagent, SevereIds(findings), attempts))
        .(stage := BLOCKED, pendingRetry := None)
    else
      Log(warned, d.stage, GuardRetry(d.subagent, SevereIds(findings), attempts + 1))
        .(guardRetries := s.guardRetries[RetryKey(s, d) := attempts + 1],
          pendingRetry := Some(PendingRetry(StageValue(d.stage), d.subagent, attempts + 1, findings)))
  }

  /** `_consume_pending_retry`: a retry that targets this dispatch is used up by it. */
  function ClearPending(s: State, d: Dispatch): State {
    if s.pendingRetry.Some? && s.pendingRetry.value.stage == StageValue(d.stage) && s.pendingRetry.value.subagent == d.subagent
    then s.(pendingRetry := None)
    else s
  }

  function OrElse(x: Option<string>, default: string): string {
    if x.Some? then x.value else default
  }

  function Audit(w: World, r: SubagentResult, defaultId: string): Decision
    requires r.SubagentResult?
  {
    var answer := OrElse(r.status, "done");
    Decision(OrElse(r.decisionId, defaultId), answer, if r.fileSha != "" then r.fileSha else w.sha(answer), r.filePath)
  }

  function GateClaimed(r: SubagentResult, defaultName: string): GateResult
    requires r.SubagentResult?
  {
    match r.gate
    case None => GateResult(defaultName, false, [])
    case Some(g) => GateResult(OrElse(g.name, defaultName), g.passed == Some(true), g.reasons)
  }

  function SummaryOf(r: SubagentResult): PhaseSummary
    requires r.SubagentResult?
  {
    if r.phaseSummary.Some? then r.phaseSummary.value else EMPTY_SUMMARY
  }

  /** What every accepted dispatch does: one audit decision, the findings, the retry used up. */
  function Accepted(w: World, s: State, d: Dispatch, r: SubagentResult, findings: seq<Warning>, defaultId: string): State
    requires r.SubagentResult?
  {
    ClearPending(s, d).(
      decisions := s.decisions + [Audit(w, r, defaultId)],
      warnings := s.warnings + findings)
  }

  function WithClaims(s: State, r: SubagentResult, summaryKey: string, gateKey: string): State
    requires r.SubagentResult?
  {
    s.(phaseSummaries := s.phaseSummaries[summaryKey := SummaryOf(r)],
       gateResults := s.gateResults[gateKey := GateClaimed(r, gateKey)])
  }

  function WithArtifacts(w: World, s: State, d: Dispatch, r: SubagentResult): State {
    s.(artifacts := s.artifacts + ProvedArtifacts(w, Updates(r), s.artifactPaths, d.stage))
  }

  // ----- the planner's subtask plan -----

  predicate Known(plan: seq<Subtask>, id: string) {
    exists i | 0 <= i < |plan| :: plan[i].taskId == id
  }

  /** `_parse_subtask_plan` on the first items: blank and repeated ids are skipped. */
  function ParsePlan(items: seq<PlanItem>): seq<Subtask> {
    if items == [] then [] else
    var plan, item := ParsePlan(items[..|items| - 1]), items[|items| - 1];
    if item.BadItem? || Strip(item.taskId) == "" || Known(plan, Strip(item.taskId)) then plan
    else plan + [Subtask(Strip(item.taskId), item.title, item.description)]
  }

  // ----- dispatch nodes -----

  function PmAccept(w: World, s: State, d: Dispatch, r: SubagentResult, findings: seq<Warning>): State
    requires r.SubagentResult?
  {
    var t := WithClaims(WithArtifacts(w, Accepted(w, s, d, r, findings, "d_pm_dispatch"), d, r), r, "PM_PHASE", "Gate 1");
    Log(t, PM_PHASE, PmDispatch(OrElse(r.status, "done"))).(stage := GATE_1)
  }

  predicate AsksDev(r: SubagentResult) {
    r.SubagentResult? && r.consultQuestion.Some? && Strip(r.consultQuestion.value) != ""
  }

  /** The planner's result on its way to Gate 1.5: a new plan, and DEV starts from nothing. */
  function Planned(t: State, r: SubagentResult, note: Note): State
    requires r.SubagentResult?
  {
    Log(t, PLANNING_PHASE, note).(
      stage := GATE_1_5, subtasks := ParsePlan(r.subtaskPlan), subtaskIndex := -1, subtaskResults := [])
  }

  function ConsultLimitWarning(exhausted: bool): seq<Warning> {
    Flag(exhausted, Warning("PLANNING_PHASE", "planner", PLANNING_CONSULT_LIMIT, Minor))
  }

  function PlanningOutcome(t: State, r: SubagentResult): State
    requires r.SubagentResult?
  {
    var status := OrElse(r.status, "done");
    var exhausted := t.consultRound >= MAX_PLANNING_CONSULTATIONS;
    if status == "blocked" then
      Log(t, PLANNING_PHASE, PlanningBlocked).(stage := BLOCKED)
    else if status == "needs_input" && AsksDev(r) && !exhausted then
      Log(t, PLANNING_PHASE, PlanningNeedsConsult(t.consultRound + 1)).(stage := PLANNING_PHASE)
    else if status == "needs_input" then
      Planned(t.(warnings := t.warnings + ConsultLimitWarning(exhausted)), r, PlanningSurfaced(exhausted))
    else
      Planned(t, r, PlanningDispatch(status))
  }

  function PlanningAccept(w: World, s: State, d: Dispatch, r: SubagentResult, findings: seq<Warning>): State
    requires r.SubagentResult?
  {
    PlanningOutcome(
      WithClaims(WithArtifacts(w, Accepted(w, s, d, r, findings, "d_planning_dispatch"), d, r), r, "PLANNING_PHASE", "Gate 1.5"), r)
  }

  function ConsultAccept(w: World, s: State, d: Dispatch, r: SubagentResult, findings: seq<Warning>): State
    requires r.SubagentResult?
  {
    var round := s.consultRound + 1;
    var questionSha :=
      if s.decisions != [] && s.decisions[|s.decisions| - 1].filePath != "" then s.decisions[|s.decisions| - 1].sha256 else "";
    var t := Accepted(w, s, d, r, findings, "d_consult_" + Decimal(round));
    Log(t, PLANNING_PHASE, DevConsult(round, OrElse(r.status, "done"))).(
      stage := PLANNING_PHASE,
      consultRound := round,
      consultations := s.consultations + [Consultation(round, questionSha, r.fileSha)])
  }

  function DevResult(r: SubagentResult): SubtaskResult
    requires r.SubagentResult?
  {
    EMPTY_RESULT.(devStatus := OrElse(r.status, "done"), devHandoff := SummaryOf(r).handoffNote, devSha := r.fileSha)
  }

  /** The reviewer's verdict is added to what the developer left. */
  function ReviewResult(t: ResultTable, id: string, r: SubagentResult): SubtaskResult
    requires r.SubagentResult?
  {
    var prior := if Find(t, id).Some? then Find(t, id).value else EMPTY_RESULT;
    SubtaskResult(prior.devStatus, prior.devHandoff, prior.devSha,
      OrElse(r.status, "done"), SummaryOf(r).handoffNote, r.fileSha, GateClaimed(r, "").passed, GateClaimed(r, "").reasons)
  }

  function DevAccept(w: World, s: State, d: Dispatch, r: SubagentResult, findings: seq<Warning>, id: string): State
    requires r.SubagentResult?
  {
    var t := WithArtifacts(w, Accepted(w, s, d, r, findings, "d_dev_" + id), d, r);
    Log(t, DEV_PHASE, DevDispatched(id, OrElse(r.status, "done")))
      .(subtaskResults := Put(s.subtaskResults, id, DevResult(r)))
  }

  function ReviewAccept(w: World, s: State, d: Dispatch, r: SubagentResult, findings: seq<Warning>, id: string): State
    requires r.SubagentResult?
  {
    var t := Accepted(w, s, d, r, findings, "d_codex_" + id);
    Log(t, DEV_PHASE, Reviewed(id, GateClaimed(r, "").passed))
      .(subtaskResults := Put(s.subtaskResults, id, ReviewResult(s.subtaskResults, id, r)))
  }

  function RevAccept(w: World, s: State, d: Dispatch, r: SubagentResult, findings: seq<Warning>): State
    requires r.SubagentResult?
  {
    var t := WithArtifacts(w, Accepted(w, s, d, r, findings, "d_rev_agent"), d, r);
    Log(WithClaims(t, r, "REV_PHASE", "Gate 3 - rev_agent"), REV_PHASE, RevDispatched(OrElse(r.status, "done")))
  }

  function CodexFinalAccept(w: World, s: State, d: Dispatch, r: SubagentResult, findings: seq<Warning>): State
    requires r.SubagentResult?
  {
    var t := WithClaims(Accepted(w, s, d, r, findings, "d_codex_final"), r, "REV_PHASE_CODEX", "Gate 3");
    Log(t, REV_PHASE, CodexFinal(OrElse(r.status, "done"), GateClaimed(r, "Gate 3").passed)).(stage := GATE_3)
  }

  function Accept(w: World, n: Node, s: State, d: Dispatch, r: SubagentResult, findings: seq<Warning>): State
    requires r.SubagentResult? && DispatchOf(n, s) == Some(d)
  {
    match n
    case PmPhase => PmAccept(w, s, d, r, findings)
    case PlanningPhase => PlanningAccept(w, s, d, r, findings)
    case PlanningDevConsult => ConsultAccept(w, s, d, r, findings)
    case DevSubtaskDispatch => DevAccept(w, s, d, r, findings, CurrentSubtask(s).value.taskId)
    case DevCodexReview => ReviewAccept(w, s, d, r, findings, CurrentSubtask(s).value.taskId)
    case RevDispatch => RevAccept(w, s, d, r, findings)
    case RevCodexFinal => CodexFinalAccept(w, s, d, r, findings)
  }

  function Findings(w: World, s: State, d: Dispatch, r: SubagentResult): seq<Warning> {
    AllFindings(w, r, d.expected, s.artifactPaths, d.stage, d.subagent)
  }

  /** A dispatch node on the result that comes back: guard first, then the node's own handling. */
  function DispatchNode(w: World, n: Node, s: State, r: SubagentResult): State
    requires IsDispatch(n)
  {
    match DispatchOf(n, s)
    case None => Log(s, DEV_PHASE, if n.DevSubtaskDispatch? then DevNoCurrent else ReviewNoCurrent)
    case Some(d) =>
      var findings := Findings(w, s, d, r);
      SevereIff(w, r, d.expected, s.artifactPaths, d.stage, d.subagent);
      if HasSevere(findings) then GuardFailed(s, d, findings) else Accept(w, n, s, d, r, findings)
  }

  // ----- gates -----

  function Options(g: Gate): seq<string> {
    match g
    case GateOne => ["approve", "rollback_to_pm", "reject"]
    case GateOneFive => ["approve", "rollback_to_pm", "continue_planning", "reject"]
    case GateTwo => ["approve", "rollback_to_planning", "rollback_to_pm", "reject"]
    case GateThree => ["approve", "rollback_to_dev", "rollback_to_planning", "rollback_to_pm", "reject"]
  }

  function GateStage(g: Gate): Stage {
    match g case GateOne => GATE_1 case GateOneFive => GATE_1_5 case GateTwo => GATE_2 case GateThree => GATE_3
  }

  function StageAfter(g: Gate): Stage {
    match g case GateOne => PLANNING_PHASE case GateOneFive => DEV_PHASE case GateTwo => REV_PHASE case GateThree => DONE
  }

  function GateAuditId(g: Gate): string {
    match g case GateOne => "d_gate_1" case GateOneFive => "d_gate_1_5" case GateTwo => "d_gate_2" case GateThree => "d_gate_3"
  }

  function RollbackTarget(answer: string): Option<Stage> {
    if answer == "rollback_to_pm" then Some(PM_PHASE)
    else if answer == "rollback_to_planning" then Some(PLANNING_PHASE)
    else if answer == "rollback_to_dev" then Some(DEV_PHASE)
    else None
  }

  /** Both counters move; only a rollback to DEV also throws the subtask results away. */
  function RollBack(s: State, target: Stage): State {
    var key := StageValue(target);
    var t := s.(
      stage := target,
      retryCount := s.retryCount + 1,
      rollbackCounts := s.rollbackCounts[key := Count(s.rollbackCounts, key) + 1]);
    if target == DEV_PHASE then t.(subtaskResults := [], subtaskIndex := -1) else t
  }

  function HintFault(h: Hint): Option<CheckId> {
    match h
    case NoHintPath => Some(CONTINUE_NO_HINT)
    case UnreadableHint => Some(CONTINUE_HINT_UNREADABLE)
    case HintTooLarge => Some(CONTINUE_HINT_TOO_LARGE)
    case HintNotUtf8 => Some(CONTINUE_HINT_NOT_UTF8)
    case HintOk(_, _) => None
  }

  function Prefix(s: string, n: nat): string { if |s| <= n then s else s[..n] }

  function ContinueNode(w: World, s: State, h: Hint): State {
    match HintFault(h)
    case Some(fault) =>
      Log(s, GATE_1_5, ContinueRejected(fault)).(
        stage := BLOCKED,
        warnings := s.warnings + [Warning("GATE_1_5", "user", fault, Severe)])
    case None =>
      var sha := w.sha(h.text);
      Log(s, GATE_1_5, ContinuePlanning(Prefix(sha, 12))).(
        stage := PLANNING_PHASE,
        hints := s.hints + [HintRef(sha, h.textPath)],
        consultRound := 0)
  }

  function GateInvalidNode(g: Gate, t: State, answer: string): State {
    Log(t, GateStage(g), GateInvalid(g, answer)).(
      stage := BLOCKED,
      warnings := t.warnings + [Warning(StageValue(GateStage(g)), "user", GATE_INVALID_ANSWER, Severe)])
  }

  function GateRollbackNode(g: Gate, t: State, target: Stage): State {
    RollBack(Log(t, GateStage(g), GateRolledBack(g, target)), target)
  }

  function WithAnswer(w: World, g: Gate, s: State, d: GateDecision): State {
    var sha := if d.fileSha != "" then d.fileSha else w.sha(d.answer);
    s.(decisions := s.decisions + [Decision(OrElse(d.decisionId, GateAuditId(g)), d.answer, sha, d.filePath)])
  }

  function GateNode(w: World, g: Gate, s: State, d: GateDecision): State {
    var t := WithAnswer(w, g, s, d);
    if d.answer !in Options(g) then GateInvalidNode(g, t, d.answer)
    else if d.answer == "approve" then Log(t, GateStage(g), GateApproved(g)).(stage := StageAfter(g))
    else if RollbackTarget(d.answer).Some? then GateRollbackNode(g, t, RollbackTarget(d.answer).value)
    else if d.answer == "continue_planning" then ContinueNode(w, t, d.hint)
    else Log(t, GateStage(g), GateRejected(g, d.answer)).(stage := BLOCKED)
  }

  // ----- the two nodes that take no input -----

  function ArtifactFile(base: string, dir: string, name: string): string {
    base + "/artifacts/" + dir + "/" + name
  }

  function Markdown(name: string): string { name + ".md" }

  function ArtifactPaths(base: string): map<string, string> {
    map[
      "raw_requirement" := base + "/" + Markdown("raw_requirement"),
      "pm_spec" := ArtifactFile(base, "pm", Markdown("spec")),
      "pm_risks" := ArtifactFile(base, "pm", Markdown("risks")),
      "plan" := ArtifactFile(base, "plan", Markdown("plan")),
      "task_list" := ArtifactFile(base, "plan", Markdown("task_list")),
      "planning_discussion" := ArtifactFile(base, "plan", Markdown("discussion")),
      "dev_summary" := ArtifactFile(base, "dev", Markdown("summary")),
      "dev_self_check" := ArtifactFile(base, "dev", Markdown("self_check")),
      "dev_changed_files" := ArtifactFile(base, "dev", "changed_files.txt"),
      "rev_report" := ArtifactFile(base, "rev", Markdown("report")),
      "acceptance_checklist" := ArtifactFile(base, "rev", Markdown("acceptance_checklist"))
    ]
  }

  function InitNode(base: string, s: State): State {
    Log(s, INIT, Initialized).(stage := PM_PHASE, artifactPaths := ArtifactPaths(base))
  }

  predicate AllPassed(t: ResultTable) {
    forall i | 0 <= i < |t| :: t[i].1.reviewPassed
  }

  /** The open issues one subtask contributes: none, a filler, or one per reason. */
  function IssuesOf(id: string, r: SubtaskResult): seq<string> {
    if r.reviewPassed then []
    else if r.reviewReasons == [] then ["subtask " + id + " codex review failed (no reasons given)"]
    else
      seq(|r.reviewReasons|, i requires 0 <= i < |r.reviewReasons| =>
        "subtask " + id + " codex review failed: " + r.reviewReasons[i])
  }

  function OpenIssues(t: ResultTable): seq<string> {
    if t == [] then [] else
    OpenIssues(t[..|t| - 1]) + IssuesOf(t[|t| - 1].0, t[|t| - 1].1)
  }

  function FailedReasons(t: ResultTable): seq<string> {
    if t == [] then [] else
    var (id, r) := t[|t| - 1];
    FailedReasons(t[..|t| - 1]) + (if r.reviewPassed then [] else ["subtask " + id + " codex review failed"])
  }

  function ShowBool(b: bool): string { if b then "True" else "False" }

  function DevSummary(t: ResultTable, total: nat): PhaseSummary {
    PhaseSummary(
      seq(|t|, i requires 0 <= i < |t| =>
        "subtask " + t[i].0 + ": dev_status=" + t[i].1.devStatus + " review_passed=" + ShowBool(t[i].1.reviewPassed)),
      OpenIssues(t),
      [],
      "DEV done (synthetic); " + Decimal(|t|) + "/" + Decimal(total) + " subtasks reviewed, all_passed=" + ShowBool(AllPassed(t)))
  }

  /** All subtasks accounted for: the aggregate Gate 2 shows. */
  function DevLoopDone(s: State): State {
    var t := s.subtaskResults;
    Log(s, DEV_PHASE, DevLoopExit(|t|, |s.subtasks|, AllPassed(t))).(
      stage := GATE_2,
      phaseSummaries := s.phaseSummaries["DEV_PHASE" := DevSummary(t, |s.subtasks|)],
      gateResults := s.gateResults["Gate 2" := GateResult("Gate 2", AllPassed(t), FailedReasons(t))],
      subtaskIndex := -1)
  }

  function DevLoopNode(s: State): State {
    var next := s.subtaskIndex + 1;
    if 0 <= next < |s.subtasks| then
      Log(s, DEV_PHASE, EnterSubtask(s.subtasks[next].taskId)).(subtaskIndex := next)
    else
      DevLoopDone(s)
  }

  // ----- routers and the step -----

  function RouteDispatch(s: State, here: Node, next: Node): Node {
    if s.pendingRetry.Some? then here else if s.stage == BLOCKED then End else next
  }

  function RoutePlanning(s: State): Node {
    if s.pendingRetry.Some? then PlanningPhase
    else if s.stage == PLANNING_PHASE then PlanningDevConsult
    else if s.stage == GATE_1_5 then Gate1_5
    else End
  }

  function Route(n: Node, s: State): Node {
    match n
    case Init => PmPhase
    case PmPhase => RouteDispatch(s, n, Gate1)
    case Gate1 =>
      if s.stage == PLANNING_PHASE then PlanningPhase else if s.stage == PM_PHASE then PmPhase else End
    case PlanningPhase => RoutePlanning(s)
    case PlanningDevConsult => RouteDispatch(s, n, PlanningPhase)
    case Gate1_5 =>
      if s.stage == DEV_PHASE then DevLoopRouter
      else if s.stage == PM_PHASE then PmPhase
      else if s.stage == PLANNING_PHASE then PlanningPhase
      else End
    case DevLoopRouter => if s.stage == GATE_2 then Gate2 else DevSubtaskDispatch
    case DevSubtaskDispatch => RouteDispatch(s, n, DevCodexReview)
    case DevCodexReview => RouteDispatch(s, n, DevLoopRouter)
    case Gate2 =>
      if s.stage == REV_PHASE then RevDispatch
      else if s.stage == PLANNING_PHASE then PlanningPhase
      else if s.stage == PM_PHASE then PmPhase
      else End
    case RevDispatch => RouteDispatch(s, n, RevCodexFinal)
    case RevCodexFinal => RouteDispatch(s, n, Gate3)
    case Gate3 =>
      if s.stage == DONE then End
      else if s.stage == DEV_PHASE then DevLoopRouter
      else if s.stage == PLANNING_PHASE then PlanningPhase
      else if s.stage == PM_PHASE then PmPhase
      else End
    case End => End
  }

  /** What one resume carries.  Any record may arrive anywhere: a gate answer handed to a dispatch
      is a result without a status, a subagent result handed to a gate has no answer. */
  datatype Input = FromSubagent(result: SubagentResult) | FromUser(decision: GateDecision)

  function AsResult(i: Input): SubagentResult {
    match i
    case FromSubagent(r) => r
    case FromUser(d) => SubagentResult(None, None, None, None, None, None, [], d.decisionId, d.fileSha, d.filePath)
  }

  function AsDecision(i: Input): GateDecision {
    match i
    case FromUser(d) => d
    case FromSubagent(r) =>
      if r.NotADict? then GateDecision("", NoHintPath, None, "", "")
      else GateDecision("", NoHintPath, r.decisionId, r.fileSha, r.filePath)
  }

  datatype Event = Event(world: World, input: Input)

  datatype Config = Config(node: Node, state: State)

  function RunNode(base: string, n: Node, s: State, e: Event): State {
    match n
    case End => s
    case Init => InitNode(base, s)
    case Gate1 => GateNode(e.world, GateOne, s, AsDecision(e.input))
    case Gate1_5 => GateNode(e.world, GateOneFive, s, AsDecision(e.input))
    case Gate2 => GateNode(e.world, GateTwo, s, AsDecision(e.input))
    case Gate3 => GateNode(e.world, GateThree, s, AsDecision(e.input))
    case DevLoopRouter => DevLoopNode(s)
    case _ => DispatchNode(e.world, n, s, AsResult(e.input))
  }

  /** One node run and the routing after it.  A finished workflow stays as it is. */
  function Step(base: string, c: Config, e: Event): Config {
    if c.node == End then c else
    var s := RunNode(base, c.node, c.state, e);
    Config(Route(c.node, s), s)
  }

  const START := Config(Init, EMPTY_STATE)

  /** An execution: the configurations before, between and after a sequence of events. */
  predicate Execution(base: string, cs: seq<Config>, events: seq<Event>) {
    && |cs| == |events| + 1
    && cs[0] == START
    && forall i | 0 <= i < |events| :: cs[i + 1] == Step(base, cs[i], events[i])
  }
}
