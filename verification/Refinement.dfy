/** The workflow refines the control machine: every node run writes exactly one log record,
    that record is one the control machine allows there, and reading it takes the control
    part of the old state to the control part of the new one. */
module Refinement {
  import opened Basics
  import opened Schema
  import opened Guard
  import opened Workflow
  import opened ControlMachine
  import opened Observing

  function CoreOf(n: Node, s: State): Core {
    Core(n, s.stage, s.retryCount, s.rollbackCounts, s.guardRetries,
      (match s.pendingRetry case None => None case Some(p) => Some(Pending(p.stage, p.subagent, p.attempt))),
      s.consultRound, s.subtaskIndex, |s.decisions|, |s.consultations|, |s.hints|)
  }

  function ControlOf(c: Config): Control {
    Control(CoreOf(c.node, c.state), PlanIds(c.state.subtasks), Ids(c.state.subtaskResults))
  }

  /** What a record means for the table of subtask results. */
  ghost predicate Tabled(t: ResultTable, note: Note, t': ResultTable) {
    match note
    case PlanningSurfaced(_) => t' == []
    case PlanningDispatch(_) => t' == []
    case GateRolledBack(_, target) => t' == if target == DEV_PHASE then [] else t
    case DevDispatched(id, _) => exists x: SubtaskResult :: t' == Put(t, id, x)
    case Reviewed(id, passed) => exists x: SubtaskResult :: x.reviewPassed == passed && x.codexStatus != "" && t' == Put(t, id, x)
    case _ => t' == t
  }

  /** One step of the workflow seen as the control machine reading one record. */
  ghost predicate Reads(n: Node, s: State, rec: LogRecord, n': Node, s': State) {
    && s'.stageLog == s.stageLog + [rec]
    && (n != Init ==> s'.artifactPaths == s.artifactPaths)
    && (!IsDispatch(n) ==> s'.artifacts == s.artifacts)
    && (n != PlanningPhase ==> s'.subtasks == s.subtasks)
    && Tabled(s.subtaskResults, rec.note, s'.subtaskResults)
    && Enabled(ControlOf(Config(n, s)), rec, PlanIds(s'.subtasks))
    && ControlOf(Config(n', s')) == Advance(ControlOf(Config(n, s)), rec, PlanIds(s'.subtasks))
  }

  lemma {:induction false} ParsedIdsDistinct(items: seq<PlanItem>)
    ensures Distinct(PlanIds(ParsePlan(items)))
  {
    if items != [] {
      ParsedIdsDistinct(items[..|items| - 1]);
    }
  }

  lemma TargetOfDispatch(n: Node, s: State)
    requires IsDispatch(n)
    ensures
      var d, t := DispatchOf(n, s), Target(ControlOf(Config(n, s)));
      && (d.None? <==> t.None?)
      && (d.Some? ==> t.value == (d.value.stage, d.value.subagent))
      && (d.Some? ==> TargetKey(ControlOf(Config(n, s))) == RetryKey(s, d.value))
  {
  }

  lemma ReadInit(base: string)
    ensures Reads(Init, EMPTY_STATE, LogRecord(INIT, Initialized), PmPhase, InitNode(base, EMPTY_STATE))
  {
  }

  lemma ReadLoopDone(s: State)
    requires s.subtaskIndex + 1 >= |s.subtasks|
    ensures Reads(DevLoopRouter, s,
      LogRecord(DEV_PHASE, DevLoopExit(|s.subtaskResults|, |s.subtasks|, AllPassed(s.subtaskResults))), Gate2, DevLoopDone(s))
  {
    hide GuardRetryKey, GuardNote, AcceptNote, GateNote, Target;
  }

  lemma ReadEnter(s: State)
    requires 0 <= s.subtaskIndex + 1 < |s.subtasks| && s.stage == DEV_PHASE
    ensures Reads(DevLoopRouter, s, LogRecord(DEV_PHASE, EnterSubtask(s.subtasks[s.subtaskIndex + 1].taskId)),
      DevSubtaskDispatch, DevLoopNode(s))
  {
    hide GuardRetryKey, GuardNote, AcceptNote, GateNote, Target;
  }

  /** `t` is `s` with the user's answer recorded as one more decision. */
  predicate Recorded(s: State, t: State) {
    && |t.decisions| == |s.decisions| + 1
    && t.artifactPaths == s.artifactPaths && t.artifacts == s.artifacts
    && t.stage == s.stage && t.stageLog == s.stageLog && t.pendingRetry == s.pendingRetry
    && t.retryCount == s.retryCount && t.rollbackCounts == s.rollbackCounts && t.guardRetries == s.guardRetries
    && t.subtasks == s.subtasks && t.subtaskIndex == s.subtaskIndex && t.subtaskResults == s.subtaskResults
    && t.consultRound == s.consultRound && t.consultations == s.consultations && t.hints == s.hints
  }

  lemma AnswerIsRecorded(w: World, g: Gate, s: State, d: GateDecision)
    ensures Recorded(s, WithAnswer(w, g, s, d))
  {
  }

  lemma ReadApprove(n: Node, s: State, t: State)
    requires IsGate(n) && Recorded(s, t)
    ensures
      var g := GateAt(n);
      var s' := Log(t, GateStage(g), GateApproved(g)).(stage := StageAfter(g));
      Reads(n, s, LogRecord(GateStage(g), GateApproved(g)), Route(n, s'), s')
  {
    hide GuardRetryKey, SevereIds, GuardNote, AcceptNote, LoopNote, Target, RouteDispatch, RoutePlanning, RolledBack;
    match n
    case Gate1 =>
    case Gate1_5 =>
    case Gate2 =>
    case Gate3 =>
  }

  predicate Refuses(g: Gate, note: Note) {
    GateNote(g, note) && (note.GateRejected? || note.GateInvalid?)
  }

  lemma RefusalIsEnabled(k: Control, note: Note)
    requires IsGate(k.core.node) && Refuses(GateAt(k.core.node), note)
    ensures Enabled(k, LogRecord(GateStage(GateAt(k.core.node)), note), k.plan)
  {
    hide GuardNote, AcceptNote, LoopNote, GateNote;
  }

  lemma RefusalIsRead(k: Control, g: Gate, note: Note)
    requires Refuses(g, note)
    ensures Advance(k, LogRecord(GateStage(g), note), k.plan) == Control(Answered(k.core, End, BLOCKED), k.plan, k.entered)
  {
    hide GateNote, GuardRetryKey;
  }

  /** An answer that ends the workflow: a rejection, or one that is no option. */
  lemma ReadRefused(n: Node, s: State, t: State, note: Note)
    requires IsGate(n) && Recorded(s, t) && Refuses(GateAt(n), note)
    ensures
      var s' := Log(t, GateStage(GateAt(n)), note).(stage := BLOCKED);
      Reads(n, s, LogRecord(GateStage(GateAt(n)), note), Route(n, s'), s')
  {
    RefusalIsEnabled(ControlOf(Config(n, s)), note);
    RefusalIsRead(ControlOf(Config(n, s)), GateAt(n), note);
    hide Enabled, Advance, GateNote, RouteDispatch, RoutePlanning;
  }

  lemma ReadReject(n: Node, s: State, t: State, answer: string)
    requires IsGate(n) && Recorded(s, t)
    ensures
      var g := GateAt(n);
      var s' := Log(t, GateStage(g), GateRejected(g, answer)).(stage := BLOCKED);
      Reads(n, s, LogRecord(GateStage(g), GateRejected(g, answer)), Route(n, s'), s')
  {
    hide Reads, Route, Recorded;
    ReadRefused(n, s, t, GateRejected(GateAt(n), answer));
  }

  lemma ReadInvalid(n: Node, s: State, t: State, answer: string)
    requires IsGate(n) && Recorded(s, t) && answer !in Options(GateAt(n))
    ensures
      var g := GateAt(n);
      var s' := GateInvalidNode(g, t, answer);
      Reads(n, s, LogRecord(GateStage(g), GateInvalid(g, answer)), Route(n, s'), s')
  {
    var g := GateAt(n);
    var warned := t.(warnings := t.warnings + [Warning(StageValue(GateStage(g)), "user", GATE_INVALID_ANSWER, Severe)]);
    assert Recorded(s, warned);
    hide Reads, Route, Recorded, Options;
    ReadRefused(n, s, warned, GateInvalid(g, answer));
  }

  lemma RollbackRoute(n: Node, s: State, target: Stage)
    requires IsGate(n) && MayRollBack(GateAt(n), target) && s.stage == target
    ensures Route(n, s) == NodeAt(target)
  {
  }

  lemma RollbackCore(n: Node, s: State, t: State, target: Stage)
    requires IsGate(n) && Recorded(s, t) && MayRollBack(GateAt(n), target)
    ensures
      var g := GateAt(n);
      CoreOf(NodeAt(target), GateRollbackNode(g, t, target)) ==
      Replay(CoreOf(n, s), LogRecord(GateStage(g), GateRolledBack(g, target)))
  {
  }

  lemma ReadRollback(n: Node, s: State, t: State, target: Stage)
    requires IsGate(n) && Recorded(s, t) && MayRollBack(GateAt(n), target)
    ensures
      var g := GateAt(n);
      Reads(n, s, LogRecord(GateStage(g), GateRolledBack(g, target)), NodeAt(target), GateRollbackNode(g, t, target))
  {
    RollbackCore(n, s, t, target);
  }

  function ContinueRecord(w: World, h: Hint): LogRecord {
    match HintFault(h)
    case Some(fault) => LogRecord(GATE_1_5, ContinueRejected(fault))
    case None => LogRecord(GATE_1_5, ContinuePlanning(Prefix(w.sha(h.text), 12)))
  }

  lemma ReadHint(w: World, s: State, t: State, h: Hint)
    requires Recorded(s, t) && HintFault(h).None?
    ensures Reads(Gate1_5, s, ContinueRecord(w, h), PlanningPhase, ContinueNode(w, t, h))
  {
    hide GuardRetryKey, SevereIds, GuardNote, AcceptNote, LoopNote, Target, RolledBack, Prefix;
  }

  lemma ReadNoHint(w: World, s: State, t: State, h: Hint)
    requires Recorded(s, t) && HintFault(h).Some?
    ensures Reads(Gate1_5, s, ContinueRecord(w, h), End, ContinueNode(w, t, h))
  {
    hide GuardRetryKey, SevereIds, GuardNote, AcceptNote, LoopNote, Target, RolledBack, Prefix;
  }

  lemma ReadContinue(w: World, s: State, t: State, h: Hint)
    requires Recorded(s, t)
    ensures Reads(Gate1_5, s, ContinueRecord(w, h), Route(Gate1_5, ContinueNode(w, t, h)), ContinueNode(w, t, h))
  {
    hide Reads, Recorded;
    if HintFault(h).None? {
      ReadHint(w, s, t, h);
    } else {
      ReadNoHint(w, s, t, h);
    }
  }

  lemma ReadRetry(n: Node, s: State, d: Dispatch, findings: seq<Warning>)
    requires IsDispatch(n) && DispatchOf(n, s) == Some(d)
    requires Count(s.guardRetries, RetryKey(s, d)) < GUARD_RETRY_LIMIT
    ensures
      var note := GuardRetry(d.subagent, SevereIds(findings), Count(s.guardRetries, RetryKey(s, d)) + 1);
      Reads(n, s, LogRecord(d.stage, note), n, GuardFailed(s, d, findings))
  {
    TargetOfDispatch(n, s);
  }

  lemma ReadBlocked(n: Node, s: State, d: Dispatch, findings: seq<Warning>)
    requires IsDispatch(n) && DispatchOf(n, s) == Some(d)
    requires Count(s.guardRetries, RetryKey(s, d)) >= GUARD_RETRY_LIMIT
    ensures
      var note := GuardBlocked(d.subagent, SevereIds(findings), Count(s.guardRetries, RetryKey(s, d)));
      Reads(n, s, LogRecord(d.stage, note), End, GuardFailed(s, d, findings))
  {
    TargetOfDispatch(n, s);
  }

  /** `t` is `s` after an accepted result has been booked: one more decision, no retry pending,
      and otherwise only claims, findings and artifacts differ. */
  predicate Booked(s: State, t: State) {
    && t.pendingRetry == None
    && |t.decisions| == |s.decisions| + 1
    && t.stage == s.stage && t.stageLog == s.stageLog && t.artifactPaths == s.artifactPaths
    && t.retryCount == s.retryCount && t.rollbackCounts == s.rollbackCounts && t.guardRetries == s.guardRetries
    && t.subtasks == s.subtasks && t.subtaskIndex == s.subtaskIndex && t.subtaskResults == s.subtaskResults
    && t.consultRound == s.consultRound && |t.consultations| == |s.consultations| && |t.hints| == |s.hints|
  }

  lemma AcceptedIsBooked(w: World, s: State, d: Dispatch, r: SubagentResult, findings: seq<Warning>, id: string)
    requires r.SubagentResult? && ClearPending(s, d).pendingRetry == None
    ensures Booked(s, Accepted(w, s, d, r, findings, id))
  {
    assert ClearPending(s, d) == s.(pendingRetry := None);
  }

  lemma WithArtifactsIsBooked(w: World, s: State, t: State, d: Dispatch, r: SubagentResult)
    requires Booked(s, t)
    ensures Booked(s, WithArtifacts(w, t, d, r))
  {
  }

  lemma WithClaimsIsBooked(s: State, t: State, r: SubagentResult, summaryKey: string, gateKey: string)
    requires Booked(s, t) && r.SubagentResult?
    ensures Booked(s, WithClaims(t, r, summaryKey, gateKey))
  {
  }

  lemma ReadPm(s: State, t: State, answer: string)
    requires Booked(s, t)
    ensures Reads(PmPhase, s, LogRecord(PM_PHASE, PmDispatch(answer)), Gate1,
      Log(t, PM_PHASE, PmDispatch(answer)).(stage := GATE_1))
  {
  }

  lemma ReadPlanned(s: State, t: State, r: SubagentResult, note: Note)
    requires Booked(s, t) && r.SubagentResult?
    requires note.PlanningDispatch? || note.PlanningSurfaced?
    ensures Reads(PlanningPhase, s, LogRecord(PLANNING_PHASE, note), Gate1_5, Planned(t, r, note))
  {
    ParsedIdsDistinct(r.subtaskPlan);
  }

  lemma ReadPlanningBlocked(s: State, t: State)
    requires Booked(s, t)
    ensures Reads(PlanningPhase, s, LogRecord(PLANNING_PHASE, PlanningBlocked), End,
      Log(t, PLANNING_PHASE, PlanningBlocked).(stage := BLOCKED))
  {
  }

  lemma ReadNeedsConsult(s: State, t: State)
    requires Booked(s, t) && s.consultRound < MAX_PLANNING_CONSULTATIONS
    ensures Reads(PlanningPhase, s, LogRecord(PLANNING_PHASE, PlanningNeedsConsult(s.consultRound + 1)), PlanningDevConsult,
      Log(t, PLANNING_PHASE, PlanningNeedsConsult(s.consultRound + 1)).(stage := PLANNING_PHASE))
  {
  }

  lemma ReadConsult(s: State, t: State, x: Consultation, answer: string)
    requires Booked(s, t)
    ensures Reads(PlanningDevConsult, s, LogRecord(PLANNING_PHASE, DevConsult(s.consultRound + 1, answer)), PlanningPhase,
      Log(t, PLANNING_PHASE, DevConsult(s.consultRound + 1, answer)).(
        stage := PLANNING_PHASE, consultRound := s.consultRound + 1, consultations := s.consultations + [x]))
  {
  }

  lemma ReadDev(s: State, t: State, x: SubtaskResult, answer: string)
    requires Booked(s, t) && s.stage == DEV_PHASE && CurrentSubtask(s).Some?
    ensures
      var id := CurrentSubtask(s).value.taskId;
      Reads(DevSubtaskDispatch, s, LogRecord(DEV_PHASE, DevDispatched(id, answer)), DevCodexReview,
        Log(t, DEV_PHASE, DevDispatched(id, answer)).(subtaskResults := Put(s.subtaskResults, id, x)))
  {
    PutIds(s.subtaskResults, CurrentSubtask(s).value.taskId, x);
  }

  lemma ReadReview(s: State, t: State, x: SubtaskResult, passed: bool)
    requires Booked(s, t) && s.stage == DEV_PHASE && CurrentSubtask(s).Some? && x.reviewPassed == passed && x.codexStatus != ""
    ensures
      var id := CurrentSubtask(s).value.taskId;
      Reads(DevCodexReview, s, LogRecord(DEV_PHASE, Reviewed(id, passed)), DevLoopRouter,
        Log(t, DEV_PHASE, Reviewed(id, passed)).(subtaskResults := Put(s.subtaskResults, id, x)))
  {
    PutIds(s.subtaskResults, CurrentSubtask(s).value.taskId, x);
  }

  lemma PutIds(t: ResultTable, id: string, x: SubtaskResult)
    ensures Ids(Put(t, id, x)) == Append(Ids(t), id)
  {
  }

  lemma ReadRev(s: State, t: State, answer: string)
    requires Booked(s, t) && s.stage == REV_PHASE
    ensures Reads(RevDispatch, s, LogRecord(REV_PHASE, RevDispatched(answer)), RevCodexFinal,
      Log(t, REV_PHASE, RevDispatched(answer)))
  {
  }

  lemma ReadCodexFinal(s: State, t: State, answer: string, passed: bool)
    requires Booked(s, t)
    ensures Reads(RevCodexFinal, s, LogRecord(REV_PHASE, CodexFinal(answer, passed)), Gate3,
      Log(t, REV_PHASE, CodexFinal(answer, passed)).(stage := GATE_3))
  {
  }

  /** `rec` explains the step, and it is the one the observation calls for. */
  ghost predicate Explains(rec: LogRecord, n: Node, s: State, o: Observation, n': Node, s': State) {
    var k := ControlOf(Config(n, s));
    Reads(n, s, rec, n', s') && Calls(k, s.artifactPaths, o, rec, PlanIds(s'.subtasks))
  }

  lemma RefineInit(base: string, o: Observation)
    ensures Explains(LogRecord(INIT, Initialized), Init, EMPTY_STATE, o,
      Route(Init, InitNode(base, EMPTY_STATE)), InitNode(base, EMPTY_STATE))
  {
    hide Reads;
    ReadInit(base);
  }

  lemma RefineLoop(s: State, o: Observation) returns (rec: LogRecord)
    requires LoopInv(ControlOf(Config(DevLoopRouter, s))) && s.stage == DEV_PHASE
    ensures Explains(rec, DevLoopRouter, s, o, Route(DevLoopRouter, DevLoopNode(s)), DevLoopNode(s))
  {
    hide Reads, Calls, AllPassed, DevSummary, FailedReasons;
    if s.subtaskIndex + 1 < |s.subtasks| {
      ReadEnter(s);
      rec := LogRecord(DEV_PHASE, EnterSubtask(s.subtasks[s.subtaskIndex + 1].taskId));
    } else {
      ReadLoopDone(s);
      rec := LogRecord(DEV_PHASE, DevLoopExit(|s.subtaskResults|, |s.subtasks|, AllPassed(s.subtaskResults)));
    }
    LoopCalls(ControlOf(Config(DevLoopRouter, s)), s.artifactPaths, o, rec.note);
  }

  function GateRecord(w: World, g: Gate, d: GateDecision): LogRecord {
    LogRecord(GateStage(g),
      if d.answer !in Options(g) then GateInvalid(g, d.answer)
      else if d.answer == "approve" then GateApproved(g)
      else if RollbackTarget(d.answer).Some? then GateRolledBack(g, RollbackTarget(d.answer).value)
      else if d.answer == "continue_planning" then ContinueRecord(w, d.hint).note
      else GateRejected(g, d.answer))
  }

  lemma RecordIsCalled(w: World, g: Gate, d: GateDecision, o: Observation)
    requires o.answer == d.answer && o.hintUsable == HintFault(d.hint).None?
    ensures Blank(GateRecord(w, g, d)).note == AnswerNote(g, o)
  {
    hide Options, RollbackTarget, Prefix, GateStage;
    if d.answer in Options(g) && d.answer != "approve" && RollbackTarget(d.answer).None? && d.answer == "continue_planning" {
      assert o.hintUsable <==> ContinueRecord(w, d.hint).note.ContinuePlanning?;
    }
  }

  lemma GateKeepsPlan(n: Node, s: State, rec: LogRecord, n': Node, s': State)
    requires IsGate(n) && Reads(n, s, rec, n', s')
    ensures PlanIds(s'.subtasks) == PlanIds(s.subtasks)
  {
    hide Replay, GuardNote, AcceptNote, LoopNote, Tabled;
  }

  lemma RefineGate(w: World, n: Node, s: State, d: GateDecision, o: Observation) returns (rec: LogRecord)
    requires IsGate(n) && o.answer == d.answer && o.hintUsable == HintFault(d.hint).None?
    ensures Explains(rec, n, s, o, Route(n, GateNode(w, GateAt(n), s, d)), GateNode(w, GateAt(n), s, d))
  {
    hide Reads, Calls, Route, GateNode, AnswerNote, Blank, Options, RollbackTarget, ContinueRecord, HintFault;
    var g := GateAt(n);
    rec := GateRecord(w, g, d);
    ReadGate(w, n, s, d);
    RecordIsCalled(w, g, d, o);
    GateKeepsPlan(n, s, rec, Route(n, GateNode(w, g, s, d)), GateNode(w, g, s, d));
    GateCalls(ControlOf(Config(n, s)), s.artifactPaths, o, g, rec.note);
  }

  lemma ReadGate(w: World, n: Node, s: State, d: GateDecision)
    requires IsGate(n)
    ensures
      var s' := GateNode(w, GateAt(n), s, d);
      Reads(n, s, GateRecord(w, GateAt(n), d), Route(n, s'), s')
  {
    var t := WithAnswer(w, GateAt(n), s, d);
    if d.answer !in Options(GateAt(n)) {
      ReadInvalid(n, s, t, d.answer);
    } else if d.answer == "approve" {
      ReadApprove(n, s, t);
    } else {
      ReadGateRest(w, n, s, d);
    }
  }

  lemma ReadGateRest(w: World, n: Node, s: State, d: GateDecision)
    requires IsGate(n) && d.answer in Options(GateAt(n)) && d.answer != "approve"
    ensures
      var s' := GateNode(w, GateAt(n), s, d);
      Reads(n, s, GateRecord(w, GateAt(n), d), Route(n, s'), s')
  {
    hide Reads, WithAnswer, ContinueNode, RolledBack, GuardRetryKey;
    var g := GateAt(n);
    var t := WithAnswer(w, g, s, d);
    AnswerIsRecorded(w, g, s, d);
    if RollbackTarget(d.answer).Some? {
      var target := RollbackTarget(d.answer).value;
      ReadRollback(n, s, t, target);
      RollbackRoute(n, GateRollbackNode(g, t, target), target);
    } else if d.answer == "continue_planning" {
      ReadContinue(w, s, t, d.hint);
    } else {
      ReadReject(n, s, t, d.answer);
    }
  }

  lemma RefineGuard(n: Node, s: State, d: Dispatch, findings: seq<Warning>, o: Observation) returns (rec: LogRecord)
    requires IsDispatch(n) && DispatchOf(n, s) == Some(d) && s.stage == StageAt(n)
    requires Distrusted(o, s.artifactPaths, d.stage)
    ensures Explains(rec, n, s, o, Route(n, GuardFailed(s, d, findings)), GuardFailed(s, d, findings))
  {
    TargetOfDispatch(n, s);
    GuardCalls(ControlOf(Config(n, s)), s.artifactPaths, o, SevereIds(findings));
    rec := ReadGuard(n, s, d, findings);
  }

  lemma ReadGuard(n: Node, s: State, d: Dispatch, findings: seq<Warning>) returns (rec: LogRecord)
    requires IsDispatch(n) && DispatchOf(n, s) == Some(d) && s.stage == StageAt(n)
    ensures Reads(n, s, rec, Route(n, GuardFailed(s, d, findings)), GuardFailed(s, d, findings))
    ensures GuardFailed(s, d, findings).subtasks == s.subtasks
    ensures rec ==
      var attempts := Count(s.guardRetries, RetryKey(s, d));
      LogRecord(d.stage,
        if attempts >= GUARD_RETRY_LIMIT then GuardBlocked(d.subagent, SevereIds(findings), attempts)
        else GuardRetry(d.subagent, SevereIds(findings), attempts + 1))
  {
    hide Reads;
    var attempts := Count(s.guardRetries, RetryKey(s, d));
    if attempts < GUARD_RETRY_LIMIT {
      ReadRetry(n, s, d, findings);
      rec := LogRecord(d.stage, GuardRetry(d.subagent, SevereIds(findings), attempts + 1));
    } else {
      ReadBlocked(n, s, d, findings);
      rec := LogRecord(d.stage, GuardBlocked(d.subagent, SevereIds(findings), attempts));
    }
  }

  /** `o` is what an accepted result `r` shows. */
  predicate Shows(o: Observation, r: SubagentResult) {
    && r.SubagentResult? && ValidStatus(r.status)
    && o.status == r.status && o.asksDev == AsksDev(r) && o.planIds == PlanIds(ParsePlan(r.subtaskPlan))
  }

  /** An accepted result `r` at node `n`, seen as `o`. */
  predicate Acceptable(w: World, n: Node, s: State, d: Dispatch, r: SubagentResult, o: Observation) {
    && DispatchOf(n, s) == Some(d) && Shows(o, r) && !Distrusted(o, s.artifactPaths, d.stage)
    && ClearPending(s, d).pendingRetry == None && s.stage == StageAt(n)
  }

  lemma AcceptPm(w: World, s: State, d: Dispatch, r: SubagentResult, findings: seq<Warning>, o: Observation)
    returns (rec: LogRecord)
    requires Acceptable(w, PmPhase, s, d, r, o)
    ensures
      var s' := Accept(w, PmPhase, s, d, r, findings);
      Explains(rec, PmPhase, s, o, Route(PmPhase, s'), s')
  {
    hide Reads, Booked, Calls, PlanIds, ProvedArtifacts, Distrusted;
    var a := Accepted(w, s, d, r, findings, "d_pm_dispatch");
    AcceptedIsBooked(w, s, d, r, findings, "d_pm_dispatch");
    WithArtifactsIsBooked(w, s, a, d, r);
    WithClaimsIsBooked(s, WithArtifacts(w, a, d, r), r, "PM_PHASE", "Gate 1");
    ReadPm(s, WithClaims(WithArtifacts(w, a, d, r), r, "PM_PHASE", "Gate 1"), OrElse(r.status, "done"));
    rec := LogRecord(PM_PHASE, PmDispatch(OrElse(r.status, "done")));
    AcceptCalls(ControlOf(Config(PmPhase, s)), s.artifactPaths, o, rec.note, PlanIds(s.subtasks));
  }

  lemma AcceptPlanning(w: World, s: State, d: Dispatch, r: SubagentResult, findings: seq<Warning>, o: Observation)
    returns (rec: LogRecord)
    requires Acceptable(w, PlanningPhase, s, d, r, o)
    ensures
      var s' := Accept(w, PlanningPhase, s, d, r, findings);
      Explains(rec, PlanningPhase, s, o, Route(PlanningPhase, s'), s')
  {
    var a := Accepted(w, s, d, r, findings, "d_planning_dispatch");
    AcceptedIsBooked(w, s, d, r, findings, "d_planning_dispatch");
    WithArtifactsIsBooked(w, s, a, d, r);
    WithClaimsIsBooked(s, WithArtifacts(w, a, d, r), r, "PLANNING_PHASE", "Gate 1.5");
    rec := RefinePlanning(s, WithClaims(WithArtifacts(w, a, d, r), r, "PLANNING_PHASE", "Gate 1.5"), r, o);
  }

  function PlanningNote(t: State, r: SubagentResult): Note
    requires r.SubagentResult? && r.status.Some?
  {
    var exhausted := t.consultRound >= MAX_PLANNING_CONSULTATIONS;
    if r.status == Some("blocked") then PlanningBlocked
    else if r.status == Some("needs_input") && AsksDev(r) && !exhausted then PlanningNeedsConsult(t.consultRound + 1)
    else if r.status == Some("needs_input") then PlanningSurfaced(exhausted)
    else PlanningDispatch(r.status.value)
  }

  lemma PlanningCalls(s: State, r: SubagentResult, o: Observation)
    requires Shows(o, r) && !Distrusted(o, s.artifactPaths, PLANNING_PHASE)
    ensures
      var note := PlanningNote(s, r);
      var plan := if note.PlanningSurfaced? || note.PlanningDispatch? then PlanIds(ParsePlan(r.subtaskPlan)) else PlanIds(s.subtasks);
      Calls(ControlOf(Config(PlanningPhase, s)), s.artifactPaths, o, LogRecord(PLANNING_PHASE, note), plan)
  {
    var note := PlanningNote(s, r);
    var plan := if note.PlanningSurfaced? || note.PlanningDispatch? then PlanIds(ParsePlan(r.subtaskPlan)) else PlanIds(s.subtasks);
    AcceptCalls(ControlOf(Config(PlanningPhase, s)), s.artifactPaths, o, note, plan);
  }

  lemma RefinePlanning(s: State, t: State, r: SubagentResult, o: Observation) returns (rec: LogRecord)
    requires Booked(s, t) && Shows(o, r) && !Distrusted(o, s.artifactPaths, PLANNING_PHASE)
    ensures Explains(rec, PlanningPhase, s, o, RoutePlanning(PlanningOutcome(t, r)), PlanningOutcome(t, r))
  {
    PlanningCalls(s, r, o);
    rec := LogRecord(PLANNING_PHASE, PlanningNote(s, r));
    PlanningReads(s, t, r);
    hide Reads, Calls, PlanningOutcome, RoutePlanning, Booked, Shows, Distrusted;
  }

  /** What is read at the planning node in each of its cases. */
  ghost predicate PlanningRead(s: State, t: State, r: SubagentResult)
    requires r.SubagentResult? && r.status.Some?
  {
    var note := PlanningNote(s, r);
    var s' := PlanningOutcome(t, r);
    && Reads(PlanningPhase, s, LogRecord(PLANNING_PHASE, note), RoutePlanning(s'), s')
    && PlanIds(s'.subtasks)
       == if note.PlanningSurfaced? || note.PlanningDispatch? then PlanIds(ParsePlan(r.subtaskPlan)) else PlanIds(s.subtasks)
  }

  lemma BlockedRead(s: State, t: State, r: SubagentResult)
    requires Booked(s, t) && r.SubagentResult? && r.status == Some("blocked")
    ensures PlanningRead(s, t, r)
  {
    hide Reads, ParsePlan, AsksDev;
    ReadPlanningBlocked(s, t);
  }

  lemma NeedsConsultRead(s: State, t: State, r: SubagentResult)
    requires Booked(s, t) && r.SubagentResult? && r.status == Some("needs_input")
    requires AsksDev(r) && t.consultRound < MAX_PLANNING_CONSULTATIONS
    ensures PlanningRead(s, t, r)
  {
    hide Reads, ParsePlan, AsksDev;
    ReadNeedsConsult(s, t);
  }

  lemma SurfacedRead(s: State, t: State, r: SubagentResult)
    requires Booked(s, t) && r.SubagentResult? && r.status == Some("needs_input")
    requires AsksDev(r) ==> t.consultRound >= MAX_PLANNING_CONSULTATIONS
    ensures PlanningRead(s, t, r)
  {
    ReadSurfaced(s, t, r);
    hide Reads, ParsePlan, AsksDev, PlanningOutcome, RoutePlanning;
  }

  lemma DispatchedRead(s: State, t: State, r: SubagentResult)
    requires Booked(s, t) && r.SubagentResult? && r.status.Some?
    requires r.status.value != "blocked" && r.status.value != "needs_input"
    ensures PlanningRead(s, t, r)
  {
    ReadDispatched(s, t, r);
    hide Reads, ParsePlan, AsksDev, PlanningOutcome, RoutePlanning;
  }

  lemma PlanningReads(s: State, t: State, r: SubagentResult)
    requires Booked(s, t) && r.SubagentResult? && r.status.Some?
    ensures PlanningRead(s, t, r)
  {
    hide *;
    if r.status == Some("blocked") {
      BlockedRead(s, t, r);
    } else if r.status == Some("needs_input") && AsksDev(r) && t.consultRound < MAX_PLANNING_CONSULTATIONS {
      NeedsConsultRead(s, t, r);
    } else if r.status == Some("needs_input") {
      SurfacedRead(s, t, r);
    } else {
      DispatchedRead(s, t, r);
    }
  }

  lemma ReadSurfaced(s: State, t: State, r: SubagentResult)
    requires Booked(s, t) && r.SubagentResult? && r.status == Some("needs_input")
    requires AsksDev(r) ==> t.consultRound >= MAX_PLANNING_CONSULTATIONS
    ensures
      var s' := PlanningOutcome(t, r);
      && Reads(PlanningPhase, s,
               LogRecord(PLANNING_PHASE, PlanningSurfaced(t.consultRound >= MAX_PLANNING_CONSULTATIONS)), Gate1_5, s')
      && s'.subtasks == ParsePlan(r.subtaskPlan) && RoutePlanning(s') == Gate1_5
  {
    var exhausted := t.consultRound >= MAX_PLANNING_CONSULTATIONS;
    ReadPlanned(s, t.(warnings := t.warnings + ConsultLimitWarning(exhausted)), r, PlanningSurfaced(exhausted));
  }

  lemma ReadDispatched(s: State, t: State, r: SubagentResult)
    requires Booked(s, t) && r.SubagentResult? && r.status.Some?
    requires r.status.value != "blocked" && r.status.value != "needs_input"
    ensures
      var s' := PlanningOutcome(t, r);
      && Reads(PlanningPhase, s, LogRecord(PLANNING_PHASE, PlanningDispatch(r.status.value)), Gate1_5, s')
      && s'.subtasks == ParsePlan(r.subtaskPlan) && RoutePlanning(s') == Gate1_5
  {
    ReadPlanned(s, t, r, PlanningDispatch(r.status.value));
  }

  lemma ConsultReads(w: World, s: State, d: Dispatch, r: SubagentResult, findings: seq<Warning>, id: string)
    requires r.SubagentResult? && id == "d_consult_" + Decimal(s.consultRound + 1)
    requires Booked(s, Accepted(w, s, d, r, findings, id))
    ensures
      var s' := ConsultAccept(w, s, d, r, findings);
      && Reads(PlanningDevConsult, s,
               LogRecord(PLANNING_PHASE, DevConsult(s.consultRound + 1, OrElse(r.status, "done"))), PlanningPhase, s')
      && s'.subtasks == s.subtasks
  {
    hide Reads;
    var x := ConsultAccept(w, s, d, r, findings).consultations[|s.consultations|];
    ReadConsult(s, Accepted(w, s, d, r, findings, id), x, OrElse(r.status, "done"));
  }

  lemma AcceptConsult(w: World, s: State, d: Dispatch, r: SubagentResult, findings: seq<Warning>, o: Observation)
    returns (rec: LogRecord)
    requires Acceptable(w, PlanningDevConsult, s, d, r, o)
    ensures
      var s' := Accept(w, PlanningDevConsult, s, d, r, findings);
      Explains(rec, PlanningDevConsult, s, o, Route(PlanningDevConsult, s'), s')
  {
    hide Decimal, Reads;
    var id := "d_consult_" + Decimal(s.consultRound + 1);
    AcceptedIsBooked(w, s, d, r, findings, id);
    ConsultReads(w, s, d, r, findings, id);
    rec := LogRecord(PLANNING_PHASE, DevConsult(s.consultRound + 1, OrElse(r.status, "done")));
    AcceptCalls(ControlOf(Config(PlanningDevConsult, s)), s.artifactPaths, o, rec.note, PlanIds(s.subtasks));
  }

  lemma DevCalls(s: State, o: Observation, answer: string)
    requires CurrentSubtask(s).Some? && !Distrusted(o, s.artifactPaths, DEV_PHASE)
    ensures
      var note := DevDispatched(CurrentSubtask(s).value.taskId, answer);
      Calls(ControlOf(Config(DevSubtaskDispatch, s)), s.artifactPaths, o, LogRecord(DEV_PHASE, note), PlanIds(s.subtasks))
  {
    AcceptCalls(ControlOf(Config(DevSubtaskDispatch, s)), s.artifactPaths, o,
      DevDispatched(CurrentSubtask(s).value.taskId, answer), PlanIds(s.subtasks));
  }

  lemma ReviewCalls(s: State, o: Observation, passed: bool)
    requires CurrentSubtask(s).Some? && !Distrusted(o, s.artifactPaths, DEV_PHASE)
    ensures
      var note := Reviewed(CurrentSubtask(s).value.taskId, passed);
      Calls(ControlOf(Config(DevCodexReview, s)), s.artifactPaths, o, LogRecord(DEV_PHASE, note), PlanIds(s.subtasks))
  {
    AcceptCalls(ControlOf(Config(DevCodexReview, s)), s.artifactPaths, o,
      Reviewed(CurrentSubtask(s).value.taskId, passed), PlanIds(s.subtasks));
  }

  lemma AcceptDev(w: World, s: State, d: Dispatch, r: SubagentResult, findings: seq<Warning>, o: Observation)
    returns (rec: LogRecord)
    requires Acceptable(w, DevSubtaskDispatch, s, d, r, o)
    ensures
      var s' := Accept(w, DevSubtaskDispatch, s, d, r, findings);
      Explains(rec, DevSubtaskDispatch, s, o, Route(DevSubtaskDispatch, s'), s')
  {
    hide Reads, Booked, Calls, PlanIds, ProvedArtifacts, Distrusted;
    var id := CurrentSubtask(s).value.taskId;
    var a := Accepted(w, s, d, r, findings, "d_dev_" + id);
    AcceptedIsBooked(w, s, d, r, findings, "d_dev_" + id);
    WithArtifactsIsBooked(w, s, a, d, r);
    ReadDev(s, WithArtifacts(w, a, d, r), DevResult(r), OrElse(r.status, "done"));
    rec := LogRecord(DEV_PHASE, DevDispatched(id, OrElse(r.status, "done")));
    DevCalls(s, o, OrElse(r.status, "done"));
  }

  lemma AcceptReview(w: World, s: State, d: Dispatch, r: SubagentResult, findings: seq<Warning>, o: Observation)
    returns (rec: LogRecord)
    requires Acceptable(w, DevCodexReview, s, d, r, o)
    ensures
      var s' := Accept(w, DevCodexReview, s, d, r, findings);
      Explains(rec, DevCodexReview, s, o, Route(DevCodexReview, s'), s')
  {
    hide Reads, Booked, Calls, PlanIds, ProvedArtifacts, Distrusted;
    var id := CurrentSubtask(s).value.taskId;
    AcceptedIsBooked(w, s, d, r, findings, "d_codex_" + id);
    ReadReview(s, Accepted(w, s, d, r, findings, "d_codex_" + id), ReviewResult(s.subtaskResults, id, r), GateClaimed(r, "").passed);
    rec := LogRecord(DEV_PHASE, Reviewed(id, GateClaimed(r, "").passed));
    ReviewCalls(s, o, GateClaimed(r, "").passed);
  }

  lemma AcceptRev(w: World, s: State, d: Dispatch, r: SubagentResult, findings: seq<Warning>, o: Observation)
    returns (rec: LogRecord)
    requires Acceptable(w, RevDispatch, s, d, r, o)
    ensures
      var s' := Accept(w, RevDispatch, s, d, r, findings);
      Explains(rec, RevDispatch, s, o, Route(RevDispatch, s'), s')
  {
    hide Reads, Booked, Calls, PlanIds, ProvedArtifacts, Distrusted;
    var a := Accepted(w, s, d, r, findings, "d_rev_agent");
    AcceptedIsBooked(w, s, d, r, findings, "d_rev_agent");
    WithArtifactsIsBooked(w, s, a, d, r);
    WithClaimsIsBooked(s, WithArtifacts(w, a, d, r), r, "REV_PHASE", "Gate 3 - rev_agent");
    ReadRev(s, WithClaims(WithArtifacts(w, a, d, r), r, "REV_PHASE", "Gate 3 - rev_agent"), OrElse(r.status, "done"));
    rec := LogRecord(REV_PHASE, RevDispatched(OrElse(r.status, "done")));
    AcceptCalls(ControlOf(Config(RevDispatch, s)), s.artifactPaths, o, rec.note, PlanIds(s.subtasks));
  }

  lemma AcceptCodexFinal(w: World, s: State, d: Dispatch, r: SubagentResult, findings: seq<Warning>, o: Observation)
    returns (rec: LogRecord)
    requires Acceptable(w, RevCodexFinal, s, d, r, o)
    ensures
      var s' := Accept(w, RevCodexFinal, s, d, r, findings);
      Explains(rec, RevCodexFinal, s, o, Route(RevCodexFinal, s'), s')
  {
    hide Reads, Booked, Calls, PlanIds, ProvedArtifacts, Distrusted;
    var a := Accepted(w, s, d, r, findings, "d_codex_final");
    AcceptedIsBooked(w, s, d, r, findings, "d_codex_final");
    WithClaimsIsBooked(s, a, r, "REV_PHASE_CODEX", "Gate 3");
    ReadCodexFinal(s, WithClaims(a, r, "REV_PHASE_CODEX", "Gate 3"), OrElse(r.status, "done"), GateClaimed(r, "Gate 3").passed);
    rec := LogRecord(REV_PHASE, CodexFinal(OrElse(r.status, "done"), GateClaimed(r, "Gate 3").passed));
    AcceptCalls(ControlOf(Config(RevCodexFinal, s)), s.artifactPaths, o, rec.note, PlanIds(s.subtasks));
  }

  lemma RefineAccept(w: World, n: Node, s: State, d: Dispatch, r: SubagentResult, findings: seq<Warning>, o: Observation)
    returns (rec: LogRecord)
    requires Acceptable(w, n, s, d, r, o)
    ensures
      var s' := Accept(w, n, s, d, r, findings);
      Explains(rec, n, s, o, Route(n, s'), s')
  {
    match n
    case PmPhase => rec := AcceptPm(w, s, d, r, findings, o);
    case PlanningPhase => rec := AcceptPlanning(w, s, d, r, findings, o);
    case PlanningDevConsult => rec := AcceptConsult(w, s, d, r, findings, o);
    case DevSubtaskDispatch => rec := AcceptDev(w, s, d, r, findings, o);
    case DevCodexReview => rec := AcceptReview(w, s, d, r, findings, o);
    case RevDispatch => rec := AcceptRev(w, s, d, r, findings, o);
    case RevCodexFinal => rec := AcceptCodexFinal(w, s, d, r, findings, o);
  }

  lemma PendingIsCleared(n: Node, s: State, d: Dispatch)
    requires IsDispatch(n) && DispatchOf(n, s) == Some(d) && PendingInv(ControlOf(Config(n, s)))
    ensures ClearPending(s, d).pendingRetry == None
  {
    TargetOfDispatch(n, s);
  }

  lemma DispatchExists(n: Node, s: State)
    requires IsDispatch(n) && LoopInv(ControlOf(Config(n, s)))
    ensures DispatchOf(n, s).Some?
  {
  }

  lemma DispatchIs(w: World, n: Node, s: State, d: Dispatch, r: SubagentResult)
    requires IsDispatch(n) && DispatchOf(n, s) == Some(d)
    requires !HasSevere(Findings(w, s, d, r)) ==> r.SubagentResult? && ValidStatus(r.status)
    ensures DispatchNode(w, n, s, r)
      == if HasSevere(Findings(w, s, d, r)) then GuardFailed(s, d, Findings(w, s, d, r))
         else Accept(w, n, s, d, r, Findings(w, s, d, r))
  {
    hide Accept, GuardFailed, DispatchOf, AllFindings, HasSevere;
  }

  /** What the guard's verdict on a result says about the observation of it. */
  lemma VerdictIsSeen(w: World, n: Node, s: State, d: Dispatch, r: SubagentResult, o: Observation)
    requires DispatchOf(n, s) == Some(d) && ClearPending(s, d).pendingRetry == None && s.stage == StageAt(n)
    requires o == ObserveResult(r).(present := w.disk.Keys, answer := o.answer, hintUsable := o.hintUsable)
    ensures HasSevere(Findings(w, s, d, r)) ==> Distrusted(o, s.artifactPaths, d.stage)
    ensures !HasSevere(Findings(w, s, d, r)) ==> Acceptable(w, n, s, d, r, o)
  {
    hide DispatchOf, ClearPending, AllFindings, ParsePlan, AsksDev;
    SevereIff(w, r, d.expected, s.artifactPaths, d.stage, d.subagent);
    DistrustedIff(w, r, s.artifactPaths, d.stage);
  }

  lemma RefineDispatch(w: World, n: Node, s: State, r: SubagentResult, o: Observation) returns (rec: LogRecord)
    requires IsDispatch(n) && s.stage == StageAt(n)
    requires LoopInv(ControlOf(Config(n, s))) && PendingInv(ControlOf(Config(n, s)))
    requires o == ObserveResult(r).(present := w.disk.Keys, answer := o.answer, hintUsable := o.hintUsable)
    ensures Explains(rec, n, s, o, Route(n, DispatchNode(w, n, s, r)), DispatchNode(w, n, s, r))
  {
    hide Explains, Route, DispatchOf, LoopInv, PendingInv, ClearPending, DispatchNode, Findings, ObserveResult;
    DispatchExists(n, s);
    var d := DispatchOf(n, s).value;
    PendingIsCleared(n, s, d);
    VerdictIsSeen(w, n, s, d, r, o);
    DispatchIs(w, n, s, d, r);
    if HasSevere(Findings(w, s, d, r)) {
      rec := RefineGuard(n, s, d, Findings(w, s, d, r), o);
    } else {
      rec := RefineAccept(w, n, s, d, r, Findings(w, s, d, r), o);
    }
  }

  /** The main refinement: whatever comes in, one run of a node is one step of the control
      machine, labelled by the record it appends to the stage log, and that record is the one
      the observation of the input calls for. */
  lemma StepRefines(base: string, c: Config, e: Event) returns (rec: LogRecord)
    requires c.node != End && (c.node == Init ==> c.state == EMPTY_STATE)
    requires StageInv(ControlOf(c).core) && LoopInv(ControlOf(c)) && PendingInv(ControlOf(c))
    ensures Explains(rec, c.node, c.state, Observe(e), Step(base, c, e).node, Step(base, c, e).state)
  {
    hide Explains, LoopInv, PendingInv, Route, DevLoopNode, GateNode, DispatchNode;
    var (n, s) := (c.node, c.state);
    if n == Init {
      RefineInit(base, Observe(e));
      rec := LogRecord(INIT, Initialized);
    } else if n == DevLoopRouter {
      rec := RefineLoop(s, Observe(e));
    } else if IsGate(n) {
      rec := RefineGate(e.world, n, s, AsDecision(e.input), Observe(e));
    } else {
      rec := RefineDispatch(e.world, n, s, AsResult(e.input), Observe(e));
    }
  }
}
