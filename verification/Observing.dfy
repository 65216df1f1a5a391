/** The narrow channel through which inputs steer the workflow: `Observe` keeps of an event what
    the graph is meant to react to, `NextRecord` says what is written in the log because of it. */
module Observing {
  import opened Basics
  import opened Schema
  import opened Guard
  import opened Workflow
  import opened ControlMachine

  /** What may steer: the declared status and stage, the names of the claimed artifacts, which
      files exist, whether the planner asks a question, the ids of the subtasks, the gate answer
      and whether the hint is usable.  Why it is not, gate claims, summaries, reasons, claimed digests, file
      contents and decision ids are absent. */
  datatype Observation = Observation(
    isDict: bool,
    status: Option<string>,
    stage: Option<string>,
    claimed: set<string>,
    present: set<string>,
    asksDev: bool,
    planIds: seq<string>,
    answer: string,
    hintUsable: bool)

  function ClaimedKeys(r: SubagentResult): set<string> {
    set i | 0 <= i < |Updates(r)| && Updates(r)[i].1.Claim? :: Updates(r)[i].0
  }

  function ObserveResult(r: SubagentResult): Observation {
    if r.NotADict? then Observation(false, None, None, {}, {}, false, [], "", false)
    else Observation(true, r.status, r.stage, ClaimedKeys(r), {}, AsksDev(r), PlanIds(ParsePlan(r.subtaskPlan)), "", false)
  }

  function Observe(e: Event): Observation {
    ObserveResult(AsResult(e.input)).(
      present := e.world.disk.Keys,
      answer := AsDecision(e.input).answer,
      hintUsable := HintFault(AsDecision(e.input).hint).None?)
  }

  // ----- the next control state, from the observation -----

  /** The guard's verdict, from the observation. */
  predicate Distrusted(o: Observation, paths: map<string, string>, stage: Stage) {
    || !o.isDict
    || !ValidStatus(o.status)
    || (o.stage.Some? && o.stage.value != StageValue(stage))
    || exists key :: key in o.claimed && Registered(paths, key) && paths[key] !in o.present
  }

  function AcceptedNote(k: Control, o: Observation): Note {
    match k.core.node
    case PmPhase => PmDispatch("")
    case PlanningPhase =>
      if o.status == Some("blocked") then PlanningBlocked
      else if o.status != Some("needs_input") then PlanningDispatch("")
      else if o.asksDev && k.core.round < MAX_PLANNING_CONSULTATIONS then PlanningNeedsConsult(k.core.round + 1)
      else PlanningSurfaced(k.core.round >= MAX_PLANNING_CONSULTATIONS)
    case PlanningDevConsult => DevConsult(k.core.round + 1, "")
    case DevSubtaskDispatch => if 0 <= k.core.index < |k.plan| then DevDispatched(k.plan[k.core.index], "") else DevNoCurrent
    case DevCodexReview => if 0 <= k.core.index < |k.plan| then Note.Reviewed(k.plan[k.core.index], false) else ReviewNoCurrent
    case RevDispatch => RevDispatched("")
    case _ => CodexFinal("", false)
  }

  function AnswerNote(g: Gate, o: Observation): Note {
    if o.answer !in Options(g) then GateInvalid(g, "")
    else if o.answer == "approve" then GateApproved(g)
    else if RollbackTarget(o.answer).Some? then GateRolledBack(g, RollbackTarget(o.answer).value)
    else if o.answer != "continue_planning" then GateRejected(g, "")
    else if !o.hintUsable then ContinueRejected(CONTINUE_NO_HINT)
    else ContinuePlanning("")
  }

  /** The record to read next, up to the texts reading ignores. */
  function NextRecord(k: Control, paths: map<string, string>, o: Observation): LogRecord {
    match k.core.node
    case Init => LogRecord(INIT, Initialized)
    case End => LogRecord(BLOCKED, Initialized)
    case Gate1 => LogRecord(GATE_1, AnswerNote(GateOne, o))
    case Gate1_5 => LogRecord(GATE_1_5, AnswerNote(GateOneFive, o))
    case Gate2 => LogRecord(GATE_2, AnswerNote(GateTwo, o))
    case Gate3 => LogRecord(GATE_3, AnswerNote(GateThree, o))
    case DevLoopRouter =>
      LogRecord(DEV_PHASE,
        if 0 <= k.core.index + 1 < |k.plan| then EnterSubtask(k.plan[k.core.index + 1]) else DevLoopExit(0, 0, false))
    case _ =>
      if Target(k).None? then LogRecord(DEV_PHASE, AcceptedNote(k, o)) else
      var (stage, subagent) := Target(k).value;
      LogRecord(stage,
        if !Distrusted(o, paths, stage) then AcceptedNote(k, o)
        else if Attempts(k) >= GUARD_RETRY_LIMIT then GuardBlocked(subagent, {}, Attempts(k))
        else GuardRetry(subagent, {}, Attempts(k) + 1))
  }

  function NextPlan(k: Control, rec: LogRecord, o: Observation): seq<string> {
    if rec.note.PlanningSurfaced? || rec.note.PlanningDispatch? then o.planIds else k.plan
  }

  /** A record without the texts that `Replay` does not read. */
  function Blank(rec: LogRecord): LogRecord {
    LogRecord(rec.stage,
      match rec.note
      case GuardBlocked(p, _, n) => GuardBlocked(p, {}, n)
      case GuardRetry(p, _, n) => GuardRetry(p, {}, n)
      case PmDispatch(_) => PmDispatch("")
      case PlanningDispatch(_) => PlanningDispatch("")
      case DevConsult(round, _) => DevConsult(round, "")
      case GateRejected(g, _) => GateRejected(g, "")
      case GateInvalid(g, _) => GateInvalid(g, "")
      case ContinuePlanning(_) => ContinuePlanning("")
      case ContinueRejected(_) => ContinueRejected(CONTINUE_NO_HINT)
      case DevLoopExit(_, _, _) => DevLoopExit(0, 0, false)
      case DevDispatched(id, _) => DevDispatched(id, "")
      case Reviewed(id, _) => Note.Reviewed(id, false)
      case RevDispatched(_) => RevDispatched("")
      case CodexFinal(_, _) => CodexFinal("", false)
      case _ => rec.note)
  }

  lemma BlankReadsTheSame(k: Control, rec: LogRecord, plan: seq<string>)
    ensures Advance(k, Blank(rec), plan) == Advance(k, rec, plan)
  {
  }

  lemma DistrustedIff(w: World, r: SubagentResult, paths: map<string, string>, stage: Stage)
    ensures Untrustworthy(w, r, paths, stage) <==> Distrusted(ObserveResult(r).(present := w.disk.Keys), paths, stage)
  {
    if r.SubagentResult? {
      var o := ObserveResult(r).(present := w.disk.Keys);
      if i :| 0 <= i < |Updates(r)| && Updates(r)[i].1.Claim?
              && Registered(paths, Updates(r)[i].0) && paths[Updates(r)[i].0] !in w.disk
      {
        assert Updates(r)[i].0 in o.claimed;
      }
    }
  }

  function GateAt(n: Node): Gate
    requires IsGate(n)
  {
    match n case Gate1 => GateOne case Gate1_5 => GateOneFive case Gate2 => GateTwo case Gate3 => GateThree
  }

  /** `rec` is the record the observation calls for, and `plan` the plan standing after it. */
  predicate Calls(k: Control, paths: map<string, string>, o: Observation, rec: LogRecord, plan: seq<string>) {
    Blank(rec) == NextRecord(k, paths, o) && plan == NextPlan(k, rec, o)
  }

  lemma GateCalls(k: Control, paths: map<string, string>, o: Observation, g: Gate, note: Note)
    requires IsGate(k.core.node) && g == GateAt(k.core.node)
    requires Blank(LogRecord(GateStage(g), note)).note == AnswerNote(g, o)
    ensures Calls(k, paths, o, LogRecord(GateStage(g), note), k.plan)
  {
  }

  lemma LoopCalls(k: Control, paths: map<string, string>, o: Observation, note: Note)
    requires k.core.node == DevLoopRouter
    requires
      if 0 <= k.core.index + 1 < |k.plan| then note == EnterSubtask(k.plan[k.core.index + 1]) else note.DevLoopExit?
    ensures Calls(k, paths, o, LogRecord(DEV_PHASE, note), k.plan)
  {
  }

  lemma GuardCalls(k: Control, paths: map<string, string>, o: Observation, severe: set<CheckId>)
    requires Target(k).Some? && Distrusted(o, paths, Target(k).value.0)
    ensures
      var (stage, subagent) := Target(k).value;
      var note := if Attempts(k) >= GUARD_RETRY_LIMIT then GuardBlocked(subagent, severe, Attempts(k))
                  else GuardRetry(subagent, severe, Attempts(k) + 1);
      Calls(k, paths, o, LogRecord(stage, note), k.plan)
  {
  }

  lemma AcceptCalls(k: Control, paths: map<string, string>, o: Observation, note: Note, plan: seq<string>)
    requires Target(k).Some? && !Distrusted(o, paths, Target(k).value.0)
    requires Blank(LogRecord(INIT, note)).note == AcceptedNote(k, o)
    requires plan == if note.PlanningSurfaced? || note.PlanningDispatch? then o.planIds else k.plan
    ensures Calls(k, paths, o, LogRecord(Target(k).value.0, note), plan)
  {
  }
}
