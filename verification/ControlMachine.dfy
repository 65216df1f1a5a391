/** The control machine: what is left of the workflow when only its counters, its place and
    the names of the subtasks are kept.  Its alphabet is the stage log: `Advance` reads one
    log record, `Enabled` says which records may be written where.  Subagent texts, claims,
    digests and artifacts do not appear in it. */
module ControlMachine {
  import opened Basics
  import opened Schema
  import opened Guard
  import opened Workflow

  datatype Pending = Pending(stage: string, subagent: string, attempt: nat)

  /** The part of the state that the log alone determines. */
  datatype Core = Core(
    node: Node,
    stage: Stage,
    retryCount: nat,
    rollbackCounts: map<string, nat>,
    guardRetries: map<string, nat>,
    pending: Option<Pending>,
    round: nat,
    index: int,
    decisions: nat,
    consultations: nat,
    hints: nat)

  /** The core together with the ids of the plan and of the subtasks that have a result. */
  datatype Control = Control(core: Core, plan: seq<string>, entered: seq<string>)

  function PlanIds(plan: seq<Subtask>): (ids: seq<string>)
    ensures |ids| == |plan| && forall i | 0 <= i < |plan| :: ids[i] == plan[i].taskId
  {
    seq(|plan|, i requires 0 <= i < |plan| => plan[i].taskId)
  }

  const CORE_START := Core(Init, INIT, 0, map[], map[], None, 0, -1, 0, 0, 0)

  // ----- reading a log record -----

  function Audited(k: Core, node: Node, stage: Stage): Core {
    k.(node := node, stage := stage, pending := None, decisions := k.decisions + 1)
  }

  function Answered(k: Core, node: Node, stage: Stage): Core {
    k.(node := node, stage := stage, decisions := k.decisions + 1)
  }

  function NodeAt(stage: Stage): Node {
    match stage
    case PM_PHASE => PmPhase
    case PLANNING_PHASE => PlanningPhase
    case DEV_PHASE => DevLoopRouter
    case REV_PHASE => RevDispatch
    case _ => End
  }

  function RolledBack(k: Core, target: Stage): Core {
    var key := StageValue(target);
    Answered(k, NodeAt(target), target).(
      retryCount := k.retryCount + 1,
      rollbackCounts := k.rollbackCounts[key := Count(k.rollbackCounts, key) + 1],
      index := if target == DEV_PHASE then -1 else k.index)
  }

  function Replay(k: Core, rec: LogRecord): Core {
    match rec.note
    case Initialized => k.(node := PmPhase, stage := PM_PHASE)
    case GuardBlocked(_, _, _) => k.(node := End, stage := BLOCKED, pending := None)
    case GuardRetry(subagent, _, attempt) =>
      k.(guardRetries := k.guardRetries[GuardRetryKey(rec.stage, subagent, k.retryCount) := attempt],
         pending := Some(Pending(StageValue(rec.stage), subagent, attempt)))
    case PmDispatch(_) => Audited(k, Gate1, GATE_1)
    case PlanningBlocked => Audited(k, End, BLOCKED)
    case PlanningNeedsConsult(_) => Audited(k, PlanningDevConsult, PLANNING_PHASE)
    case PlanningSurfaced(_) => Audited(k, Gate1_5, GATE_1_5).(index := -1)
    case PlanningDispatch(_) => Audited(k, Gate1_5, GATE_1_5).(index := -1)
    case DevConsult(round, _) =>
      Audited(k, PlanningPhase, PLANNING_PHASE).(round := round, consultations := k.consultations + 1)
    case GateApproved(g) => Answered(k, NodeAt(StageAfter(g)), StageAfter(g))
    case GateRolledBack(_, target) => RolledBack(k, target)
    case GateRejected(_, _) => Answered(k, End, BLOCKED)
    case GateInvalid(_, _) => Answered(k, End, BLOCKED)
    case ContinuePlanning(_) => Answered(k, PlanningPhase, PLANNING_PHASE).(round := 0, hints := k.hints + 1)
    case ContinueRejected(_) => Answered(k, End, BLOCKED)
    case EnterSubtask(_) => k.(node := DevSubtaskDispatch, index := k.index + 1)
    case DevLoopExit(_, _, _) => k.(node := Gate2, stage := GATE_2, index := -1)
    case DevNoCurrent => k.(node := DevCodexReview)
    case ReviewNoCurrent => k.(node := DevLoopRouter)
    case DevDispatched(_, _) => Audited(k, DevCodexReview, DEV_PHASE)
    case Reviewed(_, _) => Audited(k, DevLoopRouter, DEV_PHASE)
    case RevDispatched(_) => Audited(k, RevCodexFinal, REV_PHASE)
    case CodexFinal(_, _) => Audited(k, Gate3, GATE_3)
  }

  /** The state a log describes: nothing but the log is read. */
  function ReplayLog(log: seq<LogRecord>): Core {
    if log == [] then CORE_START else Replay(ReplayLog(log[..|log| - 1]), log[|log| - 1])
  }

  function Append(ids: seq<string>, id: string): seq<string> {
    if id in ids then ids else ids + [id]
  }

  /** One record read by the whole machine; `plan` is the plan standing afterwards. */
  function Advance(k: Control, rec: LogRecord, plan: seq<string>): Control {
    var entered :=
      match rec.note
      case PlanningSurfaced(_) => []
      case PlanningDispatch(_) => []
      case GateRolledBack(_, target) => if target == DEV_PHASE then [] else k.entered
      case DevDispatched(id, _) => Append(k.entered, id)
      case Reviewed(id, _) => Append(k.entered, id)
      case _ => k.entered;
    Control(Replay(k.core, rec), plan, entered)
  }

  // ----- which records a node may write -----

  /** The stage and name of the dispatch made here. */
  function Target(k: Control): Option<(Stage, string)> {
    match k.core.node
    case PmPhase => Some((PM_PHASE, "pm_agent"))
    case PlanningPhase => Some((PLANNING_PHASE, "planner"))
    case PlanningDevConsult => Some((PLANNING_PHASE, "dev_agent[consult]"))
    case DevSubtaskDispatch =>
      if 0 <= k.core.index < |k.plan| then Some((DEV_PHASE, DevName(k.plan[k.core.index]))) else None
    case DevCodexReview =>
      if 0 <= k.core.index < |k.plan| then Some((DEV_PHASE, ReviewerName(k.plan[k.core.index]))) else None
    case RevDispatch => Some((REV_PHASE, "rev_agent"))
    case RevCodexFinal => Some((REV_PHASE, "codex_final"))
    case _ => None
  }

  function TargetKey(k: Control): string
    requires Target(k).Some?
  {
    GuardRetryKey(Target(k).value.0, Target(k).value.1, k.core.retryCount)
  }

  function Attempts(k: Control): nat
    requires Target(k).Some?
  {
    Count(k.core.guardRetries, TargetKey(k))
  }

  predicate GuardNote(k: Control, rec: LogRecord)
    requires Target(k).Some?
  {
    && rec.stage == Target(k).value.0
    && match rec.note
       case GuardBlocked(subagent, _, n) =>
         subagent == Target(k).value.1 && n == Attempts(k) && n >= GUARD_RETRY_LIMIT
       case GuardRetry(subagent, _, n) =>
         subagent == Target(k).value.1 && n == Attempts(k) + 1 && n <= GUARD_RETRY_LIMIT
       case _ => false
  }

  predicate Distinct(ids: seq<string>) {
    forall i, j | 0 <= i < j < |ids| :: ids[i] != ids[j]
  }

  /** The records an accepted result leads to, node by node. */
  predicate AcceptNote(k: Control, note: Note, plan: seq<string>) {
    && (!note.PlanningSurfaced? && !note.PlanningDispatch? ==> plan == k.plan)
    && match k.core.node
       case PmPhase => note.PmDispatch?
       case PlanningPhase =>
         || note.PlanningBlocked?
         || (note.PlanningNeedsConsult? && note.round == k.core.round + 1 <= MAX_PLANNING_CONSULTATIONS)
         || (note.PlanningSurfaced? && Distinct(plan))
         || (note.PlanningDispatch? && Distinct(plan))
       case PlanningDevConsult => note.DevConsult? && note.round == k.core.round + 1
       case DevSubtaskDispatch =>
         note.DevDispatched? && 0 <= k.core.index < |k.plan| && note.taskId == k.plan[k.core.index]
       case DevCodexReview =>
         note.Reviewed? && 0 <= k.core.index < |k.plan| && note.taskId == k.plan[k.core.index]
       case RevDispatch => note.RevDispatched?
       case RevCodexFinal => note.CodexFinal?
       case _ => false
  }

  predicate MayRollBack(g: Gate, target: Stage) {
    || target == PM_PHASE
    || (target == PLANNING_PHASE && (g.GateTwo? || g.GateThree?))
    || (target == DEV_PHASE && g == GateThree)
  }

  predicate GateNote(g: Gate, note: Note) {
    match note
    case GateApproved(h) => h == g
    case GateRolledBack(h, target) => h == g && MayRollBack(g, target)
    case GateRejected(h, _) => h == g
    case GateInvalid(h, answer) => h == g && answer !in Options(g)
    case ContinuePlanning(_) => g == GateOneFive
    case ContinueRejected(_) => g == GateOneFive
    case _ => false
  }

  predicate LoopNote(k: Control, note: Note) {
    match note
    case EnterSubtask(id) => 0 <= k.core.index + 1 < |k.plan| && id == k.plan[k.core.index + 1]
    case DevLoopExit(done, total, _) => k.core.index + 1 >= |k.plan| && done == |k.entered| && total == |k.plan|
    case _ => false
  }

  predicate Enabled(k: Control, rec: LogRecord, plan: seq<string>) {
    match k.core.node
    case Init => rec == LogRecord(INIT, Initialized) && plan == k.plan
    case Gate1 => rec.stage == GATE_1 && GateNote(GateOne, rec.note) && plan == k.plan
    case Gate1_5 => rec.stage == GATE_1_5 && GateNote(GateOneFive, rec.note) && plan == k.plan
    case Gate2 => rec.stage == GATE_2 && GateNote(GateTwo, rec.note) && plan == k.plan
    case Gate3 => rec.stage == GATE_3 && GateNote(GateThree, rec.note) && plan == k.plan
    case DevLoopRouter => rec.stage == DEV_PHASE && LoopNote(k, rec.note) && plan == k.plan
    case End => false
    case _ =>
      && Target(k).Some?
      && ((GuardNote(k, rec) && plan == k.plan)
          || (rec.stage == Target(k).value.0 && AcceptNote(k, rec.note, plan)))
  }

  // ----- the invariant -----

  function StageAt(n: Node): Stage {
    match n
    case Init => INIT
    case PmPhase => PM_PHASE
    case Gate1 => GATE_1
    case PlanningPhase | PlanningDevConsult => PLANNING_PHASE
    case Gate1_5 => GATE_1_5
    case DevLoopRouter | DevSubtaskDispatch | DevCodexReview => DEV_PHASE
    case Gate2 => GATE_2
    case RevDispatch | RevCodexFinal => REV_PHASE
    case Gate3 => GATE_3
    case End => BLOCKED
  }

  predicate StageInv(k: Core) {
    if k.node == End then k.stage == DONE || k.stage == BLOCKED else k.stage == StageAt(k.node)
  }

  /** How many subtasks of the plan have a result at this node, where that is fixed. */
  function Entered(k: Control): Option<int> {
    match k.core.node
    case Gate1_5 => Some(0)
    case DevLoopRouter | DevCodexReview => Some(k.core.index + 1)
    case DevSubtaskDispatch => Some(k.core.index)
    case Gate2 | RevDispatch | RevCodexFinal | Gate3 => Some(|k.plan|)
    case End => if k.core.stage == DONE then Some(|k.plan|) else None
    case _ => None
  }

  predicate InDev(n: Node) { n.DevLoopRouter? || n.DevSubtaskDispatch? || n.DevCodexReview? }

  predicate LoopInv(k: Control) {
    && Distinct(k.plan)
    && (k.core.node.DevSubtaskDispatch? || k.core.node.DevCodexReview? ==> 0 <= k.core.index < |k.plan|)
    && (k.core.node == DevLoopRouter ==> -1 <= k.core.index < |k.plan|)
    && (!InDev(k.core.node) && k.core.node != End ==> k.core.index == -1)
    && (Entered(k).Some? ==>
          0 <= Entered(k).value <= |k.plan| && k.entered == k.plan[..Entered(k).value])
  }

  /** A retry that is pending is meant for the very dispatch that runs next, and its attempt
      number is what that dispatch's key holds. */
  predicate PendingInv(k: Control) {
    k.core.pending.Some? ==>
      && Target(k).Some?
      && k.core.pending.value.stage == StageValue(Target(k).value.0)
      && k.core.pending.value.subagent == Target(k).value.1
      && TargetKey(k) in k.core.guardRetries
      && k.core.pending.value.attempt == k.core.guardRetries[TargetKey(k)]
  }

  ghost predicate IsKeyUpTo(key: string, retryCount: nat) {
    exists stage, subagent, r: nat :: r <= retryCount && key == GuardRetryKey(stage, subagent, r)
  }

  ghost predicate BudgetInv(k: Core) {
    forall key | key in k.guardRetries ::
      0 < k.guardRetries[key] <= GUARD_RETRY_LIMIT && IsKeyUpTo(key, k.retryCount)
  }

  ghost predicate CountInv(k: Core) {
    && k.retryCount == SumValues(k.rollbackCounts)
    && k.round <= MAX_PLANNING_CONSULTATIONS
    && (k.node == PlanningDevConsult ==> k.round < MAX_PLANNING_CONSULTATIONS)
    && k.consultations <= MAX_PLANNING_CONSULTATIONS * k.hints + k.round
  }

  ghost predicate Inv(k: Control) {
    StageInv(k.core) && LoopInv(k) && PendingInv(k) && BudgetInv(k.core) && CountInv(k.core)
  }

  lemma StageStepAtDispatch(k: Control, rec: LogRecord, plan: seq<string>)
    requires StageInv(k.core) && Enabled(k, rec, plan) && IsDispatch(k.core.node)
    ensures StageInv(Replay(k.core, rec))
  {
    hide SevereIds, GuardRetryKey, Attempts, GateNote, LoopNote;
  }

  lemma StageStepAtGate(k: Control, rec: LogRecord, plan: seq<string>)
    requires StageInv(k.core) && Enabled(k, rec, plan) && IsGate(k.core.node)
    ensures StageInv(Replay(k.core, rec))
  {
    hide GuardNote, AcceptNote, LoopNote, GuardRetryKey, SevereIds, Target, Options;
  }

  lemma StageStep(k: Control, rec: LogRecord, plan: seq<string>)
    requires StageInv(k.core) && Enabled(k, rec, plan)
    ensures StageInv(Replay(k.core, rec))
  {
    if IsDispatch(k.core.node) {
      StageStepAtDispatch(k, rec, plan);
    } else if IsGate(k.core.node) {
      StageStepAtGate(k, rec, plan);
    } else {
      hide GuardNote, AcceptNote, GateNote, GuardRetryKey;
    }
  }

  lemma LoopStepAtApproval(k: Control, rec: LogRecord, plan: seq<string>)
    requires LoopInv(k) && Enabled(k, rec, plan) && IsGate(k.core.node) && rec.note.GateApproved?
    ensures LoopInv(Advance(k, rec, plan))
  {
    hide GuardRetryKey, SevereIds, GuardNote, AcceptNote, LoopNote, Target, Options, RolledBack;
  }

  lemma LoopStepAtRollback(k: Control, rec: LogRecord, plan: seq<string>)
    requires LoopInv(k) && Enabled(k, rec, plan) && IsGate(k.core.node) && rec.note.GateRolledBack?
    ensures LoopInv(Advance(k, rec, plan))
  {
    hide GuardRetryKey, SevereIds, GuardNote, AcceptNote, LoopNote, Target, Options, StageAfter, StageValue;
  }

  lemma LoopStepAtGate(k: Control, rec: LogRecord, plan: seq<string>)
    requires LoopInv(k) && Enabled(k, rec, plan) && IsGate(k.core.node)
    ensures LoopInv(Advance(k, rec, plan))
  {
    if rec.note.GateApproved? {
      hide *;
      LoopStepAtApproval(k, rec, plan);
    } else if rec.note.GateRolledBack? {
      hide *;
      LoopStepAtRollback(k, rec, plan);
    } else {
      hide GuardRetryKey, SevereIds, GuardNote, AcceptNote, LoopNote, Target, Options, RolledBack, StageAfter;
    }
  }

  lemma LoopStepElsewhere(k: Control, rec: LogRecord, plan: seq<string>)
    requires LoopInv(k) && Enabled(k, rec, plan) && !IsGate(k.core.node) && !InDev(k.core.node)
    ensures LoopInv(Advance(k, rec, plan))
  {
    hide GuardRetryKey, SevereIds, GateNote, LoopNote;
  }

  lemma LoopStep(k: Control, rec: LogRecord, plan: seq<string>)
    requires LoopInv(k) && Enabled(k, rec, plan)
    ensures LoopInv(Advance(k, rec, plan))
  {
    hide *;
    if InDev(k.core.node) {
      LoopStepInDev(k, rec, plan);
    } else if IsGate(k.core.node) {
      LoopStepAtGate(k, rec, plan);
    } else {
      LoopStepElsewhere(k, rec, plan);
    }
  }

  lemma LoopStepInDev(k: Control, rec: LogRecord, plan: seq<string>)
    requires LoopInv(k) && Enabled(k, rec, plan) && InDev(k.core.node)
    ensures LoopInv(Advance(k, rec, plan))
  {
    hide GuardRetryKey, SevereIds, GateNote, Attempts;
    if rec.note.DevDispatched? {
      assert k.plan[..k.core.index + 1] == k.plan[..k.core.index] + [rec.note.taskId];
    }
  }

  lemma PendingStep(k: Control, rec: LogRecord, plan: seq<string>)
    requires PendingInv(k) && Enabled(k, rec, plan)
    ensures PendingInv(Advance(k, rec, plan))
  {
  }

  lemma BudgetStepAtDispatch(k: Control, rec: LogRecord, plan: seq<string>)
    requires BudgetInv(k.core) && Enabled(k, rec, plan) && IsDispatch(k.core.node)
    ensures BudgetInv(Replay(k.core, rec))
  {
    hide GuardRetryKey, SevereIds, GateNote, LoopNote;
  }

  lemma BudgetStep(k: Control, rec: LogRecord, plan: seq<string>)
    requires BudgetInv(k.core) && Enabled(k, rec, plan)
    ensures BudgetInv(Replay(k.core, rec))
  {
    if IsDispatch(k.core.node) {
      hide *;
      BudgetStepAtDispatch(k, rec, plan);
    } else {
      hide GuardRetryKey, SevereIds, GuardNote, AcceptNote, Options;
    }
  }

  lemma RollbackSumStep(k: Core, rec: LogRecord)
    requires k.retryCount == SumValues(k.rollbackCounts)
    ensures Replay(k, rec).retryCount == SumValues(Replay(k, rec).rollbackCounts)
  {
    if rec.note.GateRolledBack? {
      var key := StageValue(rec.note.target);
      SumUpdate(k.rollbackCounts, key, Count(k.rollbackCounts, key) + 1);
    }
  }

  /** The counters at a gate: an answer moves them, and only a hint renews the round. */
  lemma CountStepAtGate(k: Control, rec: LogRecord, plan: seq<string>)
    requires CountInv(k.core) && Enabled(k, rec, plan) && IsGate(k.core.node)
    ensures CountInv(Replay(k.core, rec))
  {
    RollbackSumStep(k.core, rec);
    hide GuardNote, AcceptNote, LoopNote, GuardRetryKey, SevereIds, StageValue, SumValues, Target, Options;
  }

  lemma CountStepInPlanning(k: Control, rec: LogRecord, plan: seq<string>)
    requires CountInv(k.core) && Enabled(k, rec, plan)
    requires k.core.node == PlanningPhase || k.core.node == PlanningDevConsult
    ensures CountInv(Replay(k.core, rec))
  {
    RollbackSumStep(k.core, rec);
    hide GateNote, LoopNote, GuardRetryKey, SevereIds, StageValue, SumValues, Attempts;
  }

  lemma CountStepElsewhere(k: Control, rec: LogRecord, plan: seq<string>)
    requires CountInv(k.core) && Enabled(k, rec, plan) && !IsGate(k.core.node)
    requires k.core.node != PlanningPhase && k.core.node != PlanningDevConsult
    ensures CountInv(Replay(k.core, rec))
  {
    RollbackSumStep(k.core, rec);
    hide GateNote, GuardRetryKey, SevereIds, StageValue, SumValues, Attempts, Target;
    assert !rec.note.DevConsult? && !rec.note.PlanningNeedsConsult?;
  }

  lemma CountStep(k: Control, rec: LogRecord, plan: seq<string>)
    requires CountInv(k.core) && Enabled(k, rec, plan)
    ensures CountInv(Replay(k.core, rec))
  {
    hide *;
    if IsGate(k.core.node) {
      CountStepAtGate(k, rec, plan);
    } else if k.core.node == PlanningPhase || k.core.node == PlanningDevConsult {
      CountStepInPlanning(k, rec, plan);
    } else {
      CountStepElsewhere(k, rec, plan);
    }
  }

  lemma InvStep(k: Control, rec: LogRecord, plan: seq<string>)
    requires Inv(k) && Enabled(k, rec, plan)
    ensures Inv(Advance(k, rec, plan))
  {
    StageStep(k, rec, plan);
    LoopStep(k, rec, plan);
    PendingStep(k, rec, plan);
    BudgetStep(k, rec, plan);
    CountStep(k, rec, plan);
  }
}
