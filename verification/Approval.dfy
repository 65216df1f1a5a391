/** DONE is earned: what the log of a run says about the user's approvals and the reviews. */
module Approval {
  import opened Basics
  import opened Schema
  import opened Guard
  import opened Workflow
  import opened ControlMachine
  import opened Traces
  import opened Refinement
  import opened Runs

  // ----- approvals, as a fold over the log and as a statement about it -----

  /** The gates that lie before a stage. */
  function Before(stage: Stage): set<Gate> {
    match stage
    case PLANNING_PHASE | GATE_1_5 => {GateOne}
    case DEV_PHASE | GATE_2 => {GateOne, GateOneFive}
    case REV_PHASE | GATE_3 => {GateOne, GateOneFive, GateTwo}
    case DONE => {GateOne, GateOneFive, GateTwo, GateThree}
    case _ => {}
  }

  /** Approvals add a gate, a rollback leaves only the gates before its target. */
  function Approved(log: seq<LogRecord>): set<Gate> {
    if log == [] then {} else
    var past := Approved(log[..|log| - 1]);
    match log[|log| - 1].note
    case GateApproved(g) => past + {g}
    case GateRolledBack(_, target) => past * Before(target)
    case _ => past
  }

  predicate Undoes(note: Note, g: Gate) {
    note.GateRolledBack? && g !in Before(note.target)
  }

  /** `g` was approved by record `i`, and nothing after it rolled back to or before `g`. */
  predicate StandsFrom(log: seq<LogRecord>, g: Gate, i: int) {
    && 0 <= i < |log|
    && log[i].note == GateApproved(g)
    && forall j | i < j < |log| :: !Undoes(log[j].note, g)
  }

  lemma {:induction false} ApprovedIff(log: seq<LogRecord>, g: Gate)
    ensures g in Approved(log) <==> exists i :: StandsFrom(log, g, i)
  {
    if log != [] {
      var n := |log| - 1;
      var past := log[..n];
      ApprovedIff(past, g);
      assert forall i | 0 <= i < n :: past[i] == log[i];
      if log[n].note == GateApproved(g) {
        assert StandsFrom(log, g, n);
      } else if Undoes(log[n].note, g) {
        assert g !in Approved(log);
      } else {
        if g in Approved(past) {
          var i :| StandsFrom(past, g, i);
          assert StandsFrom(log, g, i);
        }
        if i :| StandsFrom(log, g, i) {
          assert StandsFrom(past, g, i);
        }
      }
    }
  }

  // ----- reviews since DEV was last entered -----

  predicate EntersDev(note: Note) {
    note == GateApproved(GateOneFive) || (note.GateRolledBack? && note.target == DEV_PHASE)
  }

  /** The reviews recorded since the last Gate 1.5 approval or rollback to DEV, in order. */
  function Reviews(log: seq<LogRecord>): seq<(string, bool)> {
    if log == [] then [] else
    var past, note := Reviews(log[..|log| - 1]), log[|log| - 1].note;
    if EntersDev(note) then []
    else if note.Reviewed? then past + [(note.taskId, note.passed)]
    else past
  }

  function ReviewedIds(log: seq<LogRecord>): seq<string> {
    var rs := Reviews(log);
    seq(|rs|, i requires 0 <= i < |rs| => rs[i].0)
  }

  /** Every review in the fold is a record of the log, later than any entry into DEV. */
  lemma {:induction false} ReviewIsRecorded(log: seq<LogRecord>, k: nat, i: nat)
    requires k < |Reviews(log)|
    requires i < |log| && EntersDev(log[i].note)
    ensures exists j :: i < j < |log| && log[j].note == Reviewed(Reviews(log)[k].0, Reviews(log)[k].1)
  {
    var n := |log| - 1;
    var past := log[..n];
    if log[n].note.Reviewed? && k == |Reviews(past)| {
      assert log[n].note == Reviewed(Reviews(log)[k].0, Reviews(log)[k].1);
    } else {
      ReviewIsRecorded(past, k, i);
      var j :| i < j < n && past[j].note == Reviewed(Reviews(past)[k].0, Reviews(past)[k].1);
      assert log[j].note == Reviewed(Reviews(log)[k].0, Reviews(log)[k].1);
    }
  }

  // ----- the invariant over the log -----

  /** How many subtasks have been reviewed at this node, where that is fixed. */
  function Done(k: Control): Option<int> {
    match k.core.node
    case DevLoopRouter => Some(k.core.index + 1)
    case DevSubtaskDispatch | DevCodexReview => Some(k.core.index)
    case Gate2 | RevDispatch | RevCodexFinal | Gate3 => Some(|k.plan|)
    case End => if k.core.stage == DONE then Some(|k.plan|) else None
    case _ => None
  }

  /** The reviews of the log are those of the subtasks done. */
  predicate ReviewsDone(k: Control, ids: seq<string>) {
    Done(k).Some? ==> 0 <= Done(k).value <= |k.plan| && ids == k.plan[..Done(k).value]
  }

  predicate LogInv(k: Control, log: seq<LogRecord>) {
    && (k.core.stage != BLOCKED ==> Approved(log) == Before(k.core.stage))
    && ReviewsDone(k, ReviewedIds(log))
  }

  lemma NotBlocked(k: Control, rec: LogRecord, plan: seq<string>)
    requires StageInv(k.core) && Enabled(k, rec, plan)
    ensures k.core.stage != BLOCKED
  {
    hide GuardNote, AcceptNote, LoopNote, GateNote, Target;
  }

  lemma LogStep(k: Control, log: seq<LogRecord>, rec: LogRecord, plan: seq<string>)
    requires StageInv(k.core) && LoopInv(k) && LogInv(k, log) && Enabled(k, rec, plan)
    ensures LogInv(Advance(k, rec, plan), log + [rec])
  {
    NotBlocked(k, rec, plan);
    hide Approved, Before, ReviewsDone, StageInv, LoopInv, Enabled, Replay;
    if IsGate(k.core.node) {
      ApprovedAtGate(k, log, rec, plan);
    } else {
      ApprovedElsewhere(k, log, rec, plan);
    }
    ReviewedStep(k, log, rec, plan);
  }

  lemma ApprovedAtGate(k: Control, log: seq<LogRecord>, rec: LogRecord, plan: seq<string>)
    requires IsGate(k.core.node) && StageInv(k.core) && Enabled(k, rec, plan)
    requires Approved(log) == Before(k.core.stage)
    ensures
      var c := Replay(k.core, rec);
      c.stage != BLOCKED ==> Approved(log + [rec]) == Before(c.stage)
  {
    hide GuardRetryKey, SevereIds, GuardNote, AcceptNote, LoopNote, Target;
    assert (log + [rec])[..|log|] == log;
  }

  lemma ApprovedElsewhere(k: Control, log: seq<LogRecord>, rec: LogRecord, plan: seq<string>)
    requires !IsGate(k.core.node) && StageInv(k.core) && Enabled(k, rec, plan)
    requires Approved(log) == Before(k.core.stage)
    ensures
      var c := Replay(k.core, rec);
      c.stage != BLOCKED ==> Approved(log + [rec]) == Before(c.stage)
  {
    hide GuardRetryKey, SevereIds, GateNote;
    assert (log + [rec])[..|log|] == log;
  }

  lemma ReviewedAtReview(k: Control, ids: seq<string>, rec: LogRecord, plan: seq<string>)
    requires LoopInv(k) && Enabled(k, rec, plan) && ReviewsDone(k, ids) && rec.note.Reviewed?
    ensures ReviewsDone(Advance(k, rec, plan), ids + [rec.note.taskId])
  {
    hide GuardRetryKey, SevereIds;
    assert k.plan[..k.core.index + 1] == k.plan[..k.core.index] + [rec.note.taskId];
  }

  lemma ReviewedOnEntry(k: Control, rec: LogRecord, plan: seq<string>)
    requires LoopInv(k) && Enabled(k, rec, plan) && EntersDev(rec.note)
    ensures ReviewsDone(Advance(k, rec, plan), [])
  {
    hide GuardRetryKey, SevereIds;
  }

  lemma ReviewedAtGate(k: Control, ids: seq<string>, rec: LogRecord, plan: seq<string>)
    requires LoopInv(k) && Enabled(k, rec, plan) && ReviewsDone(k, ids)
    requires IsGate(k.core.node) && !EntersDev(rec.note)
    ensures ReviewsDone(Advance(k, rec, plan), ids)
  {
    hide GuardRetryKey, SevereIds, GuardNote, AcceptNote, LoopNote, Target;
  }

  lemma ReviewedInDev(k: Control, ids: seq<string>, rec: LogRecord, plan: seq<string>)
    requires LoopInv(k) && Enabled(k, rec, plan) && ReviewsDone(k, ids)
    requires InDev(k.core.node) && !rec.note.Reviewed?
    ensures ReviewsDone(Advance(k, rec, plan), ids)
  {
    hide GuardRetryKey, SevereIds, GateNote;
  }

  lemma ReviewedElsewhere(k: Control, ids: seq<string>, rec: LogRecord, plan: seq<string>)
    requires LoopInv(k) && Enabled(k, rec, plan) && ReviewsDone(k, ids)
    requires !IsGate(k.core.node) && !InDev(k.core.node) && !EntersDev(rec.note)
    ensures ReviewsDone(Advance(k, rec, plan), ids)
  {
    hide GuardRetryKey, SevereIds, GateNote, LoopNote;
  }

  lemma ReviewedStep(k: Control, log: seq<LogRecord>, rec: LogRecord, plan: seq<string>)
    requires LoopInv(k) && Enabled(k, rec, plan) && ReviewsDone(k, ReviewedIds(log))
    ensures ReviewsDone(Advance(k, rec, plan), ReviewedIds(log + [rec]))
  {
    ReviewedNext(log, rec);
    hide *;
    if rec.note.Reviewed? {
      NotEntering(rec.note);
      ReviewedAtReview(k, ReviewedIds(log), rec, plan);
    } else if EntersDev(rec.note) {
      ReviewedOnEntry(k, rec, plan);
    } else if IsGate(k.core.node) {
      ReviewedAtGate(k, ReviewedIds(log), rec, plan);
    } else if InDev(k.core.node) {
      ReviewedInDev(k, ReviewedIds(log), rec, plan);
    } else {
      ReviewedElsewhere(k, ReviewedIds(log), rec, plan);
    }
  }

  lemma NotEntering(note: Note)
    requires note.Reviewed?
    ensures !EntersDev(note)
  {
  }

  lemma ReviewedNext(log: seq<LogRecord>, rec: LogRecord)
    ensures ReviewedIds(log + [rec]) ==
      if EntersDev(rec.note) then []
      else if rec.note.Reviewed? then ReviewedIds(log) + [rec.note.taskId]
      else ReviewedIds(log)
  {
    assert (log + [rec])[..|log|] == log;
  }

  // ----- histories -----

  lemma StartLogInv(ks: seq<Control>, log: seq<LogRecord>)
    requires Trace(ks, log)
    ensures LogInv(ks[0], log[..0])
  {
    hide Linked;
  }

  lemma LogLinked(k: Control, log: seq<LogRecord>, rec: LogRecord, k': Control)
    requires StageInv(k.core) && LoopInv(k) && LogInv(k, log) && Linked(k, rec, k')
    ensures LogInv(k', log + [rec])
  {
    hide StageInv, LoopInv, LogInv, Enabled, Advance;
    LogStep(k, log, rec, k'.plan);
  }

  lemma {:induction false} TraceKeepsLogInv(ks: seq<Control>, log: seq<LogRecord>, n: nat)
    requires Trace(ks, log) && n <= |log|
    ensures LogInv(ks[n], log[..n])
  {
    hide Linked, LogInv, StageInv, LoopInv, PendingInv, BudgetInv, CountInv;
    if n == 0 {
      StartLogInv(ks, log);
    } else {
      TraceKeepsLogInv(ks, log, n - 1);
      TraceStep(ks, log, n - 1);
      LogLinked(ks[n - 1], log[..n - 1], log[n - 1], ks[n]);
      assert log[..n] == log[..n - 1] + [log[n - 1]];
    }
  }

  /** While the workflow is not blocked, folding the user's answers over the log gives exactly
      the gates that lie before the current stage. */
  lemma ApprovalsMatchStage(ks: seq<Control>, log: seq<LogRecord>, g: Gate)
    requires Trace(ks, log) && ks[|log|].core.stage != BLOCKED
    ensures g in Before(ks[|log|].core.stage) <==> exists i :: StandsFrom(log, g, i)
  {
    TraceKeepsLogInv(ks, log, |log|);
    assert log[..|log|] == log;
    ApprovedIff(log, g);
  }

  lemma PlanKept(k: Control, log: seq<LogRecord>, rec: LogRecord, k': Control)
    requires StageInv(k.core) && LogInv(k, log) && Linked(k, rec, k')
    requires GateOneFive in Approved(log)
    ensures k'.plan == k.plan
  {
    assert k.core.node != PlanningPhase;
  }

  /** A standing Gate 1.5 approval freezes the ids of the plan. */
  lemma {:induction false} PlanIdsFrozen(ks: seq<Control>, log: seq<LogRecord>, i: nat, n: nat)
    requires Trace(ks, log) && StandsFrom(log, GateOneFive, i) && i < n <= |log|
    ensures ks[n].plan == ks[i + 1].plan
  {
    hide LoopInv, PendingInv, BudgetInv, CountInv, Linked, Approved;
    if n > i + 1 {
      PlanIdsFrozen(ks, log, i, n - 1);
      TraceInv(ks, log, n - 1);
      TraceKeepsLogInv(ks, log, n - 1);
      assert StandsFrom(log[..n - 1], GateOneFive, i);
      ApprovedIff(log[..n - 1], GateOneFive);
      PlanKept(ks[n - 1], log[..n - 1], log[n - 1], ks[n]);
    }
  }

  // ----- whole runs -----

  lemma StandsEarlier(log: seq<LogRecord>, n: nat, i: int)
    requires StandsFrom(log, GateOneFive, i) && i < n <= |log|
    ensures StandsFrom(log[..n], GateOneFive, i)
  {
  }

  lemma ApprovedIsPlanned(k: Control, log: seq<LogRecord>)
    requires StageInv(k.core) && LogInv(k, log) && GateOneFive in Approved(log)
    ensures k.core.node != PlanningPhase
  {
  }

  lemma NoPlannerAt(ks: seq<Control>, log: seq<LogRecord>, i: int)
    requires Trace(ks, log) && StandsFrom(log, GateOneFive, i)
    ensures |ks| == |log| + 1 && ks[|log|].core.node != PlanningPhase
  {
    hide StageInv, LoopInv, PendingInv, BudgetInv, CountInv, Linked, LogInv, Approved, StandsFrom;
    TraceInv(ks, log, |log|);
    TraceKeepsLogInv(ks, log, |log|);
    ApprovedIff(log, GateOneFive);
    assert log[..|log|] == log;
    ApprovedIsPlanned(ks[|log|], log);
  }

  /** While the approval at Gate 1.5 stands no planner runs. */
  lemma NoPlanner(base: string, cs: seq<Config>, events: seq<Event>, i: int, n: nat)
    requires Execution(base, cs, events) && n < |cs| && StandsFrom(cs[n].state.stageLog, GateOneFive, i)
    ensures cs[n].node != PlanningPhase
  {
    hide Trace, StandsFrom, Execution;
    ExecutionFollows(base, cs, events, n);
    var log := cs[n].state.stageLog;
    NoPlannerAt(Controls(cs, |log|), log, i);
  }

  /** Only the planner's node changes the plan, and the log only grows. */
  lemma PlanStep(base: string, cs: seq<Config>, events: seq<Event>, n: nat)
    requires Execution(base, cs, events) && n < |events|
    ensures n + 1 < |cs| && |cs[n].state.stageLog| <= |cs[n + 1].state.stageLog|
    ensures cs[n].state.stageLog == cs[n + 1].state.stageLog[..|cs[n].state.stageLog|]
    ensures cs[n].node != End ==> |cs[n].state.stageLog| == n
    ensures cs[n].node == End ==> cs[n + 1] == cs[n]
    ensures cs[n].node != PlanningPhase ==> cs[n + 1].state.subtasks == cs[n].state.subtasks
  {
    hide Step, Inv, Trace, Enabled, Advance, Tabled;
    if cs[n].node == End {
      ExecutionStep(base, cs, events, n);
      EndStays(base, cs[n], events[n]);
    } else {
      ExecutionFollows(base, cs, events, n);
      var rec := ExecutionExplains(base, cs, events, n);
    }
  }

  /** A standing Gate 1.5 approval freezes the plan: no subtask comes or goes, and each keeps its place,
      its title and its description. */
  lemma {:induction false} PlanFrozen(base: string, cs: seq<Config>, events: seq<Event>, i: nat, n: nat)
    requires Execution(base, cs, events) && i < n < |cs| && StandsFrom(cs[n].state.stageLog, GateOneFive, i)
    ensures cs[n].state.subtasks == cs[i + 1].state.subtasks
  {
    hide *;
    ExecutionLength(base, cs, events);
    if n > i + 1 {
      PlanStep(base, cs, events, n - 1);
      if cs[n - 1].node != End {
        StandsEarlier(cs[n].state.stageLog, n - 1, i);
        NoPlanner(base, cs, events, i, n - 1);
      }
      PlanFrozen(base, cs, events, i, n - 1);
    }
  }

  lemma ExecutionLength(base: string, cs: seq<Config>, events: seq<Event>)
    requires Execution(base, cs, events)
    ensures |cs| == |events| + 1
  {
    hide Step;
  }

  /** DONE is earned, first half: each gate was approved with no later rollback to or before it. */
  lemma DoneMeansAllGates(base: string, cs: seq<Config>, events: seq<Event>, n: nat, g: Gate)
    requires Execution(base, cs, events) && n < |cs| && cs[n].state.stage == DONE
    ensures exists i :: StandsFrom(cs[n].state.stageLog, g, i)
  {
    ExecutionFollows(base, cs, events, n);
    var log := cs[n].state.stageLog;
    ApprovalsMatchStage(Controls(cs, |log|), log, g);
  }

  /** DONE is earned, second half: every subtask of the plan that was (lastingly) approved at Gate 1.5
      has a review recorded since DEV was entered, be it by that approval or by any later rollback to
      DEV. */
  lemma DoneMeansAllReviewed(base: string, cs: seq<Config>, events: seq<Event>, n: nat, i: nat, j: nat, id: string)
    requires Execution(base, cs, events) && n < |cs| && cs[n].state.stage == DONE
    requires StandsFrom(cs[n].state.stageLog, GateOneFive, i) && i < n && id in PlanIds(cs[i + 1].state.subtasks)
    requires i <= j < |cs[n].state.stageLog| && EntersDev(cs[n].state.stageLog[j].note)
    ensures exists m, passed ::
      j < m < |cs[n].state.stageLog| && cs[n].state.stageLog[m].note == Reviewed(id, passed)
  {
    ExecutionFollows(base, cs, events, n);
    var log := cs[n].state.stageLog;
    TracedReviews(Controls(cs, |log|), log, i, j, id);
  }

  lemma TracedReviews(ks: seq<Control>, log: seq<LogRecord>, i: nat, j: nat, id: string)
    requires Trace(ks, log) && ks[|log|].core.stage == DONE
    requires StandsFrom(log, GateOneFive, i) && id in ks[i + 1].plan
    requires i <= j < |log| && EntersDev(log[j].note)
    ensures exists m, passed :: j < m < |log| && log[m].note == Reviewed(id, passed)
  {
    var k := ks[|log|];
    PlanIdsFrozen(ks, log, i, |log|);
    TraceInv(ks, log, |log|);
    TraceKeepsLogInv(ks, log, |log|);
    assert log[..|log|] == log && k.plan[..|k.plan|] == k.plan;
    assert Done(k) == Some(|k.plan|);
    var m :| 0 <= m < |ReviewedIds(log)| && ReviewedIds(log)[m] == id;
    ReviewIsRecorded(log, m, j);
  }
}
