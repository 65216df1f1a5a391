/** How many resumes a workflow takes, and what each of them leaves behind. */
module ResumeCount {
  import opened Basics
  import opened Schema
  import opened Guard
  import opened Workflow
  import opened ControlMachine
  import opened Traces
  import opened Refinement
  import opened Runs
  import opened Budgets

  predicate Pauses(n: Node) { IsDispatch(n) || IsGate(n) }

  /** The resumes consumed before control state `n`: one per node run that pauses. */
  function Resumes(ks: seq<Control>, n: nat): nat
    requires n <= |ks|
  {
    if n == 0 then 0 else Resumes(ks, n - 1) + (if Pauses(ks[n - 1].core.node) then 1 else 0)
  }

  predicate Alive(k: Core) { k.stage != BLOCKED }

  lemma EmptySum()
    ensures SumValues(map[]) == 0
  {
  }

  /** The one resume that leaves neither a decision nor a retry: the guard blocks the workflow. */
  function BlockedByGuard(log: seq<LogRecord>): nat {
    if log != [] && log[|log| - 1].note.GuardBlocked? then 1 else 0
  }

  /** Every resume either records exactly one decision, or is charged to a guard retry, or is the
      last one, on which the guard blocks. */
  lemma {:induction false} ResumesAreAccounted(ks: seq<Control>, log: seq<LogRecord>, n: nat)
    requires Trace(ks, log) && n <= |log|
    ensures Resumes(ks, n) ==
      ks[n].core.decisions + SumValues(ks[n].core.guardRetries) + BlockedByGuard(log[..n])
  {
    hide Trace, Linked, StageInv, LoopInv, PendingInv, BudgetInv, CountInv, Pauses, SumValues;
    TraceStart(ks, log);
    if n == 0 {
      EmptySum();
    } else {
      TraceStep(ks, log, n - 1);
      StepIsAccounted(ks[n - 1], log[n - 1], ks[n]);
      ResumesAreAccounted(ks, log, n - 1);
      if n > 1 {
        TraceStep(ks, log, n - 2);
        NothingAfterBlock(ks[n - 2], log[n - 2], ks[n - 1], log[n - 1], ks[n]);
      }
    }
  }

  lemma NothingAfterBlock(k: Control, rec: LogRecord, k': Control, rec': LogRecord, k'': Control)
    requires Linked(k, rec, k') && Linked(k', rec', k'')
    ensures !rec.note.GuardBlocked?
  {
    hide GuardNote, AcceptNote, GateNote, LoopNote, Target;
  }

  lemma StepIsAccounted(k: Control, rec: LogRecord, k': Control)
    requires LoopInv(k) && Linked(k, rec, k')
    ensures
      k'.core.decisions + SumValues(k'.core.guardRetries) + (if rec.note.GuardBlocked? then 1 else 0) ==
      k.core.decisions + SumValues(k.core.guardRetries) + (if Pauses(k.core.node) then 1 else 0)
  {
    if rec.note.GuardRetry? {
      RetryIsDispatch(k, rec, k');
      SumUpdate(k.core.guardRetries, TargetKey(k), Attempts(k) + 1);
    } else if rec.note.GuardBlocked? {
      RetryIsDispatch(k, rec, k');
    } else if IsDispatch(k.core.node) {
      DecisionPerDispatch(k, rec, k');
    } else if IsGate(k.core.node) {
      DecisionPerAnswer(k, rec, k');
    } else {
      NoDecision(k, rec, k');
    }
  }

  /** Only a dispatch writes a record of the guard. */
  lemma RetryIsDispatch(k: Control, rec: LogRecord, k': Control)
    requires Linked(k, rec, k') && (rec.note.GuardRetry? || rec.note.GuardBlocked?)
    ensures IsDispatch(k.core.node) && Target(k).Some? && k'.core.decisions == k.core.decisions
    ensures k'.core.guardRetries
      == if rec.note.GuardRetry? then k.core.guardRetries[TargetKey(k) := Attempts(k) + 1] else k.core.guardRetries
  {
    hide SevereIds, GuardRetryKey, Options;
  }

  lemma DecisionPerAnswer(k: Control, rec: LogRecord, k': Control)
    requires Linked(k, rec, k') && IsGate(k.core.node)
    ensures k'.core.guardRetries == k.core.guardRetries && k'.core.decisions == k.core.decisions + 1
  {
    hide GuardNote, AcceptNote, LoopNote, Target, Options, GuardRetryKey, StageValue, MayRollBack, NodeAt, StageAfter;
  }

  lemma NoDecision(k: Control, rec: LogRecord, k': Control)
    requires Linked(k, rec, k') && !Pauses(k.core.node)
    ensures k'.core.guardRetries == k.core.guardRetries && k'.core.decisions == k.core.decisions
  {
    hide GuardNote, AcceptNote, GateNote, Target, GuardRetryKey;
  }

  lemma DecisionPerDispatch(k: Control, rec: LogRecord, k': Control)
    requires LoopInv(k) && Linked(k, rec, k') && IsDispatch(k.core.node)
    requires !rec.note.GuardRetry? && !rec.note.GuardBlocked?
    ensures k'.core.guardRetries == k.core.guardRetries && k'.core.decisions == k.core.decisions + 1
  {
    hide GateNote, LoopNote, SevereIds, GuardRetryKey;
    assert !GuardNote(k, rec);
  }

  /** The decisions on record, node by node, when nothing was ever rolled back. */
  function Expected(k: Control): int {
    2 * k.core.consultations + 2 * k.core.hints +
    match k.core.node
    case Init | PmPhase => 0
    case Gate1 => 1
    case PlanningPhase => 2
    case PlanningDevConsult | Gate1_5 => 3
    case DevLoopRouter => 6 + 2 * k.core.index
    case DevSubtaskDispatch => 4 + 2 * k.core.index
    case DevCodexReview => 5 + 2 * k.core.index
    case Gate2 => 4 + 2 * |k.plan|
    case RevDispatch => 5 + 2 * |k.plan|
    case RevCodexFinal => 6 + 2 * |k.plan|
    case Gate3 => 7 + 2 * |k.plan|
    case End => 8 + 2 * |k.plan|
  }

  lemma ExpectedElsewhere(k: Control, rec: LogRecord, k': Control)
    requires StageInv(k.core) && Linked(k, rec, k') && Alive(k'.core)
    requires !IsGate(k.core.node) && !InDev(k.core.node)
    ensures Alive(k.core) && Expected(k') - Expected(k) == k'.core.decisions - k.core.decisions
  {
    hide GuardRetryKey, SevereIds, GateNote, LoopNote, Attempts;
  }

  lemma ExpectedStep(k: Control, rec: LogRecord, k': Control)
    requires StageInv(k.core) && LoopInv(k) && Linked(k, rec, k') && Alive(k'.core)
    requires k'.core.retryCount == 0
    ensures Alive(k.core) && Expected(k') - Expected(k) == k'.core.decisions - k.core.decisions
  {
    if IsGate(k.core.node) {
      ExpectedAtGate(k, rec, k');
    } else if InDev(k.core.node) {
      ExpectedInDev(k, rec, k');
    } else {
      ExpectedElsewhere(k, rec, k');
    }
  }

  lemma ExpectedAtApproval(k: Control, rec: LogRecord, k': Control)
    requires StageInv(k.core) && LoopInv(k) && Linked(k, rec, k') && IsGate(k.core.node) && rec.note.GateApproved?
    ensures Expected(k') - Expected(k) == k'.core.decisions - k.core.decisions
  {
    hide GuardRetryKey, SevereIds, GuardNote, AcceptNote, LoopNote, Target, Options, RolledBack;
  }

  lemma ExpectedAtGate(k: Control, rec: LogRecord, k': Control)
    requires StageInv(k.core) && LoopInv(k) && Linked(k, rec, k') && Alive(k'.core) && IsGate(k.core.node)
    requires k'.core.retryCount == 0
    ensures Expected(k') - Expected(k) == k'.core.decisions - k.core.decisions
  {
    if rec.note.GateApproved? {
      hide *;
      ExpectedAtApproval(k, rec, k');
    } else {
      hide GuardRetryKey, SevereIds, GuardNote, AcceptNote, LoopNote, Target, Options, StageAfter, StageValue;
    }
  }

  lemma ExpectedInDev(k: Control, rec: LogRecord, k': Control)
    requires LoopInv(k) && Linked(k, rec, k') && Alive(k'.core) && InDev(k.core.node)
    ensures Expected(k') - Expected(k) == k'.core.decisions - k.core.decisions
  {
    hide GuardRetryKey, SevereIds, GateNote, Attempts;
  }

  lemma {:induction false} DecisionsAsExpected(ks: seq<Control>, log: seq<LogRecord>, n: nat)
    requires Trace(ks, log) && n <= |log| && Alive(ks[n].core) && ks[n].core.retryCount == 0
    ensures ks[n].core.decisions == Expected(ks[n])
  {
    hide Trace, Linked, StageInv, LoopInv, PendingInv, BudgetInv, CountInv, Alive;
    TraceStart(ks, log);
    if n > 0 {
      TraceStep(ks, log, n - 1);
      RetryCountGrows(ks, log, n - 1, n);
      ExpectedStep(ks[n - 1], log[n - 1], ks[n]);
      DecisionsAsExpected(ks, log, n - 1);
    }
  }

  /** The resumes an execution has consumed when it stands at configuration `n`. */
  function ResumesOf(cs: seq<Config>, n: nat): nat
    requires n <= |cs|
  {
    if n == 0 then 0 else ResumesOf(cs, n - 1) + (if Pauses(cs[n - 1].node) then 1 else 0)
  }

  lemma {:induction false} SameResumes(cs: seq<Config>, m: nat, n: nat)
    requires n <= m < |cs|
    ensures Resumes(Controls(cs, m), n) == ResumesOf(cs, n)
  {
    if n > 0 {
      SameResumes(cs, m, n - 1);
    }
  }

  lemma {:induction false} StaysEnded(base: string, cs: seq<Config>, events: seq<Event>, m: nat, n: nat)
    requires Execution(base, cs, events) && m <= n < |cs| && cs[m].node == End
    ensures cs[n].node == End
  {
    hide *;
    ExecutionLength(base, cs, events);
    if m < n {
      StaysEnded(base, cs, events, m, n - 1);
      ExecutionStep(base, cs, events, n - 1);
      EndStays(base, cs[n - 1], events[n - 1]);
    }
  }

  /** Once ended, a workflow consumes no more. */
  lemma {:induction false} NoResumesAfterEnd(base: string, cs: seq<Config>, events: seq<Event>, m: nat, n: nat)
    requires Execution(base, cs, events) && m <= n < |cs| && cs[m].node == End
    ensures ResumesOf(cs, n) == ResumesOf(cs, m)
  {
    hide Execution;
    if m < n {
      StaysEnded(base, cs, events, m, n - 1);
      NoResumesAfterEnd(base, cs, events, m, n - 1);
    }
  }

  lemma DoneIsEnd(k: Control)
    requires Inv(k) && k.core.stage == DONE
    ensures k.core.node == End
  {
  }

  /** ... in every execution, blocked or not. */
  lemma ResumesOfRun(base: string, cs: seq<Config>, events: seq<Event>, n: nat)
    requires Execution(base, cs, events) && n < |cs|
    ensures var s := cs[n].state;
      ResumesOf(cs, n) == |s.decisions| + SumValues(s.guardRetries) + BlockedByGuard(s.stageLog)
  {
    hide Inv, Step, Trace, Linked, Execution, AllPassed, Pauses, BlockedByGuard;
    ExecutionFollows(base, cs, events, n);
    var log := cs[n].state.stageLog;
    ResumesAreAccounted(Controls(cs, |log|), log, |log|);
    assert log[..|log|] == log;
    SameResumes(cs, |log|, |log|);
    if cs[n].node == End {
      NoResumesAfterEnd(base, cs, events, |log|, n);
    }
  }

  /** The exact resume count.  A run to DONE without rollbacks over N subtasks, R consultations and
      C user hints records exactly 8 + 2N + 2R + 2C decisions, and consumes that many resumes plus
      one for every guard retry. */
  lemma ExactResumeCount(base: string, cs: seq<Config>, events: seq<Event>, n: nat)
    requires Execution(base, cs, events) && n < |cs|
    requires cs[n].state.stage == DONE && cs[n].state.retryCount == 0
    ensures
      var s := cs[n].state;
      && |s.decisions| == 8 + 2 * |s.subtasks| + 2 * |s.consultations| + 2 * |s.hints|
      && ResumesOf(cs, n) == |s.decisions| + SumValues(s.guardRetries)
  {
    hide Inv, Step, Trace, Linked, Execution, AllPassed;
    ExecutionFollows(base, cs, events, n);
    var log := cs[n].state.stageLog;
    var ks := Controls(cs, |log|);
    TraceInv(ks, log, |log|);
    DoneIsEnd(ks[|log|]);
    DecisionsAsExpected(ks, log, |log|);
    ResumesOfRun(base, cs, events, n);
    DoneIsNotBlocked(ks, log);
  }

  lemma DoneIsNotBlocked(ks: seq<Control>, log: seq<LogRecord>)
    requires Trace(ks, log) && ks[|log|].core.stage == DONE
    ensures BlockedByGuard(log) == 0
  {
    if log != [] {
      TraceStep(ks, log, |log| - 1);
    }
  }

  lemma {:induction false} PositiveSum(m: map<string, nat>)
    requires forall k | k in m :: m[k] > 0
    ensures SumValues(m) == 0 <==> m == map[]
  {
    if k :| k in m {
      SumRemove(m, k);
    }
  }

  /** When the documented number of resumes is right: exactly if the user gave no hint and the guard
      made no retry. */
  lemma DocumentedCountIff(base: string, cs: seq<Config>, events: seq<Event>, n: nat)
    requires Execution(base, cs, events) && n < |cs|
    requires cs[n].state.stage == DONE && cs[n].state.retryCount == 0
    ensures
      var s := cs[n].state;
      ResumesOf(cs, n) == 8 + 2 * |s.subtasks| + 2 * |s.consultations| <==> s.hints == [] && s.guardRetries == map[]
  {
    ExactResumeCount(base, cs, events, n);
    ExecutionInv(base, cs, events, n);
    RetriesArePositive(ControlOf(cs[n]));
    PositiveSum(cs[n].state.guardRetries);
    hide Step, Execution, Inv;
  }

  lemma RetriesArePositive(k: Control)
    requires Inv(k)
    ensures forall key | key in k.core.guardRetries :: k.core.guardRetries[key] > 0
  {
    hide StageInv, LoopInv, PendingInv, CountInv;
  }
}
