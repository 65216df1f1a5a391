/** Between two decisions of the user the workflow always comes to rest, and after how many
    subagent dispatches at the latest. */
module Termination {
  import opened Schema
  import opened Guard
  import opened Workflow
  import opened ControlMachine
  import opened Traces
  import opened Refinement
  import opened Runs

  predicate AtRest(n: Node) { IsGate(n) || n == End }

  /** The retry a subagent still has in this round. */
  function Unspent(k: Control, stage: Stage, subagent: string): nat {
    if GuardRetryKey(stage, subagent, k.core.retryCount) in k.core.guardRetries then 0 else 1
  }

  function RoundsLeft(k: Control): int { MAX_PLANNING_CONSULTATIONS - k.core.round }

  function SubtasksLeft(k: Control): int { |k.plan| - 1 - k.core.index }

  /** At most this many dispatches before the next gate or the end. */
  function DispatchesLeft(k: Control): int {
    match k.core.node
    case Init => 2
    case PmPhase => 1 + Unspent(k, PM_PHASE, "pm_agent")
    case PlanningPhase =>
      2 * RoundsLeft(k) + 1 + Unspent(k, PLANNING_PHASE, "planner") + Unspent(k, PLANNING_PHASE, "dev_agent[consult]")
    case PlanningDevConsult =>
      2 * RoundsLeft(k) + Unspent(k, PLANNING_PHASE, "planner") + Unspent(k, PLANNING_PHASE, "dev_agent[consult]")
    case DevLoopRouter => 4 * SubtasksLeft(k)
    case DevSubtaskDispatch =>
      if 0 <= k.core.index < |k.plan| then
        4 * SubtasksLeft(k) + 2
        + Unspent(k, DEV_PHASE, DevName(k.plan[k.core.index])) + Unspent(k, DEV_PHASE, ReviewerName(k.plan[k.core.index]))
      else 0
    case DevCodexReview =>
      if 0 <= k.core.index < |k.plan| then
        4 * SubtasksLeft(k) + 1 + Unspent(k, DEV_PHASE, ReviewerName(k.plan[k.core.index]))
      else 0
    case RevDispatch => 2 + Unspent(k, REV_PHASE, "rev_agent") + Unspent(k, REV_PHASE, "codex_final")
    case RevCodexFinal => 1 + Unspent(k, REV_PHASE, "codex_final")
    case _ => 0
  }

  /** Node runs without a dispatch that may still come in between. */
  function RoutingsLeft(k: Control): int {
    match k.core.node
    case Init => 1
    case DevLoopRouter | DevSubtaskDispatch | DevCodexReview => SubtasksLeft(k) + 1
    case _ => 0
  }

  function StepsLeft(k: Control): int { DispatchesLeft(k) + RoutingsLeft(k) }

  lemma LeftIsPositive(k: Control)
    requires Inv(k)
    ensures 0 <= DispatchesLeft(k) <= StepsLeft(k)
    ensures AtRest(k.core.node) || StepsLeft(k) > 0
  {
  }

  /** The measure: every dispatch spends at least one of the dispatches left, routing spends none
      of them, and every node run spends at least one of the steps left. */
  lemma LeftDecreases(k: Control, rec: LogRecord, k': Control)
    requires Inv(k) && Linked(k, rec, k') && !AtRest(k.core.node) && !AtRest(k'.core.node)
    ensures DispatchesLeft(k') <= DispatchesLeft(k) - (if IsDispatch(k.core.node) then 1 else 0)
    ensures StepsLeft(k') < StepsLeft(k)
  {
    if rec.note.GuardRetry? {
      RetryDecreases(k, rec, k');
    } else if InDev(k.core.node) {
      DevDecreases(k, rec, k');
    } else {
      OthersDecrease(k, rec, k');
    }
  }

  lemma OthersDecrease(k: Control, rec: LogRecord, k': Control)
    requires StageInv(k.core) && CountInv(k.core) && Linked(k, rec, k')
    requires !AtRest(k.core.node) && !AtRest(k'.core.node) && !InDev(k.core.node) && !rec.note.GuardRetry?
    ensures DispatchesLeft(k') <= DispatchesLeft(k) - (if IsDispatch(k.core.node) then 1 else 0)
    ensures StepsLeft(k') < StepsLeft(k)
  {
    hide GuardRetryKey, SevereIds, Attempts;
    assert k'.core.guardRetries == k.core.guardRetries && k'.core.retryCount == k.core.retryCount;
  }

  /** A retry is spent for good: its key was not there, and nothing else of the measure moves. */
  lemma RetrySpends(k: Control, rec: LogRecord, k': Control)
    requires BudgetInv(k.core) && Linked(k, rec, k') && rec.note.GuardRetry?
    ensures Target(k).Some? && TargetKey(k) !in k.core.guardRetries
    ensures k'.plan == k.plan
    ensures k'.core.node == k.core.node && k'.core.index == k.core.index
    ensures k'.core.round == k.core.round && k'.core.retryCount == k.core.retryCount
    ensures k'.core.guardRetries == k.core.guardRetries[TargetKey(k) := 1]
  {
    hide Options, SevereIds, GuardRetryKey;
  }

  lemma RetryDecreases(k: Control, rec: LogRecord, k': Control)
    requires LoopInv(k) && BudgetInv(k.core) && Linked(k, rec, k') && rec.note.GuardRetry?
    ensures DispatchesLeft(k') <= DispatchesLeft(k) - 1
    ensures StepsLeft(k') < StepsLeft(k)
  {
    hide Linked, BudgetInv, GuardRetryKey;
    RetrySpends(k, rec, k');
  }

  lemma DevDecreases(k: Control, rec: LogRecord, k': Control)
    requires LoopInv(k) && Linked(k, rec, k') && InDev(k.core.node) && !rec.note.GuardRetry? && !AtRest(k'.core.node)
    ensures DispatchesLeft(k') <= DispatchesLeft(k) - (if IsDispatch(k.core.node) then 1 else 0)
    ensures StepsLeft(k') < StepsLeft(k)
  {
    assert k'.core.guardRetries == k.core.guardRetries && k'.core.retryCount == k.core.retryCount && k'.plan == k.plan;
  }

  // ----- executions -----

  /** The dispatches made from configuration `n` up to configuration `m`. */
  function DispatchCount(cs: seq<Config>, n: nat, m: nat): nat
    requires n <= m < |cs|
    decreases m - n
  {
    if n == m then 0 else (if IsDispatch(cs[n].node) then 1 else 0) + DispatchCount(cs, n + 1, m)
  }

  /** Termination between user decisions.  From any configuration of any execution a gate or the
      end is reached within `StepsLeft` node runs and `DispatchesLeft` dispatches, whatever the
      subagents return. */
  lemma {:induction false} ComesToRest(base: string, cs: seq<Config>, events: seq<Event>, n: nat) returns (m: nat)
    requires Execution(base, cs, events) && n < |cs|
    requires n + StepsLeft(ControlOf(cs[n])) < |cs|
    ensures n <= m <= n + StepsLeft(ControlOf(cs[n])) && m < |cs| && AtRest(cs[m].node)
    ensures DispatchCount(cs, n, m) <= DispatchesLeft(ControlOf(cs[n]))
    decreases StepsLeft(ControlOf(cs[n]))
  {
    hide Inv, StepsLeft, DispatchesLeft;
    ExecutionInv(base, cs, events, n);
    LeftIsPositive(ControlOf(cs[n]));
    if AtRest(cs[n].node) {
      m := n;
    } else {
      var rec := ExecutionLinks(base, cs, events, n);
      ExecutionInv(base, cs, events, n + 1);
      LeftIsPositive(ControlOf(cs[n + 1]));
      if AtRest(cs[n + 1].node) {
        m := n + 1;
        DispatchIsCounted(ControlOf(cs[n]));
      } else {
        LeftDecreases(ControlOf(cs[n]), rec, ControlOf(cs[n + 1]));
        m := ComesToRest(base, cs, events, n + 1);
      }
    }
  }

  lemma DispatchIsCounted(k: Control)
    requires Inv(k)
    ensures IsDispatch(k.core.node) ==> DispatchesLeft(k) >= 1
  {
  }

  /** The bounds phase by phase: 2 dispatches in PM, 2 * MAX + 3 in PLANNING, 4 per subtask in
      DEV and 4 in REV. */
  lemma PhaseBounds(base: string, cs: seq<Config>, events: seq<Event>, n: nat)
    requires Execution(base, cs, events) && n < |cs|
    ensures
      var s, left := cs[n].state, DispatchesLeft(ControlOf(cs[n]));
      && (s.stage == PM_PHASE ==> left <= 2)
      && (s.stage == PLANNING_PHASE ==> left <= 2 * MAX_PLANNING_CONSULTATIONS + 3)
      && (s.stage == DEV_PHASE ==> left <= 4 * |s.subtasks|)
      && (s.stage == REV_PHASE ==> left <= 4)
  {
    ExecutionInv(base, cs, events, n);
    ControlBounds(ControlOf(cs[n]));
  }

  lemma ControlBounds(k: Control)
    requires Inv(k)
    ensures k.core.stage == PM_PHASE ==> DispatchesLeft(k) <= 2
    ensures k.core.stage == PLANNING_PHASE ==> DispatchesLeft(k) <= 2 * MAX_PLANNING_CONSULTATIONS + 3
    ensures k.core.stage == DEV_PHASE ==> DispatchesLeft(k) <= 4 * |k.plan|
    ensures k.core.stage == REV_PHASE ==> DispatchesLeft(k) <= 4
  {
  }
}
