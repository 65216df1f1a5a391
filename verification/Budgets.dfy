/** Retry budgets, pending retries and the counters of a run. */
module Budgets {
  import opened Basics
  import opened Schema
  import opened Guard
  import opened Workflow
  import opened ControlMachine
  import opened Traces
  import opened Refinement
  import opened Runs

  // ----- the retry budget, round by round -----

  lemma RetryCountGrows(ks: seq<Control>, log: seq<LogRecord>, i: nat, j: nat)
    requires Trace(ks, log) && i <= j <= |log|
    ensures ks[i].core.retryCount <= ks[j].core.retryCount
  {
    if i < j {
      RetryCountGrows(ks, log, i, j - 1);
      assert Linked(ks[j - 1], log[j - 1], ks[j]);
    }
  }

  /** Before a round has begun no key of that round is in the table. */
  lemma FreshRound(k: Core, stage: Stage, subagent: string, round: nat)
    requires BudgetInv(k) && round > k.retryCount
    ensures GuardRetryKey(stage, subagent, round) !in k.guardRetries
  {
    var key := GuardRetryKey(stage, subagent, round);
    if key in k.guardRetries {
      var s, p, r: nat :| r <= k.retryCount && key == GuardRetryKey(s, p, r);
      KeyInjective(stage, subagent, round, s, p, r);
    }
  }

  /** Every rollback leaves every subagent, whatever its name, an unspent budget. */
  lemma RollbackRefreshesBudget(ks: seq<Control>, log: seq<LogRecord>, i: nat, stage: Stage, subagent: string)
    requires Trace(ks, log) && i < |log| && log[i].note.GateRolledBack?
    ensures GuardRetryKey(stage, subagent, ks[i + 1].core.retryCount) !in ks[i + 1].core.guardRetries
  {
    hide GuardRetryKey, StageInv, LoopInv, PendingInv, CountInv;
    TraceInv(ks, log, i);
    assert Linked(ks[i], log[i], ks[i + 1]);
    FreshRound(ks[i].core, stage, subagent, ks[i].core.retryCount + 1);
  }

  lemma {:induction false} KeysStay(ks: seq<Control>, log: seq<LogRecord>, i: nat, j: nat, key: string)
    requires Trace(ks, log) && i <= j <= |log| && key in ks[i].core.guardRetries
    ensures key in ks[j].core.guardRetries
  {
    if i < j {
      KeysStay(ks, log, i, j - 1, key);
      assert Linked(ks[j - 1], log[j - 1], ks[j]);
    }
  }

  lemma SpentIsNotRetried(k: Control, rec: LogRecord, k': Control, key: string)
    requires BudgetInv(k.core) && Linked(k, rec, k') && rec.note.GuardRetry? && key in k.core.guardRetries
    ensures GuardRetryKey(rec.stage, rec.note.subagent, k.core.retryCount) != key
  {
  }

  /** A subagent is sent back at most once per stage and rollback round: between two retries of
      the same subagent there is a rollback. */
  lemma OneRetryPerRound(ks: seq<Control>, log: seq<LogRecord>, i: nat, j: nat)
    requires Trace(ks, log) && i < j < |log|
    requires log[i].note.GuardRetry? && log[j].note.GuardRetry?
    requires log[i].stage == log[j].stage && log[i].note.subagent == log[j].note.subagent
    ensures ks[i].core.retryCount < ks[j].core.retryCount
  {
    assert Linked(ks[i], log[i], ks[i + 1]) && Linked(ks[j], log[j], ks[j + 1]);
    var key := GuardRetryKey(log[i].stage, log[i].note.subagent, ks[i].core.retryCount);
    KeysStay(ks, log, i + 1, j, key);
    RetryCountGrows(ks, log, i, j);
    TraceInv(ks, log, j);
    assert BudgetInv(ks[j].core);
    SpentIsNotRetried(ks[j], log[j], ks[j + 1], key);
  }

  // ----- pending retries -----

  /** A pending retry names exactly the dispatch that runs next, with the attempt number its key
      holds; so there is none at a gate or at the end. */
  lemma PendingNamesNextDispatch(base: string, cs: seq<Config>, events: seq<Event>, n: nat)
    requires Execution(base, cs, events) && n < |cs| && cs[n].state.pendingRetry.Some?
    ensures IsDispatch(cs[n].node) && DispatchOf(cs[n].node, cs[n].state).Some?
    ensures
      var p, d := cs[n].state.pendingRetry.value, DispatchOf(cs[n].node, cs[n].state).value;
      && p.stage == StageValue(d.stage) && p.subagent == d.subagent
      && RetryKey(cs[n].state, d) in cs[n].state.guardRetries
      && p.attempt == cs[n].state.guardRetries[RetryKey(cs[n].state, d)] == GUARD_RETRY_LIMIT
  {
    ExecutionInv(base, cs, events, n);
    TargetOfDispatch(cs[n].node, cs[n].state);
  }

  /** It is used up there: after that dispatch nothing is pending, whatever came back. */
  lemma PendingIsConsumed(base: string, cs: seq<Config>, events: seq<Event>, n: nat)
    requires Execution(base, cs, events) && n < |events| && cs[n].state.pendingRetry.Some?
    ensures cs[n + 1].state.pendingRetry.None?
  {
    ExecutionInv(base, cs, events, n);
    var rec := ExecutionLinks(base, cs, events, n);
    ConsumedStep(ControlOf(cs[n]), rec, ControlOf(cs[n + 1]));
  }

  lemma ConsumedStep(k: Control, rec: LogRecord, k': Control)
    requires PendingInv(k) && BudgetInv(k.core) && k.core.pending.Some? && Linked(k, rec, k')
    ensures k'.core.pending.None?
  {
    assert Attempts(k) >= GUARD_RETRY_LIMIT;
    assert !rec.note.GuardRetry?;
    assert IsDispatch(k.core.node);
    if GuardNote(k, rec) {
    } else {
      assert AcceptNote(k, rec.note, k'.plan);
    }
  }

  // ----- counters -----

  /** `retry_count` is the number of rollbacks over all stages, the round never passes its
      maximum, and all consultations of a run fit the quota that hints renew. */
  lemma CountingBounds(base: string, cs: seq<Config>, events: seq<Event>, n: nat)
    requires Execution(base, cs, events) && n < |cs|
    ensures
      var s := cs[n].state;
      && s.retryCount == SumValues(s.rollbackCounts)
      && s.consultRound <= MAX_PLANNING_CONSULTATIONS
      && |s.consultations| <= MAX_PLANNING_CONSULTATIONS * (1 + |s.hints|)
  {
    ExecutionInv(base, cs, events, n);
  }
}
