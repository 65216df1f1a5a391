/** Histories of the control machine: the records of a stage log together with the control
    state before and after each. */
module Traces {
  import opened Basics
  import opened Workflow
  import opened ControlMachine

  const CONTROL_START := Control(CORE_START, [], [])

  predicate Linked(k: Control, rec: LogRecord, k': Control) {
    Enabled(k, rec, k'.plan) && k' == Advance(k, rec, k'.plan)
  }

  /** `ks[i]` is the control state before record `i`, `ks[i + 1]` the one after it. */
  predicate Trace(ks: seq<Control>, log: seq<LogRecord>) {
    && |ks| == |log| + 1
    && ks[0] == CONTROL_START
    && forall i | 0 <= i < |log| :: Linked(ks[i], log[i], ks[i + 1])
  }

  lemma {:induction false} TraceInv(ks: seq<Control>, log: seq<LogRecord>, n: nat)
    requires Trace(ks, log) && n <= |log|
    ensures Inv(ks[n])
  {
    if n == 0 {
      assert SumValues(map[]) == 0;
    } else {
      TraceInv(ks, log, n - 1);
      assert Linked(ks[n - 1], log[n - 1], ks[n]);
      InvStep(ks[n - 1], log[n - 1], ks[n].plan);
    }
  }

  lemma TraceStart(ks: seq<Control>, log: seq<LogRecord>)
    requires Trace(ks, log)
    ensures |ks| == |log| + 1 && ks[0] == CONTROL_START
  {
    hide Linked;
  }

  /** What is known of one step of a history. */
  lemma TraceStep(ks: seq<Control>, log: seq<LogRecord>, n: nat)
    requires Trace(ks, log) && n < |log|
    ensures |ks| == |log| + 1 && Linked(ks[n], log[n], ks[n + 1])
    ensures StageInv(ks[n].core) && LoopInv(ks[n]) && PendingInv(ks[n]) && BudgetInv(ks[n].core) && CountInv(ks[n].core)
  {
    TraceInv(ks, log, n);
    hide StageInv, LoopInv, PendingInv, BudgetInv, CountInv, Linked;
  }

  lemma {:induction false} TraceReplays(ks: seq<Control>, log: seq<LogRecord>, n: nat)
    requires Trace(ks, log) && n <= |log|
    ensures ReplayLog(log[..n]) == ks[n].core
  {
    if n > 0 {
      TraceReplays(ks, log, n - 1);
      assert Linked(ks[n - 1], log[n - 1], ks[n]);
      assert log[..n][..n - 1] == log[..n - 1];
    }
  }

  lemma TraceExtend(ks: seq<Control>, log: seq<LogRecord>, rec: LogRecord, k: Control)
    requires Trace(ks, log) && Linked(ks[|log|], rec, k)
    ensures Trace(ks + [k], log + [rec])
  {
  }
}
