/** Whole executions of the workflow: each is a history of the control machine, and so the
    stage log alone gives the control part of the state back. */
module Runs {
  import opened Workflow
  import opened ControlMachine
  import opened Traces
  import opened Observing
  import opened Refinement

  /** Every sequence of events has an execution. */
  lemma {:induction false} ExecutionExists(base: string, events: seq<Event>) returns (cs: seq<Config>)
    ensures Execution(base, cs, events)
  {
    hide Step;
    if events == [] {
      cs := [START];
    } else {
      var n := |events| - 1;
      var init := ExecutionExists(base, events[..n]);
      cs := init + [Step(base, init[n], events[n])];
      forall i | 0 <= i < |events| ensures cs[i + 1] == Step(base, cs[i], events[i]) {
        assert i < n ==> events[..n][i] == events[i];
      }
    }
  }

  lemma EndStays(base: string, c: Config, e: Event)
    requires c.node == End
    ensures Step(base, c, e) == c
  {
  }

  lemma ExecutionStep(base: string, cs: seq<Config>, events: seq<Event>, n: nat)
    requires Execution(base, cs, events) && n < |events|
    ensures n + 1 < |cs| && cs[n + 1] == Step(base, cs[n], events[n])
  {
    hide Step;
  }

  lemma ExecutionLength(base: string, cs: seq<Config>, events: seq<Event>)
    requires Execution(base, cs, events)
    ensures |cs| == |events| + 1
  {
    hide Step;
  }

  lemma DispatchRuns(base: string, c: Config, e: Event)
    requires IsDispatch(c.node)
    ensures
      var t := DispatchNode(e.world, c.node, c.state, AsResult(e.input));
      Step(base, c, e) == Config(Route(c.node, t), t)
  {
    hide DispatchNode, Route, GateNode, DevLoopNode, InitNode;
  }

  /** The control states of an execution up to its n-th configuration. */
  function Controls(cs: seq<Config>, n: nat): (ks: seq<Control>)
    requires n < |cs|
    ensures |ks| == n + 1 && forall i | 0 <= i <= n :: ks[i] == ControlOf(cs[i])
  {
    seq(n + 1, i requires 0 <= i <= n => ControlOf(cs[i]))
  }

  /** Until the workflow ends there is one log record per event; the control states in between
      form a history of the control machine, labelled by the log. */
  predicate Follows(cs: seq<Config>, n: nat)
    requires n < |cs|
  {
    && |cs[n].state.stageLog| <= n
    && cs[|cs[n].state.stageLog|] == cs[n]
    && (cs[n].node != End ==> |cs[n].state.stageLog| == n)
    && (cs[n].node == Init ==> cs[n].state == EMPTY_STATE)
    && Trace(Controls(cs, |cs[n].state.stageLog|), cs[n].state.stageLog)
  }

  lemma NeverBack(k: Control, rec: LogRecord, k': Control)
    requires Linked(k, rec, k')
    ensures k'.core.node != Init
  {
  }

  lemma ReadFollows(cs: seq<Config>, n: nat, rec: LogRecord)
    requires n + 1 < |cs| && Follows(cs, n) && cs[n].node != End
    requires Reads(cs[n].node, cs[n].state, rec, cs[n + 1].node, cs[n + 1].state)
    ensures Follows(cs, n + 1)
  {
    NeverBack(ControlOf(cs[n]), rec, ControlOf(cs[n + 1]));
    TraceExtend(Controls(cs, n), cs[n].state.stageLog, rec, ControlOf(cs[n + 1]));
    assert Controls(cs, n + 1) == Controls(cs, n) + [ControlOf(cs[n + 1])];
  }

  lemma {:induction false} ExecutionFollows(base: string, cs: seq<Config>, events: seq<Event>, n: nat)
    requires Execution(base, cs, events) && n < |cs|
    ensures Follows(cs, n)
  {
    if n == 0 {
      assert Controls(cs, 0) == [CONTROL_START];
    } else {
      ExecutionFollows(base, cs, events, n - 1);
      NextFollows(base, cs, n - 1, events[n - 1]);
    }
  }

  lemma NextFollows(base: string, cs: seq<Config>, n: nat, e: Event)
    requires n + 1 < |cs| && Follows(cs, n) && cs[n + 1] == Step(base, cs[n], e)
    ensures Follows(cs, n + 1)
  {
    if cs[n].node != End {
      StepFollows(base, cs, n, e);
    } else {
      StayFollows(cs, n);
    }
  }

  lemma StayFollows(cs: seq<Config>, n: nat)
    requires n + 1 < |cs| && Follows(cs, n) && cs[n].node == End && cs[n + 1] == cs[n]
    ensures Follows(cs, n + 1)
  {
  }

  lemma StepFollows(base: string, cs: seq<Config>, n: nat, e: Event)
    requires n + 1 < |cs| && Follows(cs, n) && cs[n].node != End && cs[n + 1] == Step(base, cs[n], e)
    ensures Follows(cs, n + 1)
  {
    TraceInv(Controls(cs, n), cs[n].state.stageLog, n);
    var rec := StepRefines(base, cs[n], e);
    ReadFollows(cs, n, rec);
  }

  /** Audit replay.  In every execution the log alone gives back the place in the graph, the
      stage, the rollback counters, the guard retries and the pending one, the consultation
      round, the subtask index and how many decisions, consultations and hints were recorded. */
  lemma AuditReplay(base: string, cs: seq<Config>, events: seq<Event>, n: nat)
    requires Execution(base, cs, events) && n < |cs|
    ensures ReplayLog(cs[n].state.stageLog) == CoreOf(cs[n].node, cs[n].state)
  {
    ExecutionFollows(base, cs, events, n);
    var log := cs[n].state.stageLog;
    TraceReplays(Controls(cs, |log|), log, |log|);
    assert log[..|log|] == log;
  }

  /** Every node run appends exactly one record and changes nothing written before. */
  lemma OneRecordPerNodeRun(base: string, cs: seq<Config>, events: seq<Event>, n: nat)
    requires Execution(base, cs, events) && n < |events| && cs[n].node != End
    ensures |cs[n].state.stageLog| == n && |cs[n + 1].state.stageLog| == n + 1
    ensures cs[n + 1].state.stageLog[..n] == cs[n].state.stageLog
  {
    ExecutionFollows(base, cs, events, n);
    TraceInv(Controls(cs, n), cs[n].state.stageLog, n);
    assert cs[n + 1] == Step(base, cs[n], events[n]);
    var rec := StepRefines(base, cs[n], events[n]);
  }

  /** The control invariant in every configuration of every execution. */
  lemma ExecutionInv(base: string, cs: seq<Config>, events: seq<Event>, n: nat)
    requires Execution(base, cs, events) && n < |cs|
    ensures Inv(ControlOf(cs[n]))
  {
    ExecutionFollows(base, cs, events, n);
    var log := cs[n].state.stageLog;
    TraceInv(Controls(cs, |log|), log, |log|);
  }

  /** The record that explains the next configuration of an execution that has not ended. */
  lemma ExecutionExplains(base: string, cs: seq<Config>, events: seq<Event>, n: nat) returns (rec: LogRecord)
    requires Execution(base, cs, events) && n < |events| && cs[n].node != End
    ensures Inv(ControlOf(cs[n]))
    ensures Explains(rec, cs[n].node, cs[n].state, Observe(events[n]), cs[n + 1].node, cs[n + 1].state)
  {
    ExecutionFollows(base, cs, events, n);
    TraceInv(Controls(cs, n), cs[n].state.stageLog, n);
    assert cs[n + 1] == Step(base, cs[n], events[n]);
    rec := StepRefines(base, cs[n], events[n]);
  }

  /** Consecutive configurations of an execution that has not ended are linked by a record. */
  lemma ExecutionLinks(base: string, cs: seq<Config>, events: seq<Event>, n: nat) returns (rec: LogRecord)
    requires Execution(base, cs, events) && n < |events| && cs[n].node != End
    ensures Inv(ControlOf(cs[n]))
    ensures Linked(ControlOf(cs[n]), rec, ControlOf(cs[n + 1]))
    ensures cs[n + 1].state.stageLog == cs[n].state.stageLog + [rec]
  {
    rec := ExecutionExplains(base, cs, events, n);
  }
}
