/** Only the observation steers: the control part of a workflow is a function of what `Observe`
    keeps, and two executions that agree on it never part. */
module NonInterference {
  import opened Workflow
  import opened ControlMachine
  import opened Observing
  import opened Refinement
  import opened Runs

  function ControlStep(k: Control, paths: map<string, string>, o: Observation): Control {
    if k.core.node == End then k else
    var rec := NextRecord(k, paths, o);
    Advance(k, rec, NextPlan(k, rec, o))
  }

  lemma ExplainedAdvance(rec: LogRecord, n: Node, s: State, o: Observation, n': Node, s': State)
    requires n != End && Explains(rec, n, s, o, n', s')
    ensures ControlOf(Config(n', s')) == Advance(ControlOf(Config(n, s)), rec, PlanIds(s'.subtasks))
    ensures Calls(ControlOf(Config(n, s)), s.artifactPaths, o, rec, PlanIds(s'.subtasks))
    ensures ControlOf(Config(n, s)).core.node != End
  {
  }

  lemma CalledStep(k: Control, paths: map<string, string>, o: Observation, rec: LogRecord, plan: seq<string>)
    requires k.core.node != End && Calls(k, paths, o, rec, plan)
    requires Advance(k, Blank(rec), plan) == Advance(k, rec, plan)
    ensures ControlStep(k, paths, o) == Advance(k, rec, plan)
  {
    hide Advance;
  }

  lemma ExplainedStep(rec: LogRecord, n: Node, s: State, o: Observation, n': Node, s': State)
    requires n != End && Explains(rec, n, s, o, n', s')
    ensures ControlOf(Config(n', s')) == ControlStep(ControlOf(Config(n, s)), s.artifactPaths, o)
  {
    ExplainedAdvance(rec, n, s, o, n', s');
    hide *;
    BlankReadsTheSame(ControlOf(Config(n, s)), rec, PlanIds(s'.subtasks));
    CalledStep(ControlOf(Config(n, s)), s.artifactPaths, o, rec, PlanIds(s'.subtasks));
  }

  /** The workflow computes its control part from the observation alone. */
  lemma ControlIsObserved(base: string, cs: seq<Config>, events: seq<Event>, n: nat)
    requires Execution(base, cs, events) && n < |events|
    ensures ControlOf(cs[n + 1]) == ControlStep(ControlOf(cs[n]), cs[n].state.artifactPaths, Observe(events[n]))
  {
    if cs[n].node != End {
      var rec := ExecutionExplains(base, cs, events, n);
      ExplainedStep(rec, cs[n].node, cs[n].state, Observe(events[n]), cs[n + 1].node, cs[n + 1].state);
    } else {
      assert cs[n + 1] == Step(base, cs[n], events[n]);
    }
  }

  /** The artifact paths are written once, by the first node. */
  lemma PathsStay(base: string, cs: seq<Config>, events: seq<Event>, n: nat)
    requires Execution(base, cs, events) && n < |events|
    ensures cs[n + 1].state.artifactPaths ==
            if cs[n].node == Init then ArtifactPaths(base) else cs[n].state.artifactPaths
  {
    assert cs[n + 1] == Step(base, cs[n], events[n]);
    if cs[n].node != Init && cs[n].node != End {
      var rec := ExecutionExplains(base, cs, events, n);
    }
  }

  /** Non-interference.  Two executions whose inputs look the same to `Observe` go through the same
      nodes with the same stage, counters, retries, consultation round, subtask index and plan,
      step by step, whatever else their subagents say. */
  lemma {:induction false} RunsNeverPart(base: string, cs: seq<Config>, events: seq<Event>, cs': seq<Config>,
      events': seq<Event>, n: nat)
    requires Execution(base, cs, events) && Execution(base, cs', events')
    requires n <= |events| && n <= |events'|
    requires forall i | 0 <= i < n :: Observe(events[i]) == Observe(events'[i])
    ensures ControlOf(cs[n]) == ControlOf(cs'[n]) && cs[n].state.artifactPaths == cs'[n].state.artifactPaths
  {
    if n > 0 {
      RunsNeverPart(base, cs, events, cs', events', n - 1);
      ControlIsObserved(base, cs, events, n - 1);
      ControlIsObserved(base, cs', events', n - 1);
      PathsStay(base, cs, events, n - 1);
      PathsStay(base, cs', events', n - 1);
    }
  }
}
