/** Two concrete runs of the workflow. The first reaches DONE over one subtask, one consultation and
    one hint; the second is blocked by the guard in DEV. They show that the theorems about DONE speak
    of something, and where the documented resume count and subtask index are not what the code gives. */
module SampleRuns {
  import opened Basics
  import opened Schema
  import opened Workflow
  import opened ControlMachine
  import opened Observing
  import opened Refinement
  import opened Runs
  import opened ResumeCount
  import opened NonInterference

  const QUIET := World(map[], (text: string) => "")

  const ONE_SUBTASK := [PlanItem("T", "title", "description")]

  /** A result that claims nothing but its status, a question or a plan. */
  function Result(status: string, question: Option<string>, plan: seq<PlanItem>): SubagentResult {
    SubagentResult(Some(status), None, None, None, None, question, plan, None, "", "")
  }

  function Told(r: SubagentResult): Event { Event(QUIET, FromSubagent(r)) }

  function Answer(answer: string, hint: Hint): Event {
    Event(QUIET, FromUser(GateDecision(answer, hint, None, "", "")))
  }

  const DONE_EVENT := Told(Result("done", None, []))
  const PLAN_EVENT := Told(Result("done", None, ONE_SUBTASK))
  const ASK_EVENT := Told(Result("needs_input", Some("q"), []))
  const APPROVE_EVENT := Answer("approve", NoHintPath)
  const HINT_EVENT := Answer("continue_planning", HintOk("hint", "text"))
  const GARBAGE_EVENT := Told(NotADict)

  /** From the start to the developer of the only subtask: a consultation, then a plan, then a hint,
      then the plan again. */
  const TO_DEV: seq<Event> := [
    DONE_EVENT, DONE_EVENT, APPROVE_EVENT, ASK_EVENT, DONE_EVENT, PLAN_EVENT, HINT_EVENT, PLAN_EVENT, APPROVE_EVENT,
    DONE_EVENT]

  const TO_DONE: seq<Event> := [
    DONE_EVENT, DONE_EVENT, DONE_EVENT, APPROVE_EVENT, DONE_EVENT, DONE_EVENT, APPROVE_EVENT]

  const TO_BLOCK: seq<Event> := [GARBAGE_EVENT, GARBAGE_EVENT]

  /** A control state without rollbacks and guard retries. */
  function At(node: Node, stage: Stage, round: nat, index: int, decisions: nat, consultations: nat, hints: nat,
      plan: seq<string>, entered: seq<string>): Control
  {
    Control(Core(node, stage, 0, map[], map[], None, round, index, decisions, consultations, hints), plan, entered)
  }

  // ----- what the events look like -----

  lemma DoneIsSeen()
    ensures Observe(DONE_EVENT) == Observation(true, Some("done"), None, {}, {}, false, [], "", false)
  {
    assert QUIET.disk.Keys == {};
    assert ClaimedKeys(Result("done", None, [])) == {};
  }

  lemma PlanIsSeen()
    ensures Observe(PLAN_EVENT) == Observation(true, Some("done"), None, {}, {}, false, ["T"], "", false)
  {
    assert QUIET.disk.Keys == {};
    assert ClaimedKeys(Result("done", None, ONE_SUBTASK)) == {};
    assert ONE_SUBTASK[..0] == [];
    assert Strip("T") == "T";
    assert ParsePlan(ONE_SUBTASK) == [Subtask("T", "title", "description")];
    assert PlanIds(ParsePlan(ONE_SUBTASK)) == ["T"];
  }

  lemma AskIsSeen()
    ensures Observe(ASK_EVENT) == Observation(true, Some("needs_input"), None, {}, {}, true, [], "", false)
  {
    assert QUIET.disk.Keys == {};
    assert ClaimedKeys(Result("needs_input", Some("q"), [])) == {};
    assert Strip("q") == "q";
  }

  lemma AnswersAreSeen()
    ensures Observe(APPROVE_EVENT) == Observation(true, None, None, {}, {}, false, [], "approve", false)
    ensures Observe(HINT_EVENT) == Observation(true, None, None, {}, {}, false, [], "continue_planning", true)
  {
    assert QUIET.disk.Keys == {};
    assert ClaimedKeys(AsResult(APPROVE_EVENT.input)) == {};
    assert ClaimedKeys(AsResult(HINT_EVENT.input)) == {};
  }

  // ----- one step each -----

  lemma Trusted(o: Observation, paths: map<string, string>, stage: Stage)
    requires o.isDict && o.status in [Some("done"), Some("needs_input")] && o.stage.None? && o.claimed == {}
    ensures !Distrusted(o, paths, stage)
  {
  }

  lemma StepsInPm(paths: map<string, string>)
    ensures ControlStep(At(Init, INIT, 0, -1, 0, 0, 0, [], []), paths, Observe(DONE_EVENT))
      == At(PmPhase, PM_PHASE, 0, -1, 0, 0, 0, [], [])
    ensures ControlStep(At(PmPhase, PM_PHASE, 0, -1, 0, 0, 0, [], []), paths, Observe(DONE_EVENT))
      == At(Gate1, GATE_1, 0, -1, 1, 0, 0, [], [])
    ensures ControlStep(At(Gate1, GATE_1, 0, -1, 1, 0, 0, [], []), paths, Observe(APPROVE_EVENT))
      == At(PlanningPhase, PLANNING_PHASE, 0, -1, 2, 0, 0, [], [])
  {
    DoneIsSeen();
    AnswersAreSeen();
    Trusted(Observe(DONE_EVENT), paths, PM_PHASE);
    hide Observe, Distrusted;
  }

  lemma StepsInConsultation(paths: map<string, string>)
    ensures ControlStep(At(PlanningPhase, PLANNING_PHASE, 0, -1, 2, 0, 0, [], []), paths, Observe(ASK_EVENT))
      == At(PlanningDevConsult, PLANNING_PHASE, 0, -1, 3, 0, 0, [], [])
    ensures ControlStep(At(PlanningDevConsult, PLANNING_PHASE, 0, -1, 3, 0, 0, [], []), paths, Observe(DONE_EVENT))
      == At(PlanningPhase, PLANNING_PHASE, 1, -1, 4, 1, 0, [], [])
  {
    AskIsSeen();
    DoneIsSeen();
    Trusted(Observe(ASK_EVENT), paths, PLANNING_PHASE);
    Trusted(Observe(DONE_EVENT), paths, PLANNING_PHASE);
    hide Observe, Distrusted;
  }

  lemma StepToPlan(paths: map<string, string>, round: nat, decisions: nat, hints: nat, plan: seq<string>)
    ensures ControlStep(At(PlanningPhase, PLANNING_PHASE, round, -1, decisions, 1, hints, plan, []), paths, Observe(PLAN_EVENT))
      == At(Gate1_5, GATE_1_5, round, -1, decisions + 1, 1, hints, ["T"], [])
  {
    PlanIsSeen();
    Trusted(Observe(PLAN_EVENT), paths, PLANNING_PHASE);
    hide Observe, Distrusted;
  }

  lemma StepsAtGateOneFive(paths: map<string, string>)
    ensures ControlStep(At(Gate1_5, GATE_1_5, 1, -1, 5, 1, 0, ["T"], []), paths, Observe(HINT_EVENT))
      == At(PlanningPhase, PLANNING_PHASE, 0, -1, 6, 1, 1, ["T"], [])
    ensures ControlStep(At(Gate1_5, GATE_1_5, 0, -1, 7, 1, 1, ["T"], []), paths, Observe(APPROVE_EVENT))
      == At(DevLoopRouter, DEV_PHASE, 0, -1, 8, 1, 1, ["T"], [])
  {
    AnswersAreSeen();
    hide Observe;
  }

  lemma StepsInDev(paths: map<string, string>)
    ensures ControlStep(At(DevLoopRouter, DEV_PHASE, 0, -1, 8, 1, 1, ["T"], []), paths, Observe(DONE_EVENT))
      == At(DevSubtaskDispatch, DEV_PHASE, 0, 0, 8, 1, 1, ["T"], [])
    ensures ControlStep(At(DevSubtaskDispatch, DEV_PHASE, 0, 0, 8, 1, 1, ["T"], []), paths, Observe(DONE_EVENT))
      == At(DevCodexReview, DEV_PHASE, 0, 0, 9, 1, 1, ["T"], ["T"])
  {
    DoneIsSeen();
    Trusted(Observe(DONE_EVENT), paths, DEV_PHASE);
    hide Observe, Distrusted;
  }

  lemma StepsOutOfDev(paths: map<string, string>)
    ensures ControlStep(At(DevCodexReview, DEV_PHASE, 0, 0, 9, 1, 1, ["T"], ["T"]), paths, Observe(DONE_EVENT))
      == At(DevLoopRouter, DEV_PHASE, 0, 0, 10, 1, 1, ["T"], ["T"])
    ensures ControlStep(At(DevLoopRouter, DEV_PHASE, 0, 0, 10, 1, 1, ["T"], ["T"]), paths, Observe(DONE_EVENT))
      == At(Gate2, GATE_2, 0, -1, 10, 1, 1, ["T"], ["T"])
  {
    DoneIsSeen();
    Trusted(Observe(DONE_EVENT), paths, DEV_PHASE);
    hide Observe, Distrusted;
  }

  lemma StepsAtLastGates(paths: map<string, string>)
    ensures ControlStep(At(Gate2, GATE_2, 0, -1, 10, 1, 1, ["T"], ["T"]), paths, Observe(APPROVE_EVENT))
      == At(RevDispatch, REV_PHASE, 0, -1, 11, 1, 1, ["T"], ["T"])
    ensures ControlStep(At(Gate3, GATE_3, 0, -1, 13, 1, 1, ["T"], ["T"]), paths, Observe(APPROVE_EVENT))
      == At(End, DONE, 0, -1, 14, 1, 1, ["T"], ["T"])
  {
    AnswersAreSeen();
    hide Observe;
  }

  lemma StepsInReview(paths: map<string, string>)
    ensures ControlStep(At(RevDispatch, REV_PHASE, 0, -1, 11, 1, 1, ["T"], ["T"]), paths, Observe(DONE_EVENT))
      == At(RevCodexFinal, REV_PHASE, 0, -1, 12, 1, 1, ["T"], ["T"])
    ensures ControlStep(At(RevCodexFinal, REV_PHASE, 0, -1, 12, 1, 1, ["T"], ["T"]), paths, Observe(DONE_EVENT))
      == At(Gate3, GATE_3, 0, -1, 13, 1, 1, ["T"], ["T"])
  {
    DoneIsSeen();
    Trusted(Observe(DONE_EVENT), paths, REV_PHASE);
    hide Observe, Distrusted;
  }

  lemma RetryOnce(paths: map<string, string>)
    ensures
      var k := At(DevSubtaskDispatch, DEV_PHASE, 0, 0, 8, 1, 1, ["T"], []);
      var k' := ControlStep(k, paths, Observe(GARBAGE_EVENT));
      && k' == k.(core := k'.core) && k'.core.node == DevSubtaskDispatch && k'.core.index == 0 && k'.core.retryCount == 0
      && TargetKey(k) in k'.core.guardRetries && k'.core.guardRetries[TargetKey(k)] == 1
  {
  }

  lemma BlockNext(paths: map<string, string>, k: Control)
    requires k.core.node == DevSubtaskDispatch && k.core.index == 0 && k.plan == ["T"] && k.core.retryCount == 0
    requires TargetKey(k) in k.core.guardRetries && k.core.guardRetries[TargetKey(k)] == 1
    ensures
      var k' := ControlStep(k, paths, Observe(GARBAGE_EVENT));
      k'.core.node == End && k'.core.stage == BLOCKED && k'.core.index == 0
  {
  }

  // ----- the runs -----

  lemma Starts(base: string, cs: seq<Config>, events: seq<Event>)
    requires Execution(base, cs, events)
    ensures |cs| == |events| + 1 && ControlOf(cs[0]) == At(Init, INIT, 0, -1, 0, 0, 0, [], [])
  {
    hide Step;
  }

  lemma ReachesPlanning(base: string, cs: seq<Config>, events: seq<Event>)
    requires Execution(base, cs, events) && TO_DEV <= events
    ensures |cs| == |events| + 1 && ControlOf(cs[5]) == At(PlanningPhase, PLANNING_PHASE, 1, -1, 4, 1, 0, [], [])
  {
    hide Execution, ControlStep, Observe, ControlOf, At;
    Starts(base, cs, events);
    forall i | 0 <= i < 10 ensures events[i] == TO_DEV[i] {}
    forall i | 0 <= i < 5
      ensures ControlOf(cs[i + 1]) == ControlStep(ControlOf(cs[i]), cs[i].state.artifactPaths, Observe(TO_DEV[i]))
    {
      ControlIsObserved(base, cs, events, i);
    }
    StepsInPm(cs[0].state.artifactPaths);
    StepsInPm(cs[1].state.artifactPaths);
    StepsInPm(cs[2].state.artifactPaths);
    StepsInConsultation(cs[3].state.artifactPaths);
    StepsInConsultation(cs[4].state.artifactPaths);
  }

  lemma ReachesDev(base: string, cs: seq<Config>, events: seq<Event>)
    requires Execution(base, cs, events) && TO_DEV <= events
    ensures |cs| == |events| + 1 && ControlOf(cs[10]) == At(DevSubtaskDispatch, DEV_PHASE, 0, 0, 8, 1, 1, ["T"], [])
  {
    hide Execution, ControlStep, Observe, ControlOf, At;
    ReachesPlanning(base, cs, events);
    forall i | 0 <= i < 10 ensures events[i] == TO_DEV[i] {}
    forall i | 5 <= i < 10
      ensures ControlOf(cs[i + 1]) == ControlStep(ControlOf(cs[i]), cs[i].state.artifactPaths, Observe(TO_DEV[i]))
    {
      ControlIsObserved(base, cs, events, i);
    }
    StepToPlan(cs[5].state.artifactPaths, 1, 4, 0, []);
    StepsAtGateOneFive(cs[6].state.artifactPaths);
    StepToPlan(cs[7].state.artifactPaths, 0, 6, 1, ["T"]);
    StepsAtGateOneFive(cs[8].state.artifactPaths);
    StepsInDev(cs[9].state.artifactPaths);
  }

  lemma ReachesDone(base: string, cs: seq<Config>, events: seq<Event>)
    requires Execution(base, cs, events) && events == TO_DEV + TO_DONE
    ensures |cs| == 18 && ControlOf(cs[10]) == At(DevSubtaskDispatch, DEV_PHASE, 0, 0, 8, 1, 1, ["T"], [])
    ensures ControlOf(cs[17]) == At(End, DONE, 0, -1, 14, 1, 1, ["T"], ["T"])
  {
    hide Execution, ControlStep, Observe, ControlOf, At;
    ReachesDev(base, cs, events);
    forall i | 10 <= i < 17 ensures events[i] == TO_DONE[i - 10] {}
    forall i | 10 <= i < 17
      ensures ControlOf(cs[i + 1]) == ControlStep(ControlOf(cs[i]), cs[i].state.artifactPaths, Observe(TO_DONE[i - 10]))
    {
      ControlIsObserved(base, cs, events, i);
    }
    StepsInDev(cs[10].state.artifactPaths);
    StepsOutOfDev(cs[11].state.artifactPaths);
    StepsOutOfDev(cs[12].state.artifactPaths);
    StepsAtLastGates(cs[13].state.artifactPaths);
    StepsInReview(cs[14].state.artifactPaths);
    StepsInReview(cs[15].state.artifactPaths);
    StepsAtLastGates(cs[16].state.artifactPaths);
  }

  /** A run to DONE with one subtask, one consultation and one hint, and without rollback or retry. It
      takes 14 resumes, two more than documented; and when the developer is dispatched the index is 0
      while there is no result yet. */
  lemma DoneWithAHint(base: string) returns (cs: seq<Config>)
    ensures Execution(base, cs, TO_DEV + TO_DONE) && |cs| == 18
    ensures
      var s := cs[17].state;
      && s.stage == DONE && s.retryCount == 0 && s.guardRetries == map[]
      && |s.subtasks| == |s.consultations| == |s.hints| == 1
      && ResumesOf(cs, 17) == 14 && 8 + 2 * |s.subtasks| + 2 * |s.consultations| == 12
    ensures cs[10].node == DevSubtaskDispatch && cs[10].state.subtaskIndex == 0 && cs[10].state.subtaskResults == []
  {
    cs := ExecutionExists(base, TO_DEV + TO_DONE);
    ReachesDone(base, cs, TO_DEV + TO_DONE);
    assert |PlanIds(cs[17].state.subtasks)| == 1;
    assert |Ids(cs[10].state.subtaskResults)| == 0;
    hide Execution, ResumesOf;
    ExactResumeCount(base, cs, TO_DEV + TO_DONE, 17);
    EmptySum();
  }

  lemma BlocksAtDev(paths: map<string, string>, paths': map<string, string>)
    ensures
      var k := At(DevSubtaskDispatch, DEV_PHASE, 0, 0, 8, 1, 1, ["T"], []);
      var k' := ControlStep(ControlStep(k, paths, Observe(GARBAGE_EVENT)), paths', Observe(GARBAGE_EVENT));
      k'.core.stage == BLOCKED && k'.core.index == 0
  {
    RetryOnce(paths);
    hide ControlStep, Observe;
    BlockNext(paths', ControlStep(At(DevSubtaskDispatch, DEV_PHASE, 0, 0, 8, 1, 1, ["T"], []), paths, Observe(GARBAGE_EVENT)));
  }

  /** A run that the guard blocks in DEV: the index stays where it was. */
  lemma BlockedInDev(base: string) returns (cs: seq<Config>)
    ensures Execution(base, cs, TO_DEV + TO_BLOCK) && |cs| == 13
    ensures cs[12].state.stage == BLOCKED && cs[12].state.subtaskIndex == 0
  {
    hide Execution, ControlStep, Observe, At;
    var events := TO_DEV + TO_BLOCK;
    cs := ExecutionExists(base, events);
    ReachesDev(base, cs, events);
    ControlIsObserved(base, cs, events, 10);
    ControlIsObserved(base, cs, events, 11);
    assert events[10] == GARBAGE_EVENT && events[11] == GARBAGE_EVENT;
    BlocksAtDev(cs[10].state.artifactPaths, cs[11].state.artifactPaths);
  }
}
