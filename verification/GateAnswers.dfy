/** What every answer does at every gate, text by text: the node and stage it leads to, the record it
    leaves in the log, the decision kept, the counters, the subtask results and the warnings. */
module GateAnswers {
  import opened Basics
  import opened Schema
  import opened Workflow
  import opened Runs

  /** The answer as it is kept: under its own id or that of the gate, with the digest of its file or,
      without one, of its text. */
  function Said(w: World, d: GateDecision, id: string): Decision {
    Decision(
      if d.decisionId.Some? then d.decisionId.value else id,
      d.answer,
      if d.fileSha != "" then d.fileSha else w.sha(d.answer),
      d.filePath)
  }

  /** A gate as its node has it: the default id of its decisions, its stage, that stage as a text. */
  datatype Desk = Desk(id: string, stage: Stage, text: string, gate: Gate)

  const FIRST := Desk("d_gate_1", GATE_1, "GATE_1", GateOne)
  const MIDDLE := Desk("d_gate_1_5", GATE_1_5, "GATE_1_5", GateOneFive)
  const SECOND := Desk("d_gate_2", GATE_2, "GATE_2", GateTwo)
  const THIRD := Desk("d_gate_3", GATE_3, "GATE_3", GateThree)

  predicate Approves(w: World, k: Desk, s: State, d: GateDecision, t: State, next: Stage) {
    t == s.(
      stage := next,
      decisions := s.decisions + [Said(w, d, k.id)],
      stageLog := s.stageLog + [LogRecord(k.stage, GateApproved(k.gate))])
  }

  /** Both counters move; what the subtasks have so far is kept. */
  predicate RollsBack(w: World, k: Desk, s: State, d: GateDecision, t: State, target: Stage, key: string) {
    t == s.(
      stage := target,
      decisions := s.decisions + [Said(w, d, k.id)],
      stageLog := s.stageLog + [LogRecord(k.stage, GateRolledBack(k.gate, target))],
      retryCount := s.retryCount + 1,
      rollbackCounts := s.rollbackCounts[key := if key in s.rollbackCounts then s.rollbackCounts[key] + 1 else 1])
  }

  /** ... except when DEV starts over. */
  predicate StartsDevOver(w: World, k: Desk, s: State, d: GateDecision, t: State) {
    t == s.(
      stage := DEV_PHASE,
      decisions := s.decisions + [Said(w, d, k.id)],
      stageLog := s.stageLog + [LogRecord(k.stage, GateRolledBack(k.gate, DEV_PHASE))],
      retryCount := s.retryCount + 1,
      rollbackCounts :=
        s.rollbackCounts["DEV_PHASE" := if "DEV_PHASE" in s.rollbackCounts then s.rollbackCounts["DEV_PHASE"] + 1 else 1],
      subtaskResults := [],
      subtaskIndex := -1)
  }

  predicate Rejects(w: World, k: Desk, s: State, d: GateDecision, t: State) {
    t == s.(
      stage := BLOCKED,
      decisions := s.decisions + [Said(w, d, k.id)],
      stageLog := s.stageLog + [LogRecord(k.stage, GateRejected(k.gate, "reject"))])
  }

  predicate Refuses(w: World, k: Desk, s: State, d: GateDecision, t: State) {
    t == s.(
      stage := BLOCKED,
      decisions := s.decisions + [Said(w, d, k.id)],
      stageLog := s.stageLog + [LogRecord(k.stage, GateInvalid(k.gate, d.answer))],
      warnings := s.warnings + [Warning(k.text, "user", GATE_INVALID_ANSWER, Severe)])
  }

  /** A hint that can be read goes to the planner, with a fresh quota of consultations. */
  predicate Hints(w: World, s: State, d: GateDecision, t: State, path: string, text: string) {
    var sha := w.sha(text);
    t == s.(
      stage := PLANNING_PHASE,
      decisions := s.decisions + [Said(w, d, "d_gate_1_5")],
      stageLog := s.stageLog + [LogRecord(GATE_1_5, ContinuePlanning(if |sha| > 12 then sha[..12] else sha))],
      hints := s.hints + [HintRef(sha, path)],
      consultRound := 0)
  }

  predicate HasNoHint(w: World, s: State, d: GateDecision, t: State, fault: CheckId) {
    t == s.(
      stage := BLOCKED,
      decisions := s.decisions + [Said(w, d, "d_gate_1_5")],
      stageLog := s.stageLog + [LogRecord(GATE_1_5, ContinueRejected(fault))],
      warnings := s.warnings + [Warning("GATE_1_5", "user", fault, Severe)])
  }

  predicate Continues(w: World, s: State, d: GateDecision, m: Node, t: State) {
    match d.hint
    case HintOk(path, text) => m == PlanningPhase && Hints(w, s, d, t, path, text)
    case NoHintPath => m == End && HasNoHint(w, s, d, t, CONTINUE_NO_HINT)
    case UnreadableHint => m == End && HasNoHint(w, s, d, t, CONTINUE_HINT_UNREADABLE)
    case HintTooLarge => m == End && HasNoHint(w, s, d, t, CONTINUE_HINT_TOO_LARGE)
    case HintNotUtf8 => m == End && HasNoHint(w, s, d, t, CONTINUE_HINT_NOT_UTF8)
  }

  predicate AtGateOne(w: World, s: State, d: GateDecision, m: Node, t: State) {
    if d.answer == "approve" then m == PlanningPhase && Approves(w, FIRST, s, d, t, PLANNING_PHASE)
    else if d.answer == "rollback_to_pm" then m == PmPhase && RollsBack(w, FIRST, s, d, t, PM_PHASE, "PM_PHASE")
    else if d.answer == "reject" then m == End && Rejects(w, FIRST, s, d, t)
    else m == End && Refuses(w, FIRST, s, d, t)
  }

  predicate AtGateOneFive(w: World, s: State, d: GateDecision, m: Node, t: State) {
    if d.answer == "approve" then m == DevLoopRouter && Approves(w, MIDDLE, s, d, t, DEV_PHASE)
    else if d.answer == "rollback_to_pm" then m == PmPhase && RollsBack(w, MIDDLE, s, d, t, PM_PHASE, "PM_PHASE")
    else if d.answer == "continue_planning" then Continues(w, s, d, m, t)
    else if d.answer == "reject" then m == End && Rejects(w, MIDDLE, s, d, t)
    else m == End && Refuses(w, MIDDLE, s, d, t)
  }

  predicate AtGateTwo(w: World, s: State, d: GateDecision, m: Node, t: State) {
    if d.answer == "approve" then m == RevDispatch && Approves(w, SECOND, s, d, t, REV_PHASE)
    else if d.answer == "rollback_to_planning" then
      m == PlanningPhase && RollsBack(w, SECOND, s, d, t, PLANNING_PHASE, "PLANNING_PHASE")
    else if d.answer == "rollback_to_pm" then m == PmPhase && RollsBack(w, SECOND, s, d, t, PM_PHASE, "PM_PHASE")
    else if d.answer == "reject" then m == End && Rejects(w, SECOND, s, d, t)
    else m == End && Refuses(w, SECOND, s, d, t)
  }

  predicate AtGateThree(w: World, s: State, d: GateDecision, m: Node, t: State) {
    if d.answer == "approve" then m == End && Approves(w, THIRD, s, d, t, DONE)
    else if d.answer == "rollback_to_dev" then m == DevLoopRouter && StartsDevOver(w, THIRD, s, d, t)
    else if d.answer == "rollback_to_planning" then
      m == PlanningPhase && RollsBack(w, THIRD, s, d, t, PLANNING_PHASE, "PLANNING_PHASE")
    else if d.answer == "rollback_to_pm" then m == PmPhase && RollsBack(w, THIRD, s, d, t, PM_PHASE, "PM_PHASE")
    else if d.answer == "reject" then m == End && Rejects(w, THIRD, s, d, t)
    else m == End && Refuses(w, THIRD, s, d, t)
  }

  /** What the answer `d` at gate node `n` makes of `s`. */
  predicate Answered(w: World, n: Node, s: State, d: GateDecision, m: Node, t: State) {
    match n
    case Gate1 => AtGateOne(w, s, d, m, t)
    case Gate1_5 => AtGateOneFive(w, s, d, m, t)
    case Gate2 => AtGateTwo(w, s, d, m, t)
    case Gate3 => AtGateThree(w, s, d, m, t)
    case _ => true
  }

  // ----- the gate function, branch by branch -----

  function DeskOf(g: Gate): Desk {
    match g case GateOne => FIRST case GateOneFive => MIDDLE case GateTwo => SECOND case GateThree => THIRD
  }

  lemma DeskIs(g: Gate)
    ensures
      var k := DeskOf(g);
      k.id == GateAuditId(g) && k.stage == GateStage(g) && k.text == StageValue(GateStage(g)) && k.gate == g
  {
  }

  lemma ApproveBranch(w: World, g: Gate, s: State, d: GateDecision)
    requires d.answer == "approve"
    ensures Approves(w, DeskOf(g), s, d, GateNode(w, g, s, d), StageAfter(g))
  {
    DeskIs(g);
    assert "approve" in Options(g) by { assert Options(g)[0] == "approve"; }
    hide Options, GateInvalidNode, GateRollbackNode, ContinueNode, RollbackTarget, DeskOf, GateAuditId, GateStage, StageValue;
  }

  lemma InvalidBranch(w: World, g: Gate, s: State, d: GateDecision)
    requires d.answer !in Options(g)
    ensures Refuses(w, DeskOf(g), s, d, GateNode(w, g, s, d))
  {
    DeskIs(g);
    hide Options, GateRollbackNode, ContinueNode, RollbackTarget, DeskOf, GateAuditId, GateStage, StageValue;
  }

  lemma RejectBranch(w: World, g: Gate, s: State, d: GateDecision)
    requires d.answer == "reject"
    ensures Rejects(w, DeskOf(g), s, d, GateNode(w, g, s, d))
  {
    DeskIs(g);
    assert "reject" in Options(g) by { assert Options(g)[|Options(g)| - 1] == "reject"; }
    assert "reject" != "approve" && "reject" != "continue_planning" && RollbackTarget("reject").None?;
    hide Options, GateInvalidNode, GateRollbackNode, ContinueNode, RollbackTarget, DeskOf, GateAuditId, GateStage, StageValue;
  }

  lemma RollbackBranch(w: World, g: Gate, s: State, d: GateDecision, target: Stage, key: string)
    requires d.answer in Options(g) && d.answer != "approve" && RollbackTarget(d.answer) == Some(target)
    requires target != DEV_PHASE && StageValue(target) == key
    ensures RollsBack(w, DeskOf(g), s, d, GateNode(w, g, s, d), target, key)
  {
    DeskIs(g);
    hide Options, GateInvalidNode, ContinueNode, RollbackTarget, DeskOf, GateAuditId, GateStage, StageValue;
  }

  lemma DevBranch(w: World, g: Gate, s: State, d: GateDecision)
    requires d.answer in Options(g) && d.answer != "approve" && RollbackTarget(d.answer) == Some(DEV_PHASE)
    ensures StartsDevOver(w, DeskOf(g), s, d, GateNode(w, g, s, d))
  {
    DeskIs(g);
    assert StageValue(DEV_PHASE) == "DEV_PHASE";
    hide Options, GateInvalidNode, ContinueNode, RollbackTarget, DeskOf, GateAuditId, GateStage, StageValue;
  }

  lemma HintBranch(w: World, s: State, d: GateDecision)
    requires d.answer == "continue_planning" && d.hint.HintOk?
    ensures Hints(w, s, d, GateNode(w, GateOneFive, s, d), d.hint.textPath, d.hint.text)
  {
    ContinueIsOption();
    hide Options, GateInvalidNode, GateRollbackNode, RollbackTarget;
  }

  lemma NoHintBranch(w: World, s: State, d: GateDecision, fault: CheckId)
    requires d.answer == "continue_planning" && HintFault(d.hint) == Some(fault)
    ensures HasNoHint(w, s, d, GateNode(w, GateOneFive, s, d), fault)
  {
    ContinueIsOption();
    hide Options, GateInvalidNode, GateRollbackNode, RollbackTarget, HintFault;
  }

  lemma ContinueIsOption()
    ensures "continue_planning" in Options(GateOneFive) && "continue_planning" != "approve"
    ensures RollbackTarget("continue_planning").None?
  {
    assert Options(GateOneFive)[2] == "continue_planning";
  }

  lemma ContinueBranch(w: World, s: State, d: GateDecision)
    requires d.answer == "continue_planning"
    ensures
      var t := GateNode(w, GateOneFive, s, d);
      Continues(w, s, d, Route(Gate1_5, t), t)
  {
    hide GateNode, Hints, HasNoHint;
    var t := GateNode(w, GateOneFive, s, d);
    if d.hint.HintOk? {
      HintBranch(w, s, d);
      HintEnds(w, s, d, t, d.hint.textPath, d.hint.text);
    } else {
      var fault := HintFault(d.hint).value;
      NoHintBranch(w, s, d, fault);
      NoHintEnds(w, s, d, t, fault);
    }
  }

  /** An answer is an option only under its own text. */
  lemma OptionsAre(a: string)
    ensures a in Options(GateOne) <==> a == "approve" || a == "rollback_to_pm" || a == "reject"
    ensures a in Options(GateOneFive) <==>
            a == "approve" || a == "rollback_to_pm" || a == "continue_planning" || a == "reject"
    ensures a in Options(GateTwo) <==> a == "approve" || a == "rollback_to_planning" || a == "rollback_to_pm" || a == "reject"
    ensures a in Options(GateThree) <==>
            || a == "approve" || a == "rollback_to_dev" || a == "rollback_to_planning" || a == "rollback_to_pm"
            || a == "reject"
  {
  }

  lemma TargetsAre()
    ensures RollbackTarget("rollback_to_pm") == Some(PM_PHASE) && "rollback_to_pm" != "approve"
    ensures RollbackTarget("rollback_to_planning") == Some(PLANNING_PHASE) && "rollback_to_planning" != "approve"
    ensures RollbackTarget("rollback_to_dev") == Some(DEV_PHASE) && "rollback_to_dev" != "approve"
    ensures StageValue(PM_PHASE) == "PM_PHASE" && StageValue(PLANNING_PHASE) == "PLANNING_PHASE"
  {
    assert "rollback_to_pm"[0] == "rollback_to_planning"[0] == "rollback_to_dev"[0] == 'r' && "approve"[0] == 'a';
  }

  lemma Branches(w: World, g: Gate, s: State, d: GateDecision)
    ensures
      var k, t := DeskOf(g), GateNode(w, g, s, d);
      if d.answer !in Options(g) then Refuses(w, k, s, d, t)
      else if d.answer == "approve" then Approves(w, k, s, d, t, StageAfter(g))
      else if d.answer == "rollback_to_pm" then RollsBack(w, k, s, d, t, PM_PHASE, "PM_PHASE")
      else if d.answer == "rollback_to_planning" then RollsBack(w, k, s, d, t, PLANNING_PHASE, "PLANNING_PHASE")
      else if d.answer == "rollback_to_dev" then StartsDevOver(w, k, s, d, t)
      else if d.answer == "reject" then Rejects(w, k, s, d, t)
      else d.answer == "continue_planning" && g == GateOneFive
  {
    hide Approves, Refuses, Rejects, RollsBack, StartsDevOver, GateNode, DeskOf, Options, StageAfter, RollbackTarget;
    TargetsAre();
    OptionsAre(d.answer);
    if d.answer !in Options(g) {
      InvalidBranch(w, g, s, d);
    } else if d.answer == "approve" {
      ApproveBranch(w, g, s, d);
    } else if d.answer == "rollback_to_pm" {
      RollbackBranch(w, g, s, d, PM_PHASE, "PM_PHASE");
    } else if d.answer == "rollback_to_planning" {
      RollbackBranch(w, g, s, d, PLANNING_PHASE, "PLANNING_PHASE");
    } else if d.answer == "rollback_to_dev" {
      DevBranch(w, g, s, d);
    } else if d.answer == "reject" {
      RejectBranch(w, g, s, d);
    } else {
      match g case GateOne => case GateOneFive => case GateTwo => case GateThree =>
    }
  }

  predicate Ends(t: State, stage: Stage, note: Note) {
    t.stage == stage && t.stageLog != [] && t.stageLog[|t.stageLog| - 1].note == note
  }

  lemma ApprovalEnds(w: World, k: Desk, s: State, d: GateDecision, t: State, next: Stage)
    ensures Approves(w, k, s, d, t, next) ==> Ends(t, next, GateApproved(k.gate))
  {
    hide Said;
  }

  lemma RollbackEnds(w: World, k: Desk, s: State, d: GateDecision, t: State, target: Stage, key: string)
    ensures RollsBack(w, k, s, d, t, target, key) ==> Ends(t, target, GateRolledBack(k.gate, target))
  {
    hide Said;
  }

  lemma DevEnds(w: World, k: Desk, s: State, d: GateDecision, t: State)
    ensures StartsDevOver(w, k, s, d, t) ==> Ends(t, DEV_PHASE, GateRolledBack(k.gate, DEV_PHASE))
  {
    hide Said;
  }

  lemma RejectionEnds(w: World, k: Desk, s: State, d: GateDecision, t: State)
    ensures Rejects(w, k, s, d, t) ==> Ends(t, BLOCKED, GateRejected(k.gate, "reject"))
  {
    hide Said;
  }

  lemma RefusalEnds(w: World, k: Desk, s: State, d: GateDecision, t: State)
    ensures Refuses(w, k, s, d, t) ==> Ends(t, BLOCKED, GateInvalid(k.gate, d.answer))
  {
    hide Said;
  }

  lemma NoHintEnds(w: World, s: State, d: GateDecision, t: State, fault: CheckId)
    ensures HasNoHint(w, s, d, t, fault) ==> Ends(t, BLOCKED, ContinueRejected(fault))
  {
    hide Said;
  }

  lemma HintEnds(w: World, s: State, d: GateDecision, t: State, path: string, text: string)
    requires Hints(w, s, d, t, path, text)
    ensures t.stage == PLANNING_PHASE && t.stageLog != [] && t.stageLog[|t.stageLog| - 1].note.ContinuePlanning?
  {
    hide Said;
  }

  lemma ContinueEnds(w: World, s: State, d: GateDecision, m: Node, t: State)
    requires Continues(w, s, d, m, t)
    ensures t.stageLog != [] && !t.stageLog[|t.stageLog| - 1].note.GateInvalid?
  {
    hide Hints, HasNoHint;
    match d.hint
    case HintOk(path, text) => HintEnds(w, s, d, t, path, text);
    case NoHintPath => NoHintEnds(w, s, d, t, CONTINUE_NO_HINT);
    case UnreadableHint => NoHintEnds(w, s, d, t, CONTINUE_HINT_UNREADABLE);
    case HintTooLarge => NoHintEnds(w, s, d, t, CONTINUE_HINT_TOO_LARGE);
    case HintNotUtf8 => NoHintEnds(w, s, d, t, CONTINUE_HINT_NOT_UTF8);
  }

  lemma AllEnd(w: World, k: Desk, s: State, d: GateDecision, t: State)
    ensures forall next :: Approves(w, k, s, d, t, next) ==> Ends(t, next, GateApproved(k.gate))
    ensures RollsBack(w, k, s, d, t, PM_PHASE, "PM_PHASE") ==> Ends(t, PM_PHASE, GateRolledBack(k.gate, PM_PHASE))
    ensures RollsBack(w, k, s, d, t, PLANNING_PHASE, "PLANNING_PHASE")
      ==> Ends(t, PLANNING_PHASE, GateRolledBack(k.gate, PLANNING_PHASE))
    ensures StartsDevOver(w, k, s, d, t) ==> Ends(t, DEV_PHASE, GateRolledBack(k.gate, DEV_PHASE))
    ensures Rejects(w, k, s, d, t) ==> Ends(t, BLOCKED, GateRejected(k.gate, "reject"))
    ensures Refuses(w, k, s, d, t) ==> Ends(t, BLOCKED, GateInvalid(k.gate, d.answer))
  {
    hide *;
    forall next ensures Approves(w, k, s, d, t, next) ==> Ends(t, next, GateApproved(k.gate)) {
      ApprovalEnds(w, k, s, d, t, next);
    }
    RollbackEnds(w, k, s, d, t, PM_PHASE, "PM_PHASE");
    RollbackEnds(w, k, s, d, t, PLANNING_PHASE, "PLANNING_PHASE");
    DevEnds(w, k, s, d, t);
    RejectionEnds(w, k, s, d, t);
    RefusalEnds(w, k, s, d, t);
  }

  lemma AnsweredAt(w: World, n: Node, g: Gate, s: State, d: GateDecision)
    requires (n == Gate1 && g == GateOne) || (n == Gate1_5 && g == GateOneFive) || (n == Gate2 && g == GateTwo)
      || (n == Gate3 && g == GateThree)
    ensures var t := GateNode(w, g, s, d); Answered(w, n, s, d, Route(n, t), t)
  {
    var t := GateNode(w, g, s, d);
    Branches(w, g, s, d);
    AllEnd(w, DeskOf(g), s, d, t);
    OptionsAre(d.answer);
    hide Approves, Refuses, Rejects, RollsBack, StartsDevOver, Continues, GateNode, Options, RouteDispatch, RoutePlanning;
    if g == GateOneFive && d.answer == "continue_planning" {
      ContinueBranch(w, s, d);
    }
    match g case GateOne => case GateOneFive => case GateTwo => case GateThree =>
  }

  lemma GateRuns(base: string, c: Config, e: Event)
    requires IsGate(c.node)
    ensures
      var g := match c.node case Gate1 => GateOne case Gate1_5 => GateOneFive case Gate2 => GateTwo case _ => GateThree;
      var t := GateNode(e.world, g, c.state, AsDecision(e.input));
      Step(base, c, e) == Config(Route(c.node, t), t)
  {
    hide GateNode, Route, DispatchNode, DevLoopNode, InitNode;
  }

  /** In every execution, whatever is answered at whichever gate. */
  lemma GateAnswered(base: string, cs: seq<Config>, events: seq<Event>, n: nat)
    requires Execution(base, cs, events) && n < |events| && IsGate(cs[n].node)
    ensures n + 1 < |cs|
    ensures Answered(events[n].world, cs[n].node, cs[n].state, AsDecision(events[n].input), cs[n + 1].node, cs[n + 1].state)
  {
    hide Step, Answered, GateNode, Route;
    ExecutionStep(base, cs, events, n);
    GateRuns(base, cs[n], events[n]);
    var s, d := cs[n].state, AsDecision(events[n].input);
    match cs[n].node
    case Gate1 => AnsweredAt(events[n].world, Gate1, GateOne, s, d);
    case Gate1_5 => AnsweredAt(events[n].world, Gate1_5, GateOneFive, s, d);
    case Gate2 => AnsweredAt(events[n].world, Gate2, GateTwo, s, d);
    case Gate3 => AnsweredAt(events[n].world, Gate3, GateThree, s, d);
  }

  /** The texts a gate knows. */
  predicate Offers(n: Node, a: string) {
    match n
    case Gate1 => a == "approve" || a == "rollback_to_pm" || a == "reject"
    case Gate1_5 => a == "approve" || a == "rollback_to_pm" || a == "continue_planning" || a == "reject"
    case Gate2 => a == "approve" || a == "rollback_to_planning" || a == "rollback_to_pm" || a == "reject"
    case Gate3 =>
      || a == "approve" || a == "rollback_to_dev" || a == "rollback_to_planning" || a == "rollback_to_pm"
      || a == "reject"
    case _ => false
  }

  /** An answer is put down as invalid, and not as a rejection, exactly if the gate does not offer it. */
  lemma InvalidIff(base: string, cs: seq<Config>, events: seq<Event>, n: nat)
    requires Execution(base, cs, events) && n < |events| && IsGate(cs[n].node)
    ensures n + 1 < |cs| && cs[n + 1].state.stageLog != []
    ensures
      var log := cs[n + 1].state.stageLog;
      log[|log| - 1].note.GateInvalid? <==> !Offers(cs[n].node, AsDecision(events[n].input).answer)
  {
    hide Step, Approves, Refuses, Rejects, RollsBack, StartsDevOver, Continues;
    GateAnswered(base, cs, events, n);
    var w, s, d, t := events[n].world, cs[n].state, AsDecision(events[n].input), cs[n + 1].state;
    AllEnd(w, FIRST, s, d, t);
    AllEnd(w, MIDDLE, s, d, t);
    AllEnd(w, SECOND, s, d, t);
    AllEnd(w, THIRD, s, d, t);
    if cs[n].node == Gate1_5 && d.answer == "continue_planning" {
      ContinueEnds(w, s, d, cs[n + 1].node, t);
    }
  }
}
