/** What the workflow keeps for the user: the audit lists only grow, and the summary and verdict
    shown at a gate are, word for word, those of the last result the guard accepted for it. */
module Records {
  import opened Basics
  import opened Schema
  import opened Guard
  import opened Workflow
  import Refinement
  import Runs

  /** Nothing that was recorded is changed or removed. */
  predicate Extends(s: State, t: State) {
    && s.decisions <= t.decisions && s.warnings <= t.warnings && s.stageLog <= t.stageLog
    && s.consultations <= t.consultations && s.hints <= t.hints
  }

  /** ... and no summary and no verdict is touched. */
  predicate Keeps(s: State, t: State) {
    Extends(s, t) && t.phaseSummaries == s.phaseSummaries && t.gateResults == s.gateResults
  }

  /** One summary and one verdict are overwritten with what the result claims. */
  predicate Stores(s: State, t: State, r: SubagentResult, summary: string, gate: string)
    requires r.SubagentResult?
  {
    && Extends(s, t)
    && t.phaseSummaries == s.phaseSummaries[summary := SummaryOf(r)]
    && t.gateResults == s.gateResults[gate := GateClaimed(r, gate)]
  }

  /** The keys a node stores its result's claims under; none for consultations and subtasks. */
  function KeysOf(n: Node): Option<(string, string)> {
    match n
    case PmPhase => Some(("PM_PHASE", "Gate 1"))
    case PlanningPhase => Some(("PLANNING_PHASE", "Gate 1.5"))
    case RevDispatch => Some(("REV_PHASE", "Gate 3 - rev_agent"))
    case RevCodexFinal => Some(("REV_PHASE_CODEX", "Gate 3"))
    case _ => None
  }

  lemma KeepsThen(s: State, t: State, u: State)
    requires Keeps(s, t) && Keeps(t, u)
    ensures Keeps(s, u)
  {
  }

  lemma StoresThen(s: State, t: State, u: State, r: SubagentResult, summary: string, gate: string)
    requires r.SubagentResult? && Keeps(s, t) && u == WithClaims(t, r, summary, gate)
    ensures Stores(s, u, r, summary, gate)
  {
  }

  lemma ThenKeeps(s: State, t: State, u: State, r: SubagentResult, summary: string, gate: string)
    requires r.SubagentResult? && Stores(s, t, r, summary, gate) && Keeps(t, u)
    ensures Stores(s, u, r, summary, gate)
  {
  }

  lemma AcceptedKeeps(w: World, s: State, d: Dispatch, r: SubagentResult, findings: seq<Warning>, id: string)
    requires r.SubagentResult?
    ensures Keeps(s, Accepted(w, s, d, r, findings, id))
    ensures Keeps(s, WithArtifacts(w, Accepted(w, s, d, r, findings, id), d, r))
  {
    var t := ClearPending(s, d);
    assert Keeps(s, t);
    hide ClearPending, ProvedArtifacts;
  }

  lemma FailedKeeps(s: State, d: Dispatch, findings: seq<Warning>)
    ensures Keeps(s, GuardFailed(s, d, findings))
  {
    hide SevereIds, RetryKey;
  }

  lemma LoggedKeeps(t: State, stage: Stage, note: Note, next: Stage)
    ensures Keeps(t, Log(t, stage, note).(stage := next))
  {
  }

  lemma PlannedKeeps(t: State, warnings: seq<Warning>, r: SubagentResult, note: Note)
    requires r.SubagentResult?
    ensures Keeps(t, Planned(t.(warnings := t.warnings + warnings), r, note))
  {
    hide ParsePlan;
  }

  lemma OutcomeKeeps(t: State, r: SubagentResult)
    requires r.SubagentResult?
    ensures Keeps(t, PlanningOutcome(t, r))
  {
    hide Keeps, Planned, Log, ConsultLimitWarning, AsksDev;
    var status := OrElse(r.status, "done");
    var exhausted := t.consultRound >= MAX_PLANNING_CONSULTATIONS;
    LoggedKeeps(t, PLANNING_PHASE, PlanningBlocked, BLOCKED);
    LoggedKeeps(t, PLANNING_PHASE, PlanningNeedsConsult(t.consultRound + 1), PLANNING_PHASE);
    PlannedKeeps(t, ConsultLimitWarning(exhausted), r, PlanningSurfaced(exhausted));
    PlannedKeeps(t, [], r, PlanningDispatch(status));
    assert t.(warnings := t.warnings + []) == t;
  }

  lemma PmStores(w: World, s: State, d: Dispatch, r: SubagentResult, findings: seq<Warning>)
    requires r.SubagentResult?
    ensures Stores(s, PmAccept(w, s, d, r, findings), r, "PM_PHASE", "Gate 1")
  {
    AcceptedKeeps(w, s, d, r, findings, "d_pm_dispatch");
    var a := WithArtifacts(w, Accepted(w, s, d, r, findings, "d_pm_dispatch"), d, r);
    hide Accepted, WithArtifacts;
    StoresThen(s, a, WithClaims(a, r, "PM_PHASE", "Gate 1"), r, "PM_PHASE", "Gate 1");
  }

  lemma PlanningStores(w: World, s: State, d: Dispatch, r: SubagentResult, findings: seq<Warning>)
    requires r.SubagentResult?
    ensures Stores(s, PlanningAccept(w, s, d, r, findings), r, "PLANNING_PHASE", "Gate 1.5")
  {
    AcceptedKeeps(w, s, d, r, findings, "d_planning_dispatch");
    var a := WithArtifacts(w, Accepted(w, s, d, r, findings, "d_planning_dispatch"), d, r);
    var b := WithClaims(a, r, "PLANNING_PHASE", "Gate 1.5");
    hide Accepted, WithArtifacts, PlanningOutcome, Stores, Keeps;
    StoresThen(s, a, b, r, "PLANNING_PHASE", "Gate 1.5");
    OutcomeKeeps(b, r);
    ThenKeeps(s, b, PlanningOutcome(b, r), r, "PLANNING_PHASE", "Gate 1.5");
  }

  lemma RevStores(w: World, s: State, d: Dispatch, r: SubagentResult, findings: seq<Warning>)
    requires r.SubagentResult?
    ensures Stores(s, RevAccept(w, s, d, r, findings), r, "REV_PHASE", "Gate 3 - rev_agent")
  {
    AcceptedKeeps(w, s, d, r, findings, "d_rev_agent");
    hide Accepted, WithArtifacts;
  }

  lemma FinalStores(w: World, s: State, d: Dispatch, r: SubagentResult, findings: seq<Warning>)
    requires r.SubagentResult?
    ensures Stores(s, CodexFinalAccept(w, s, d, r, findings), r, "REV_PHASE_CODEX", "Gate 3")
  {
    AcceptedKeeps(w, s, d, r, findings, "d_codex_final");
    hide Accepted;
  }

  lemma ConsultKeeps(w: World, s: State, d: Dispatch, r: SubagentResult, findings: seq<Warning>)
    requires r.SubagentResult?
    ensures Keeps(s, ConsultAccept(w, s, d, r, findings))
  {
    AcceptedKeeps(w, s, d, r, findings, "d_consult_" + Decimal(s.consultRound + 1));
    hide Accepted, Decimal;
  }

  lemma DevKeeps(w: World, s: State, d: Dispatch, r: SubagentResult, findings: seq<Warning>, id: string)
    requires r.SubagentResult?
    ensures Keeps(s, DevAccept(w, s, d, r, findings, id))
    ensures Keeps(s, ReviewAccept(w, s, d, r, findings, id))
  {
    AcceptedKeeps(w, s, d, r, findings, "d_dev_" + id);
    AcceptedKeeps(w, s, d, r, findings, "d_codex_" + id);
    hide Accepted, WithArtifacts, Put, DevResult, ReviewResult;
  }

  /** The result at this node is accepted, and it leaves a summary and a verdict. */
  predicate StoresAt(c: Config, e: Event) {
    && KeysOf(c.node).Some? && DispatchOf(c.node, c.state).Some?
    && !Untrustworthy(e.world, AsResult(e.input), c.state.artifactPaths, DispatchOf(c.node, c.state).value.stage)
  }

  lemma TrustedIsRecord(w: World, r: SubagentResult, paths: map<string, string>, stage: Stage)
    requires !Untrustworthy(w, r, paths, stage)
    ensures r.SubagentResult?
  {
  }

  lemma AcceptStores(w: World, n: Node, s: State, d: Dispatch, r: SubagentResult, findings: seq<Warning>)
    requires r.SubagentResult? && DispatchOf(n, s) == Some(d)
    ensures var t := Accept(w, n, s, d, r, findings);
      if KeysOf(n).Some? then Stores(s, t, r, KeysOf(n).value.0, KeysOf(n).value.1) else Keeps(s, t)
  {
    hide Stores, Keeps, PmAccept, PlanningAccept, RevAccept, CodexFinalAccept, ConsultAccept, DevAccept, ReviewAccept;
    match n
    case PmPhase => PmStores(w, s, d, r, findings);
    case PlanningPhase => PlanningStores(w, s, d, r, findings);
    case RevDispatch => RevStores(w, s, d, r, findings);
    case RevCodexFinal => FinalStores(w, s, d, r, findings);
    case PlanningDevConsult => ConsultKeeps(w, s, d, r, findings);
    case DevSubtaskDispatch => DevKeeps(w, s, d, r, findings, CurrentSubtask(s).value.taskId);
    case DevCodexReview => DevKeeps(w, s, d, r, findings, CurrentSubtask(s).value.taskId);
  }

  lemma NoDispatchKeeps(w: World, n: Node, s: State, r: SubagentResult)
    requires IsDispatch(n) && DispatchOf(n, s).None?
    ensures Keeps(s, DispatchNode(w, n, s, r))
  {
    hide DispatchOf;
  }

  lemma DispatchStores(w: World, n: Node, s: State, r: SubagentResult)
    requires IsDispatch(n)
    ensures var t := DispatchNode(w, n, s, r);
      if StoresAt(Config(n, s), Event(w, FromSubagent(r))) then
        r.SubagentResult? && Stores(s, t, r, KeysOf(n).value.0, KeysOf(n).value.1)
      else Keeps(s, t)
  {
    hide Stores, Keeps, Accept, GuardFailed, AllFindings, HasSevere, DispatchNode;
    if DispatchOf(n, s).None? {
      NoDispatchKeeps(w, n, s, r);
    } else {
      var d := DispatchOf(n, s).value;
      SevereIff(w, r, d.expected, s.artifactPaths, d.stage, d.subagent);
      Refinement.DispatchIs(w, n, s, d, r);
      if HasSevere(Findings(w, s, d, r)) {
        FailedKeeps(s, d, Findings(w, s, d, r));
      } else {
        TrustedIsRecord(w, r, s.artifactPaths, d.stage);
        AcceptStores(w, n, s, d, r, Findings(w, s, d, r));
      }
    }
  }

  lemma InvalidKeeps(g: Gate, t: State, answer: string)
    ensures Keeps(t, GateInvalidNode(g, t, answer))
  {
  }

  lemma GateKeeps(w: World, g: Gate, s: State, d: GateDecision)
    ensures Keeps(s, GateNode(w, g, s, d))
  {
    var t := WithAnswer(w, g, s, d);
    assert Keeps(s, t);
    hide WithAnswer, GateRollbackNode, ContinueNode, GateInvalidNode, RollbackTarget, Options, Log, Keeps;
    if d.answer !in Options(g) {
      InvalidKeeps(g, t, d.answer);
    } else if d.answer == "approve" {
      LoggedKeeps(t, GateStage(g), GateApproved(g), StageAfter(g));
    } else if RollbackTarget(d.answer).Some? {
      RollbackKeeps(g, t, RollbackTarget(d.answer).value);
    } else if d.answer == "continue_planning" {
      ContinueKeeps(w, t, d.hint);
    } else {
      LoggedKeeps(t, GateStage(g), GateRejected(g, d.answer), BLOCKED);
    }
    KeepsThen(s, t, GateNode(w, g, s, d));
  }

  lemma RollbackKeeps(g: Gate, t: State, target: Stage)
    ensures Keeps(t, GateRollbackNode(g, t, target))
  {
  }

  lemma ContinueKeeps(w: World, t: State, h: Hint)
    ensures Keeps(t, ContinueNode(w, t, h))
  {
    hide Prefix;
    if HintFault(h).Some? {
    } else {
    }
  }

  /** The DEV loop writes only under its own keys. */
  ghost predicate StoresDev(s: State, t: State) {
    && Extends(s, t)
    && (forall k | k != "DEV_PHASE" :: SameAt(s.phaseSummaries, t.phaseSummaries, k))
    && (forall k | k != "Gate 2" :: SameAt(s.gateResults, t.gateResults, k))
  }

  lemma LoopStores(s: State)
    ensures StoresDev(s, DevLoopNode(s))
  {
    hide DevSummary, AllPassed, FailedReasons;
    if 0 <= s.subtaskIndex + 1 < |s.subtasks| {
    } else {
    }
  }

  // ----- one step, and whole executions -----

  /** The summary is, word for word, the one handed in; without one, all its fields are empty. */
  predicate Summarizes(p: PhaseSummary, r: SubagentResult)
    requires r.SubagentResult?
  {
    match r.phaseSummary
    case Some(q) => p == q
    case None => p.decisions == [] && p.openIssues == [] && p.risks == [] && p.handoffNote == ""
  }

  /** The verdict is the one handed in, under the given name if it brings none of its own; it passes only
      if that is said, and without a verdict it fails and gives no reasons. */
  predicate Judges(g: GateResult, r: SubagentResult, name: string)
    requires r.SubagentResult?
  {
    match r.gate
    case Some(claim) =>
      && g.name == (match claim.name case Some(own) => own case None => name)
      && (g.passed <==> claim.passed == Some(true))
      && g.reasons == claim.reasons
    case None => g.name == name && !g.passed && g.reasons == []
  }

  /** The entries under a node's keys are those result `r` claims. */
  predicate Holds(s: State, r: SubagentResult, summary: string, gate: string) {
    && r.SubagentResult?
    && summary in s.phaseSummaries && Summarizes(s.phaseSummaries[summary], r)
    && gate in s.gateResults && Judges(s.gateResults[gate], r, gate)
  }

  lemma ClaimsAreSaid(r: SubagentResult, name: string)
    requires r.SubagentResult?
    ensures Summarizes(SummaryOf(r), r) && Judges(GateClaimed(r, name), r, name)
  {
  }

  predicate SameEntries(s: State, t: State, summary: string, gate: string) {
    SameAt(s.phaseSummaries, t.phaseSummaries, summary) && SameAt(s.gateResults, t.gateResults, gate)
  }

  lemma StoredUnder(s: State, t: State, r: SubagentResult, n: Node, m: Node)
    requires KeysOf(n).Some? && KeysOf(m).Some?
    requires r.SubagentResult? && Stores(s, t, r, KeysOf(n).value.0, KeysOf(n).value.1)
    ensures if n == m then Holds(t, r, KeysOf(m).value.0, KeysOf(m).value.1)
            else SameEntries(s, t, KeysOf(m).value.0, KeysOf(m).value.1)
  {
    ClaimsAreSaid(r, KeysOf(n).value.1);
    hide Summarizes, Judges, SummaryOf, GateClaimed;
  }

  lemma KeptUnder(s: State, t: State, m: Node)
    requires KeysOf(m).Some? && (Keeps(s, t) || StoresDev(s, t))
    ensures Extends(s, t) && SameEntries(s, t, KeysOf(m).value.0, KeysOf(m).value.1)
  {
  }

  lemma InitKeeps(base: string, s: State)
    ensures Keeps(s, InitNode(base, s))
  {
    hide ArtifactPaths;
  }

  /** The state after a node run that is not a dispatch. */
  lemma OtherNodeKeeps(base: string, n: Node, s: State, e: Event)
    requires !IsDispatch(n)
    ensures var t := RunNode(base, n, s, e); Keeps(s, t) || StoresDev(s, t)
  {
    hide Keeps, StoresDev, GateNode, DevLoopNode, InitNode;
    match n
    case End => assert Keeps(s, s) by { KeepsSelf(s); }
    case Init => InitKeeps(base, s);
    case DevLoopRouter => LoopStores(s);
    case Gate1 => GateKeeps(e.world, GateOne, s, AsDecision(e.input));
    case Gate1_5 => GateKeeps(e.world, GateOneFive, s, AsDecision(e.input));
    case Gate2 => GateKeeps(e.world, GateTwo, s, AsDecision(e.input));
    case Gate3 => GateKeeps(e.world, GateThree, s, AsDecision(e.input));
  }

  lemma KeepsSelf(s: State)
    ensures Keeps(s, s)
  {
  }

  lemma RunRecords(base: string, n: Node, s: State, e: Event, m: Node)
    requires KeysOf(m).Some?
    ensures var t := RunNode(base, n, s, e);
      && Extends(s, t)
      && if n == m && StoresAt(Config(n, s), e) then Holds(t, AsResult(e.input), KeysOf(m).value.0, KeysOf(m).value.1)
         else SameEntries(s, t, KeysOf(m).value.0, KeysOf(m).value.1)
  {
    var t := RunNode(base, n, s, e);
    if IsDispatch(n) {
      DispatchStores(e.world, n, s, AsResult(e.input));
      SameStoresAt(n, s, e);
      hide DispatchNode, StoresAt, SameEntries, Holds, Extends;
      if StoresAt(Config(n, s), e) {
        StoresExtends(s, t, AsResult(e.input), KeysOf(n).value.0, KeysOf(n).value.1);
        StoredUnder(s, t, AsResult(e.input), n, m);
      } else {
        KeptUnder(s, t, m);
      }
    } else {
      OtherNodeKeeps(base, n, s, e);
      hide RunNode, Keeps, StoresDev, SameEntries, Extends, StoresAt;
      KeptUnder(s, t, m);
    }
  }

  lemma StoresExtends(s: State, t: State, r: SubagentResult, summary: string, gate: string)
    requires r.SubagentResult? && Stores(s, t, r, summary, gate)
    ensures Extends(s, t)
  {
  }

  lemma SameStoresAt(n: Node, s: State, e: Event)
    ensures StoresAt(Config(n, s), e) == StoresAt(Config(n, s), Event(e.world, FromSubagent(AsResult(e.input))))
    ensures StoresAt(Config(n, s), e) ==> KeysOf(n).Some?
  {
  }

  lemma StepRecords(base: string, c: Config, e: Event, m: Node)
    requires KeysOf(m).Some?
    ensures var c' := Step(base, c, e);
      && Extends(c.state, c'.state)
      && if c.node == m && StoresAt(c, e) then Holds(c'.state, AsResult(e.input), KeysOf(m).value.0, KeysOf(m).value.1)
         else SameEntries(c.state, c'.state, KeysOf(m).value.0, KeysOf(m).value.1)
  {
    RunRecords(base, c.node, c.state, e, m);
    if c.node == End {
      KeepsSelf(c.state);
      KeptUnder(c.state, c.state, m);
    }
    hide RunNode, Extends, Holds, SameEntries, StoresAt;
  }

  lemma StepExtends(base: string, c: Config, e: Event)
    ensures Extends(c.state, Step(base, c, e).state)
  {
    hide Step;
    StepRecords(base, c, e, PmPhase);
  }

  lemma ExtendsSame(s: State)
    ensures Extends(s, s)
  {
  }

  lemma ExtendsOn(s: State, t: State, u: State)
    requires Extends(s, t) && Extends(t, u)
    ensures Extends(s, u)
  {
  }

  /** The audit lists of an execution only grow: whatever was recorded once is there, in its place,
      ever after. */
  lemma {:induction false} RecordsOnlyGrow(base: string, cs: seq<Config>, events: seq<Event>, m: nat, n: nat)
    requires Execution(base, cs, events) && m <= n < |cs|
    ensures Extends(cs[m].state, cs[n].state)
  {
    hide *;
    Runs.ExecutionLength(base, cs, events);
    if m == n {
      ExtendsSame(cs[n].state);
    } else {
      RecordsOnlyGrow(base, cs, events, m, n - 1);
      Runs.ExecutionStep(base, cs, events, n - 1);
      StepExtends(base, cs[n - 1], events[n - 1]);
      ExtendsOn(cs[m].state, cs[n - 1].state, cs[n].state);
    }
  }

  /** The last accepted result of node `m` before configuration `n`. */
  function LastStore(cs: seq<Config>, events: seq<Event>, n: nat, m: Node): (last: Option<nat>)
    requires n <= |events| && n < |cs|
    ensures last.Some? ==> last.value < n && cs[last.value].node == m && StoresAt(cs[last.value], events[last.value])
  {
    if n == 0 then None
    else if cs[n - 1].node == m && StoresAt(cs[n - 1], events[n - 1]) then Some(n - 1)
    else LastStore(cs, events, n - 1, m)
  }

  /** Nothing was stored since. */
  lemma {:induction false} NoStoreSince(cs: seq<Config>, events: seq<Event>, n: nat, m: Node, i: nat)
    requires n <= |events| && n < |cs| && i < n && cs[i].node == m && StoresAt(cs[i], events[i])
    ensures LastStore(cs, events, n, m).Some? && i <= LastStore(cs, events, n, m).value
  {
    hide StoresAt;
    if i < n - 1 {
      NoStoreSince(cs, events, n - 1, m, i);
    }
  }

  lemma LastStoreStep(cs: seq<Config>, events: seq<Event>, n: nat, m: Node)
    requires 0 < n <= |events| && n < |cs|
    ensures LastStore(cs, events, n, m)
      == if cs[n - 1].node == m && StoresAt(cs[n - 1], events[n - 1]) then Some(n - 1) else LastStore(cs, events, n - 1, m)
  {
    hide StoresAt;
  }

  lemma NoStoreYet(cs: seq<Config>, events: seq<Event>, m: Node)
    requires |cs| > 0
    ensures LastStore(cs, events, 0, m) == None
  {
  }

  lemma NothingStored(m: Node)
    requires KeysOf(m).Some?
    ensures var (summary, gate) := KeysOf(m).value;
      summary !in START.state.phaseSummaries && gate !in START.state.gateResults
  {
  }

  lemma StoredStays(s: State, t: State, r: SubagentResult, summary: string, gate: string)
    requires SameEntries(s, t, summary, gate)
    ensures summary in s.phaseSummaries <==> summary in t.phaseSummaries
    ensures gate in s.gateResults <==> gate in t.gateResults
    ensures Holds(s, r, summary, gate) ==> Holds(t, r, summary, gate)
  {
    hide Summarizes, Judges;
  }

  /** Claims are kept verbatim.  In every reachable state the summary and the verdict of a phase
      exist exactly when some result for it was accepted, and they are what the last one said. */
  lemma {:induction false} ClaimTruth(base: string, cs: seq<Config>, events: seq<Event>, n: nat, m: Node)
    requires Execution(base, cs, events) && n < |cs| && KeysOf(m).Some?
    ensures
      var s, (summary, gate) := cs[n].state, KeysOf(m).value;
      match LastStore(cs, events, n, m)
      case None => summary !in s.phaseSummaries && gate !in s.gateResults
      case Some(i) => Holds(s, AsResult(events[i].input), summary, gate)
  {
    assert |cs| == |events| + 1 && cs[0] == START by {
      hide Step;
    }
    hide *;
    if n == 0 {
      NoStoreYet(cs, events, m);
      NothingStored(m);
    } else {
      ClaimTruth(base, cs, events, n - 1, m);
      Runs.ExecutionStep(base, cs, events, n - 1);
      StepRecords(base, cs[n - 1], events[n - 1], m);
      LastStoreStep(cs, events, n, m);
      var last := LastStore(cs, events, n - 1, m);
      if !(cs[n - 1].node == m && StoresAt(cs[n - 1], events[n - 1])) {
        var r := if last.Some? then AsResult(events[last.value].input) else AsResult(events[n - 1].input);
        StoredStays(cs[n - 1].state, cs[n].state, r, KeysOf(m).value.0, KeysOf(m).value.1);
      }
    }
  }
}
