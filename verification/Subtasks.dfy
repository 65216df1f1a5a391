/** The record kept of each subtask: what its developer and its reviewer last said, word for word. */
module Subtasks {
  import opened Basics
  import opened Schema
  import opened Guard
  import opened Workflow
  import opened ControlMachine
  import opened Refinement
  import opened Runs
  import opened Traces
  import opened Approval
  import opened DevLoop

  /** The result that comes in is accepted by the guard. */
  predicate Accepts(c: Config, e: Event) {
    && IsDispatch(c.node) && DispatchOf(c.node, c.state).Some?
    && !Untrustworthy(e.world, AsResult(e.input), c.state.artifactPaths, DispatchOf(c.node, c.state).value.stage)
  }

  predicate IsCurrent(s: State, id: string) {
    CurrentSubtask(s).Some? && CurrentSubtask(s).value.taskId == id
  }

  predicate Develops(c: Config, e: Event, id: string) {
    c.node == DevSubtaskDispatch && Accepts(c, e) && IsCurrent(c.state, id)
  }

  predicate ReviewsIt(c: Config, e: Event, id: string) {
    c.node == DevCodexReview && Accepts(c, e) && IsCurrent(c.state, id)
  }

  /** The handoff note handed in; empty if there is no summary. */
  function NoteOf(r: SubagentResult): string
    requires r.SubagentResult?
  {
    match r.phaseSummary case Some(p) => p.handoffNote case None => ""
  }

  /** The developer's half of a record is what result `r` says. */
  predicate DevHalf(x: SubtaskResult, r: SubagentResult) {
    && r.SubagentResult? && r.status == Some(x.devStatus)
    && x.devHandoff == NoteOf(r) && x.devSha == r.fileSha
  }

  /** The reviewer's half. A missing verdict is a failing one. */
  predicate ReviewHalf(x: SubtaskResult, r: SubagentResult) {
    && r.SubagentResult? && r.status == Some(x.codexStatus)
    && x.codexHandoff == NoteOf(r) && x.codexSha == r.fileSha
    && (x.reviewPassed <==> r.gate.Some? && r.gate.value.passed == Some(true))
    && x.reviewReasons == if r.gate.Some? then r.gate.value.reasons else []
  }

  predicate NotReviewed(x: SubtaskResult) {
    x.codexStatus == "" && x.codexHandoff == "" && x.codexSha == "" && !x.reviewPassed && x.reviewReasons == []
  }

  predicate SameDevHalf(x: SubtaskResult, y: SubtaskResult) {
    x.devStatus == y.devStatus && x.devHandoff == y.devHandoff && x.devSha == y.devSha
  }

  lemma {:induction false} FindPut(t: ResultTable, id: string, x: SubtaskResult, key: string)
    ensures Find(Put(t, id, x), key) == if key == id then Some(x) else Find(t, key)
  {
    if t != [] && t[0].0 != id {
      FindPut(t[1..], id, x, key);
      assert Put(t, id, x)[1..] == Put(t[1..], id, x);
    } else if t != [] {
      assert Put(t, id, x)[1..] == t[1..];
    }
  }

  // ----- the table after one node run -----

  lemma AcceptedTable(w: World, s: State, d: Dispatch, r: SubagentResult, findings: seq<Warning>, id: string)
    requires r.SubagentResult?
    ensures Accepted(w, s, d, r, findings, id).subtaskResults == s.subtaskResults
  {
  }

  lemma LoggedTable(t: State, stage: Stage, note: Note, next: Stage)
    ensures Log(t, stage, note).(stage := next).subtaskResults == t.subtaskResults
  {
  }

  lemma PlannedTable(t: State, r: SubagentResult, note: Note)
    requires r.SubagentResult?
    ensures Planned(t, r, note).subtaskResults == []
  {
    hide ParsePlan;
  }

  lemma OutcomeTable(t: State, r: SubagentResult)
    requires r.SubagentResult?
    ensures var u := PlanningOutcome(t, r).subtaskResults; u == t.subtaskResults || u == []
  {
    hide Planned, Log, ConsultLimitWarning, AsksDev;
    var exhausted := t.consultRound >= MAX_PLANNING_CONSULTATIONS;
    LoggedTable(t, PLANNING_PHASE, PlanningBlocked, BLOCKED);
    LoggedTable(t, PLANNING_PHASE, PlanningNeedsConsult(t.consultRound + 1), PLANNING_PHASE);
    PlannedTable(t.(warnings := t.warnings + ConsultLimitWarning(exhausted)), r, PlanningSurfaced(exhausted));
    PlannedTable(t, r, PlanningDispatch(OrElse(r.status, "done")));
  }

  lemma PlanningTable(w: World, s: State, d: Dispatch, r: SubagentResult, findings: seq<Warning>)
    requires r.SubagentResult?
    ensures var u := PlanningAccept(w, s, d, r, findings).subtaskResults; u == s.subtaskResults || u == []
  {
    var a := Accepted(w, s, d, r, findings, "d_planning_dispatch");
    AcceptedTable(w, s, d, r, findings, "d_planning_dispatch");
    hide Accepted, PlanningOutcome, ProvedArtifacts;
    OutcomeTable(WithClaims(WithArtifacts(w, a, d, r), r, "PLANNING_PHASE", "Gate 1.5"), r);
  }

  lemma PlainTables(w: World, s: State, d: Dispatch, r: SubagentResult, findings: seq<Warning>)
    requires r.SubagentResult?
    ensures PmAccept(w, s, d, r, findings).subtaskResults == s.subtaskResults
    ensures ConsultAccept(w, s, d, r, findings).subtaskResults == s.subtaskResults
    ensures RevAccept(w, s, d, r, findings).subtaskResults == s.subtaskResults
    ensures CodexFinalAccept(w, s, d, r, findings).subtaskResults == s.subtaskResults
  {
    AcceptedTable(w, s, d, r, findings, "d_pm_dispatch");
    AcceptedTable(w, s, d, r, findings, "d_consult_" + Decimal(s.consultRound + 1));
    AcceptedTable(w, s, d, r, findings, "d_rev_agent");
    AcceptedTable(w, s, d, r, findings, "d_codex_final");
    hide Accepted, Decimal, ProvedArtifacts;
  }

  /** Only an accepted developer or reviewer puts something into the table, and each only under
      the current subtask; a new plan may empty it. */
  lemma AcceptTable(w: World, n: Node, s: State, d: Dispatch, r: SubagentResult, findings: seq<Warning>)
    requires r.SubagentResult? && DispatchOf(n, s) == Some(d)
    ensures var u := Accept(w, n, s, d, r, findings).subtaskResults;
      if n == DevSubtaskDispatch then u == Put(s.subtaskResults, CurrentSubtask(s).value.taskId, DevResult(r))
      else if n == DevCodexReview then
        u == Put(s.subtaskResults, CurrentSubtask(s).value.taskId, ReviewResult(s.subtaskResults, CurrentSubtask(s).value.taskId, r))
      else u == s.subtaskResults || u == []
  {
    PlainTables(w, s, d, r, findings);
    PlanningTable(w, s, d, r, findings);
    hide PmAccept, PlanningAccept, ConsultAccept, RevAccept, CodexFinalAccept, Put, DevResult, ReviewResult, ProvedArtifacts, Accepted;
  }

  lemma FailedTable(s: State, d: Dispatch, findings: seq<Warning>)
    ensures GuardFailed(s, d, findings).subtaskResults == s.subtaskResults
  {
    hide SevereIds, RetryKey, StageValue;
    if Count(s.guardRetries, RetryKey(s, d)) >= GUARD_RETRY_LIMIT {
    } else {
    }
  }

  /** `u` is the table after the run of a node. */
  predicate TableMoves(c: Config, e: Event, u: ResultTable) {
    var id := if CurrentSubtask(c.state).Some? then CurrentSubtask(c.state).value.taskId else "";
    var r := AsResult(e.input);
    if Accepts(c, e) && c.node == DevSubtaskDispatch then
      r.SubagentResult? && r.status.Some? && u == Put(c.state.subtaskResults, id, DevResult(r))
    else if Accepts(c, e) && c.node == DevCodexReview then
      r.SubagentResult? && r.status.Some? && u == Put(c.state.subtaskResults, id, ReviewResult(c.state.subtaskResults, id, r))
    else
      u == c.state.subtaskResults || u == []
  }

  lemma NoDispatchTable(w: World, n: Node, s: State, r: SubagentResult)
    requires IsDispatch(n) && DispatchOf(n, s).None?
    ensures DispatchNode(w, n, s, r).subtaskResults == s.subtaskResults
  {
    hide DispatchOf;
  }

  lemma DispatchTable(c: Config, e: Event)
    requires IsDispatch(c.node)
    ensures TableMoves(c, e, DispatchNode(e.world, c.node, c.state, AsResult(e.input)).subtaskResults)
  {
    hide Accept, GuardFailed, DispatchNode, Put, DevResult, ReviewResult, AllFindings, HasSevere;
    var r, s := AsResult(e.input), c.state;
    if DispatchOf(c.node, s).None? {
      NoDispatchTable(e.world, c.node, s, r);
    } else {
      var d := DispatchOf(c.node, s).value;
      SevereIff(e.world, r, d.expected, s.artifactPaths, d.stage, d.subagent);
      DispatchIs(e.world, c.node, s, d, r);
      FailedTable(s, d, Findings(e.world, s, d, r));
      if !Untrustworthy(e.world, r, s.artifactPaths, d.stage) {
        AcceptTable(e.world, c.node, s, d, r, Findings(e.world, s, d, r));
      }
    }
  }

  lemma GateTable(w: World, g: Gate, s: State, d: GateDecision)
    ensures var u := GateNode(w, g, s, d).subtaskResults; u == s.subtaskResults || u == []
  {
    var t := WithAnswer(w, g, s, d);
    assert t.subtaskResults == s.subtaskResults;
    InvalidTable(g, t, d.answer);
    RollbackTable(g, t, if RollbackTarget(d.answer).Some? then RollbackTarget(d.answer).value else PM_PHASE);
    ContinueTable(w, t, d.hint);
    LoggedTable(t, GateStage(g), GateApproved(g), StageAfter(g));
    LoggedTable(t, GateStage(g), GateRejected(g, d.answer), BLOCKED);
    hide WithAnswer, GateRollbackNode, ContinueNode, GateInvalidNode, RollbackTarget, Options, Log;
  }

  lemma InvalidTable(g: Gate, t: State, answer: string)
    ensures GateInvalidNode(g, t, answer).subtaskResults == t.subtaskResults
  {
  }

  lemma RollbackTable(g: Gate, t: State, target: Stage)
    ensures var u := GateRollbackNode(g, t, target).subtaskResults; u == t.subtaskResults || u == []
  {
  }

  lemma ContinueTable(w: World, t: State, h: Hint)
    ensures ContinueNode(w, t, h).subtaskResults == t.subtaskResults
  {
    hide Prefix;
    if HintFault(h).Some? {
    } else {
    }
  }

  lemma LoopDoneTable(s: State)
    ensures DevLoopDone(s).subtaskResults == s.subtaskResults
  {
    hide DevSummary, AllPassed, FailedReasons;
  }

  lemma EnterTable(s: State, note: Note)
    ensures Log(s, DEV_PHASE, note).subtaskResults == s.subtaskResults
  {
  }

  lemma LoopTable(s: State)
    ensures DevLoopNode(s).subtaskResults == s.subtaskResults
  {
    hide DevSummary, AllPassed, FailedReasons, DevLoopDone, Log;
    LoopDoneTable(s);
    if 0 <= s.subtaskIndex + 1 < |s.subtasks| {
      EnterTable(s, EnterSubtask(s.subtasks[s.subtaskIndex + 1].taskId));
    }
  }

  lemma OtherNodeTable(base: string, n: Node, s: State, e: Event)
    requires !IsDispatch(n)
    ensures var u := RunNode(base, n, s, e).subtaskResults; u == s.subtaskResults || u == []
  {
    hide GateNode, DevLoopNode, ArtifactPaths;
    LoopTable(s);
    match n
    case Gate1 => GateTable(e.world, GateOne, s, AsDecision(e.input));
    case Gate1_5 => GateTable(e.world, GateOneFive, s, AsDecision(e.input));
    case Gate2 => GateTable(e.world, GateTwo, s, AsDecision(e.input));
    case Gate3 => GateTable(e.world, GateThree, s, AsDecision(e.input));
    case _ =>
  }

  // ----- one record over one step -----

  lemma RunTable(base: string, c: Config, e: Event)
    ensures TableMoves(c, e, RunNode(base, c.node, c.state, e).subtaskResults)
  {
    hide Put, DevResult, ReviewResult, DispatchNode, GateNode, DevLoopNode, InitNode, Untrustworthy;
    if IsDispatch(c.node) {
      DispatchTable(c, e);
    } else {
      OtherNodeTable(base, c.node, c.state, e);
    }
  }

  /** The record of one subtask goes from `was` to `now`. */
  predicate RecordMoves(c: Config, e: Event, id: string, was: Option<SubtaskResult>, now: Option<SubtaskResult>) {
    var r := AsResult(e.input);
    if Develops(c, e, id) then now.Some? && DevHalf(now.value, r) && NotReviewed(now.value)
    else if ReviewsIt(c, e, id) then
      now.Some? && ReviewHalf(now.value, r) && (was.Some? ==> SameDevHalf(now.value, was.value))
    else
      now.Some? ==> now == was
  }

  lemma DevResultHalf(r: SubagentResult)
    requires r.SubagentResult? && r.status.Some?
    ensures DevHalf(DevResult(r), r) && NotReviewed(DevResult(r))
  {
  }

  lemma ReviewResultHalf(t: ResultTable, id: string, r: SubagentResult)
    requires r.SubagentResult? && r.status.Some?
    ensures ReviewHalf(ReviewResult(t, id, r), r)
    ensures Find(t, id).Some? ==> SameDevHalf(ReviewResult(t, id, r), Find(t, id).value)
  {
    hide Find;
  }

  lemma NothingFound(id: string)
    ensures Find([], id).None?
  {
  }

  lemma MovesRecord(c: Config, e: Event, u: ResultTable, id: string)
    requires TableMoves(c, e, u)
    ensures RecordMoves(c, e, id, Find(c.state.subtaskResults, id), Find(u, id))
  {
    hide Put, Find, DevHalf, ReviewHalf, NotReviewed, SameDevHalf, DevResult, ReviewResult, Accepts;
    var t, r := c.state.subtaskResults, AsResult(e.input);
    var current := if CurrentSubtask(c.state).Some? then CurrentSubtask(c.state).value.taskId else "";
    NothingFound(id);
    if Accepts(c, e) && c.node == DevSubtaskDispatch {
      AcceptedHasCurrent(c, e);
      DevResultHalf(r);
      FindPut(t, current, DevResult(r), id);
    } else if Accepts(c, e) && c.node == DevCodexReview {
      AcceptedHasCurrent(c, e);
      ReviewResultHalf(t, current, r);
      FindPut(t, current, ReviewResult(t, current, r), id);
    }
  }

  lemma AcceptedHasCurrent(c: Config, e: Event)
    requires Accepts(c, e) && (c.node == DevSubtaskDispatch || c.node == DevCodexReview)
    ensures CurrentSubtask(c.state).Some?
  {
    hide Untrustworthy;
  }

  // ----- whole executions -----

  /** The last developer, or reviewer, accepted for the subtask before configuration `n`. */
  function LastDev(cs: seq<Config>, events: seq<Event>, n: nat, id: string): (last: Option<nat>)
    requires n <= |events| && n < |cs|
    ensures last.Some? ==> last.value < n && Develops(cs[last.value], events[last.value], id)
    ensures forall i | (if last.Some? then last.value + 1 else 0) <= i < n :: !Develops(cs[i], events[i], id)
  {
    if n == 0 then None
    else if Develops(cs[n - 1], events[n - 1], id) then Some(n - 1)
    else LastDev(cs, events, n - 1, id)
  }

  function LastReview(cs: seq<Config>, events: seq<Event>, n: nat, id: string): (last: Option<nat>)
    requires n <= |events| && n < |cs|
    ensures last.Some? ==> last.value < n && ReviewsIt(cs[last.value], events[last.value], id)
    ensures forall i | (if last.Some? then last.value + 1 else 0) <= i < n :: !ReviewsIt(cs[i], events[i], id)
  {
    if n == 0 then None
    else if ReviewsIt(cs[n - 1], events[n - 1], id) then Some(n - 1)
    else LastReview(cs, events, n - 1, id)
  }

  /** The record is what its last developer said and, if a review came after that, what the last
      reviewer said; otherwise it carries no review. */
  predicate Told(x: SubtaskResult, dev: Option<nat>, review: Option<nat>, events: seq<Event>)
    requires (dev.Some? ==> dev.value < |events|) && (review.Some? ==> review.value < |events|)
  {
    && dev.Some? && DevHalf(x, AsResult(events[dev.value].input))
    && if review.Some? && review.value > dev.value then ReviewHalf(x, AsResult(events[review.value].input)) else NotReviewed(x)
  }

  /** Before a review runs its subtask has a record. */
  lemma ReviewedHasRecord(base: string, cs: seq<Config>, events: seq<Event>, n: nat, id: string)
    requires Execution(base, cs, events) && n < |events| && ReviewsIt(cs[n], events[n], id)
    ensures Find(cs[n].state.subtaskResults, id).Some?
  {
    ExecutionInv(base, cs, events, n);
    EnteredIsThere(cs[n], id);
  }

  lemma EnteredIsThere(c: Config, id: string)
    requires LoopInv(ControlOf(c)) && c.node == DevCodexReview && IsCurrent(c.state, id)
    ensures Find(c.state.subtaskResults, id).Some?
  {
    var k := ControlOf(c);
    assert PlanIds(c.state.subtasks)[..k.core.index + 1][k.core.index] == id;
    assert id in Ids(c.state.subtaskResults);
  }

  lemma ToldStep(cs: seq<Config>, events: seq<Event>, n: nat, id: string, was: Option<SubtaskResult>, now: Option<SubtaskResult>)
    requires n < |events| && n + 1 < |cs|
    requires was.Some? ==> Told(was.value, LastDev(cs, events, n, id), LastReview(cs, events, n, id), events)
    requires RecordMoves(cs[n], events[n], id, was, now)
    requires ReviewsIt(cs[n], events[n], id) ==> was.Some?
    ensures now.Some? ==> Told(now.value, LastDev(cs, events, n + 1, id), LastReview(cs, events, n + 1, id), events)
  {
    hide DevHalf, ReviewHalf, NotReviewed, Accepts, IsCurrent;
    if ReviewsIt(cs[n], events[n], id) && !Develops(cs[n], events[n], id) {
      var i := LastDev(cs, events, n, id).value;
      assert DevHalf(now.value, AsResult(events[i].input)) by {
        SameHalf(now.value, was.value, AsResult(events[i].input));
      }
    }
  }

  lemma SameHalf(x: SubtaskResult, y: SubtaskResult, r: SubagentResult)
    requires SameDevHalf(x, y) && DevHalf(y, r)
    ensures DevHalf(x, r)
  {
  }

  lemma EndedMovesNothing(c: Config, e: Event, id: string, x: Option<SubtaskResult>)
    requires c.node == End
    ensures RecordMoves(c, e, id, x, x)
  {
  }

  lemma RecordStep(base: string, c: Config, e: Event, id: string)
    ensures RecordMoves(c, e, id, Find(c.state.subtaskResults, id), Find(Step(base, c, e).state.subtaskResults, id))
  {
    hide Find, RunNode, TableMoves, RecordMoves;
    if c.node == End {
      EndedMovesNothing(c, e, id, Find(c.state.subtaskResults, id));
    } else {
      RunTable(base, c, e);
      MovesRecord(c, e, RunNode(base, c.node, c.state, e).subtaskResults, id);
    }
  }

  lemma StartsEmpty(base: string, cs: seq<Config>, events: seq<Event>, id: string)
    requires Execution(base, cs, events)
    ensures |cs| == |events| + 1 && Find(cs[0].state.subtaskResults, id).None?
  {
  }

  /** The history of a subtask is kept verbatim: in every reachable state its record, if there is
      one, is what the last accepted developer and the last accepted reviewer after that said. */
  lemma {:induction false} SubtaskTruth(base: string, cs: seq<Config>, events: seq<Event>, n: nat, id: string)
    requires Execution(base, cs, events) && n < |cs|
    ensures n <= |events|
    ensures Find(cs[n].state.subtaskResults, id).Some? ==>
      Told(Find(cs[n].state.subtaskResults, id).value, LastDev(cs, events, n, id), LastReview(cs, events, n, id), events)
  {
    hide *;
    StartsEmpty(base, cs, events, id);
    if n > 0 {
      SubtaskTruth(base, cs, events, n - 1, id);
      ExecutionStep(base, cs, events, n - 1);
      RecordStep(base, cs[n - 1], events[n - 1], id);
      if ReviewsIt(cs[n - 1], events[n - 1], id) {
        ReviewedHasRecord(base, cs, events, n - 1, id);
      }
      ToldStep(cs, events, n - 1, id, Find(cs[n - 1].state.subtaskResults, id), Find(cs[n].state.subtaskResults, id));
    }
  }

  // ----- when a subtask has a record -----

  /** The record empties the table: a new plan, or a rollback to DEV. */
  predicate Clears(note: Note) {
    note.PlanningSurfaced? || note.PlanningDispatch? || (note.GateRolledBack? && note.target == DEV_PHASE)
  }

  /** Record `i` is an accepted developer of the subtask, and the table has not been emptied since. */
  predicate StartedAt(log: seq<LogRecord>, i: nat, id: string) {
    && i < |log| && log[i].note.DevDispatched? && log[i].note.taskId == id
    && forall j | i < j < |log| :: !Clears(log[j].note)
  }

  lemma StartedNext(log: seq<LogRecord>, rec: LogRecord, id: string)
    ensures (exists i: nat :: StartedAt(log + [rec], i, id))
      <==> (rec.note.DevDispatched? && rec.note.taskId == id) || (!Clears(rec.note) && exists i: nat :: StartedAt(log, i, id))
  {
    var more := log + [rec];
    assert more[|log|] == rec && forall j | 0 <= j < |log| :: more[j] == log[j];
    if rec.note.DevDispatched? && rec.note.taskId == id {
      assert StartedAt(more, |log|, id);
    }
    if !Clears(rec.note) {
      if i: nat :| StartedAt(log, i, id) {
        assert StartedAt(more, i, id);
      }
    }
    if i: nat :| StartedAt(more, i, id) && i < |log| {
      assert StartedAt(log, i, id);
    }
  }

  lemma EnteredNext(k: Control, rec: LogRecord, k': Control, id: string)
    requires LoopInv(k) && Linked(k, rec, k')
    ensures id in k'.entered
      <==> (rec.note.DevDispatched? && rec.note.taskId == id) || (!Clears(rec.note) && id in k.entered)
  {
    hide GuardRetryKey, SevereIds;
    if rec.note.Reviewed? {
      assert k.plan[..k.core.index + 1][k.core.index] == rec.note.taskId;
    }
  }

  lemma NothingStarted(id: string)
    ensures CONTROL_START.entered == [] && !exists i: nat :: StartedAt([], i, id)
  {
  }

  lemma {:induction false} EnteredIff(ks: seq<Control>, log: seq<LogRecord>, n: nat, id: string)
    requires Trace(ks, log) && n <= |log|
    ensures n < |ks|
    ensures id in ks[n].entered <==> exists i: nat :: StartedAt(log[..n], i, id)
  {
    hide *;
    TraceStart(ks, log);
    if n == 0 {
      NothingStarted(id);
      assert log[..0] == [];
    } else {
      EnteredIff(ks, log, n - 1, id);
      TraceStep(ks, log, n - 1);
      EnteredNext(ks[n - 1], log[n - 1], ks[n], id);
      StartedNext(log[..n - 1], log[n - 1], id);
      assert log[..n] == log[..n - 1] + [log[n - 1]];
    }
  }

  /** A subtask has a record exactly if a developer was accepted for it since the table was last
      emptied. */
  lemma RecordExistsIff(base: string, cs: seq<Config>, events: seq<Event>, n: nat, id: string)
    requires Execution(base, cs, events) && n < |cs|
    ensures Find(cs[n].state.subtaskResults, id).Some? <==> exists i: nat :: StartedAt(cs[n].state.stageLog, i, id)
  {
    ExecutionFollows(base, cs, events, n);
    var log := cs[n].state.stageLog;
    EnteredIff(Controls(cs, |log|), log, |log|, id);
    assert log[..|log|] == log;
    hide Find, StartedAt;
  }

  // ----- at Gate 2 -----

  lemma ToldWithReview(x: SubtaskResult, dev: Option<nat>, review: Option<nat>, events: seq<Event>)
    requires (dev.Some? ==> dev.value < |events|) && (review.Some? ==> review.value < |events|)
    requires Told(x, dev, review, events) && x.codexStatus != ""
    ensures dev.Some? && review.Some? && dev.value < review.value
    ensures DevHalf(x, AsResult(events[dev.value].input)) && ReviewHalf(x, AsResult(events[review.value].input))
  {
  }

  lemma MatchedIsReviewed(t: ResultTable, reviews: seq<(string, bool)>, id: string)
    requires Matches(t, reviews) && |reviews| == |t| && id in Ids(t)
    ensures Find(t, id).Some? && Find(t, id).value.codexStatus != ""
  {
    var x := Find(t, id).value;
    var k :| 0 <= k < |t| && t[k] == (id, x);
    assert t[k].1.codexStatus != "";
  }

  /** From Gate 2 on the record of every planned subtask is complete: its reasons and verdict are those
      of the reviewer who was last accepted for it, after the developer who was. */
  lemma ReviewedFromGateTwo(base: string, cs: seq<Config>, events: seq<Event>, n: nat, id: string)
    requires Execution(base, cs, events) && n < |cs| && n <= |events| && id in PlanIds(cs[n].state.subtasks)
    requires cs[n].node == Gate2 || cs[n].node == RevDispatch || cs[n].node == RevCodexFinal || cs[n].node == Gate3
    ensures
      var x := Find(cs[n].state.subtaskResults, id);
      var dev, review := LastDev(cs, events, n, id), LastReview(cs, events, n, id);
      && x.Some? && dev.Some? && review.Some? && dev.value < review.value
      && DevHalf(x.value, AsResult(events[dev.value].input)) && ReviewHalf(x.value, AsResult(events[review.value].input))
  {
    ResultsAreThePlan(base, cs, events, n);
    SubtaskTruth(base, cs, events, n, id);
    hide *;
    var t := cs[n].state.subtaskResults;
    MatchedIsReviewed(t, Reviews(cs[n].state.stageLog), id);
    ToldWithReview(Find(t, id).value, LastDev(cs, events, n, id), LastReview(cs, events, n, id), events);
  }
}
