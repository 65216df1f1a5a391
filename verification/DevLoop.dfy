/** The loops of the graph that build lists, and what the DEV loop hands to Gate 2. */
module DevLoop {
  import opened Basics
  import opened Schema
  import opened Guard
  import opened Workflow
  import opened ControlMachine
  import opened Traces
  import opened Refinement
  import opened Runs
  import opened Approval

  // ----- the planner's subtask plan -----

  /** The loop of `_parse_subtask_plan`. */
  method ParseSubtaskPlan(items: seq<PlanItem>) returns (out: seq<Subtask>)
    ensures out == ParsePlan(items)
  {
    out := [];
    var seen: set<string> := {};
    for i := 0 to |items|
      invariant out == ParsePlan(items[..i])
      invariant forall id :: id in seen <==> Known(out, id)
    {
      assert items[..i + 1][..i] == items[..i];
      if items[i].BadItem? {
        continue;
      }
      var tid := Strip(items[i].taskId);
      if tid == "" || tid in seen {
        continue;
      }
      seen := seen + {tid};
      ghost var before := out;
      out := out + [Subtask(tid, items[i].title, items[i].description)];
      assert forall id :: Known(out, id) <==> Known(before, id) || id == tid by {
        assert forall k | 0 <= k < |before| :: out[k] == before[k];
        assert out[|before|].taskId == tid;
      }
    }
    assert items[..|items|] == items;
  }

  predicate Usable(item: PlanItem, id: string) {
    item.PlanItem? && id != "" && Strip(item.taskId) == id
  }

  /** An id is planned exactly when some item carries it, and what is planned for it is what the
      first such item says. */
  lemma {:induction false} PlanIsFirstOccurrences(items: seq<PlanItem>, id: string)
    ensures Known(ParsePlan(items), id) <==> exists i :: 0 <= i < |items| && Usable(items[i], id)
    ensures forall k | 0 <= k < |ParsePlan(items)| && ParsePlan(items)[k].taskId == id ::
      exists i :: 0 <= i < |items| && Usable(items[i], id)
        && ParsePlan(items)[k] == Subtask(id, items[i].title, items[i].description)
        && forall j | 0 <= j < i :: !Usable(items[j], id)
  {
    if items != [] {
      var n := |items| - 1;
      var past, plan := items[..n], ParsePlan(items);
      PlanIsFirstOccurrences(past, id);
      assert forall j | 0 <= j < n :: past[j] == items[j];
      var kept := ParsePlan(past);
      if plan != kept {
        assert plan == kept + [Subtask(Strip(items[n].taskId), items[n].title, items[n].description)];
        if Known(kept, id) {
          var k :| 0 <= k < |kept| && kept[k].taskId == id;
          assert plan[k] == kept[k];
        }
        if Usable(items[n], id) {
          assert plan[|kept|].taskId == id;
        }
      }
    }
  }

  /** Item `i` is the first that carries the id. */
  predicate FirstUse(items: seq<PlanItem>, i: nat, id: string) {
    i < |items| && Usable(items[i], id) && forall j | 0 <= j < i :: !Usable(items[j], id)
  }

  lemma FirstUseStays(items: seq<PlanItem>, n: nat, i: nat, id: string)
    requires n <= |items| && FirstUse(items[..n], i, id)
    ensures FirstUse(items, i, id)
  {
    assert forall j | 0 <= j < n :: items[..n][j] == items[j];
  }

  lemma PlannedHasFirstUse(items: seq<PlanItem>, k: nat) returns (i: nat)
    requires k < |ParsePlan(items)|
    ensures FirstUse(items, i, ParsePlan(items)[k].taskId)
  {
    var id := ParsePlan(items)[k].taskId;
    PlanIsFirstOccurrences(items, id);
    i :| 0 <= i < |items| && Usable(items[i], id) && forall j | 0 <= j < i :: !Usable(items[j], id);
  }

  /** What the last item adds to the plan was in no item before it. */
  lemma LastIsFirstUse(items: seq<PlanItem>)
    requires items != [] && ParsePlan(items) != ParsePlan(items[..|items| - 1])
    ensures var n := |items| - 1;
      var kept, plan := ParsePlan(items[..n]), ParsePlan(items);
      |plan| == |kept| + 1 && plan[..|kept|] == kept && FirstUse(items, n, plan[|kept|].taskId)
  {
    var n := |items| - 1;
    var id := Strip(items[n].taskId);
    PlanIsFirstOccurrences(items[..n], id);
    forall j | 0 <= j < n ensures !Usable(items[j], id) {
      assert items[..n][j] == items[j];
    }
  }

  /** The plan keeps the order of the items: an id stands before another exactly as their first
      items do. */
  lemma {:induction false} PlanIsInOrder(items: seq<PlanItem>, k: nat, l: nat) returns (i: nat, j: nat)
    requires k < l < |ParsePlan(items)|
    ensures i < j && FirstUse(items, i, ParsePlan(items)[k].taskId) && FirstUse(items, j, ParsePlan(items)[l].taskId)
  {
    var n := |items| - 1;
    var kept := ParsePlan(items[..n]);
    if ParsePlan(items) != kept {
      LastIsFirstUse(items);
    }
    hide FirstUse, Usable;
    if l < |kept| {
      i, j := PlanIsInOrder(items[..n], k, l);
      FirstUseStays(items, n, i, kept[k].taskId);
      FirstUseStays(items, n, j, kept[l].taskId);
    } else {
      i := PlannedHasFirstUse(items[..n], k);
      FirstUseIsIndex(items[..n], i, kept[k].taskId);
      FirstUseStays(items, n, i, kept[k].taskId);
      j := n;
    }
  }

  lemma FirstUseIsIndex(items: seq<PlanItem>, i: nat, id: string)
    requires FirstUse(items, i, id)
    ensures i < |items|
  {
  }

  // ----- open issues -----

  lemma OpenIssuesMore(t: ResultTable, i: nat)
    requires i < |t|
    ensures OpenIssues(t[..i + 1]) == OpenIssues(t[..i]) + IssuesOf(t[i].0, t[i].1)
  {
    assert t[..i + 1][..i] == t[..i];
  }

  /** The loop that collects `open_issues` over the subtask results. */
  method CollectOpenIssues(t: ResultTable) returns (issues: seq<string>)
    ensures issues == OpenIssues(t)
  {
    issues := [];
    assert OpenIssues(t[..0]) == [];
    hide OpenIssues;
    for i := 0 to |t|
      invariant issues == OpenIssues(t[..i])
    {
      var (sid, r) := t[i];
      OpenIssuesMore(t, i);
      if r.reviewPassed {
        continue;
      }
      if r.reviewReasons == [] {
        issues := issues + ["subtask " + sid + " codex review failed (no reasons given)"];
        continue;
      }
      ghost var before, more := issues, IssuesOf(sid, r);
      for j := 0 to |r.reviewReasons|
        invariant issues == before + more[..j]
      {
        OneMore(before, more, j);
        issues := issues + ["subtask " + sid + " codex review failed: " + r.reviewReasons[j]];
      }
    }
    assert t[..|t|] == t;
  }

  /** How many issues one result contributes: none if it passed, else one per reason, at least one. */
  function IssueCount(r: SubtaskResult): nat {
    if r.reviewPassed then 0 else if r.reviewReasons == [] then 1 else |r.reviewReasons|
  }

  function Offset(t: ResultTable, k: nat): nat
    requires k <= |t|
  {
    if k == 0 then 0 else Offset(t, k - 1) + IssueCount(t[k - 1].1)
  }

  function IssueText(id: string, r: SubtaskResult, j: nat): string {
    "subtask " + id + " codex review failed" +
    if j < |r.reviewReasons| then ": " + r.reviewReasons[j] else " (no reasons given)"
  }

  lemma {:induction false} OffsetPrefix(t: ResultTable, n: nat, k: nat)
    requires k <= n <= |t|
    ensures Offset(t[..n], k) == Offset(t, k)
  {
    if k > 0 {
      OffsetPrefix(t, n, k - 1);
    }
  }

  lemma {:induction false} IssuesLength(t: ResultTable)
    ensures |OpenIssues(t)| == Offset(t, |t|)
  {
    if t != [] {
      var n := |t| - 1;
      IssuesLength(t[..n]);
      OffsetPrefix(t, n, n);
    }
  }

  lemma {:induction false} BlockAt(t: ResultTable, k: nat)
    requires k < |t|
    ensures Offset(t, k) + |IssuesOf(t[k].0, t[k].1)| <= |OpenIssues(t)|
    ensures OpenIssues(t)[Offset(t, k)..Offset(t, k) + |IssuesOf(t[k].0, t[k].1)|] == IssuesOf(t[k].0, t[k].1)
  {
    hide IssuesOf;
    var n := |t| - 1;
    var past := t[..n];
    IssuesLength(past);
    OffsetPrefix(t, n, n);
    OffsetPrefix(t, n, k);
    assert OpenIssues(t) == OpenIssues(past) + IssuesOf(t[n].0, t[n].1);
    SliceOfSum(OpenIssues(past), IssuesOf(t[n].0, t[n].1));
    if k < n {
      BlockAt(past, k);
    }
  }

  lemma IssueTextIs(id: string, r: SubtaskResult, j: nat)
    requires j < IssueCount(r)
    ensures |IssuesOf(id, r)| == IssueCount(r) && IssuesOf(id, r)[j] == IssueText(id, r, j)
  {
    var head := "subtask " + id + " codex review failed";
    if r.reviewReasons == [] {
      assert head + " (no reasons given)" == "subtask " + id + " codex review failed (no reasons given)";
    } else {
      assert head + (": " + r.reviewReasons[j]) == "subtask " + id + " codex review failed: " + r.reviewReasons[j];
    }
  }

  /** None lost, none merged, none invented: the list is as long as the failing reviews have
      reasons (a reasonless one counting as one), and the j-th reason of the k-th result sits at
      its own place, word for word. */
  lemma IssuesAreKept(t: ResultTable, k: nat, j: nat)
    requires k < |t| && j < IssueCount(t[k].1)
    ensures |OpenIssues(t)| == Offset(t, |t|)
    ensures Offset(t, k) + j < |OpenIssues(t)| && OpenIssues(t)[Offset(t, k) + j] == IssueText(t[k].0, t[k].1, j)
  {
    hide *;
    IssuesLength(t);
    BlockAt(t, k);
    IssueTextIs(t[k].0, t[k].1, j);
    var block := OpenIssues(t)[Offset(t, k)..Offset(t, k) + |IssuesOf(t[k].0, t[k].1)|];
    assert block[j] == OpenIssues(t)[Offset(t, k) + j];
  }

  // ----- what the log says about the results -----

  /** The verdicts in the table are those of the reviews in the log, in the same order, and each
      reviewed record carries what a reviewer said. */
  predicate Matches(t: ResultTable, reviews: seq<(string, bool)>) {
    && |reviews| <= |t|
    && forall i | 0 <= i < |reviews| ::
      t[i].0 == reviews[i].0 && t[i].1.reviewPassed == reviews[i].1 && t[i].1.codexStatus != ""
  }

  predicate AfterPlanning(k: Core) {
    InDev(k.node) || k.node.Gate2? || k.node.RevDispatch? || k.node.RevCodexFinal? || k.node.Gate3?
    || (k.node == End && k.stage == DONE)
  }

  lemma ReviewsNext(log: seq<LogRecord>, rec: LogRecord)
    ensures Reviews(log + [rec]) ==
      if EntersDev(rec.note) then []
      else if rec.note.Reviewed? then Reviews(log) + [(rec.note.taskId, rec.note.passed)]
      else Reviews(log)
  {
    assert (log + [rec])[..|log|] == log;
  }

  lemma {:induction false} PutAt(t: ResultTable, id: string, x: SubtaskResult, k: nat)
    requires Distinct(Ids(t)) && k < |t| && t[k].0 == id
    ensures Put(t, id, x) == t[k := (id, x)]
  {
    assert Ids(t)[0] == t[0].0 && Ids(t)[k] == id;
    if k > 0 {
      assert Ids(t[1..]) == Ids(t)[1..];
      PutAt(t[1..], id, x, k - 1);
    }
  }

  lemma MatchesStep(k: Control, t: ResultTable, log: seq<LogRecord>, rec: LogRecord, k': Control, t': ResultTable)
    requires LoopInv(k) && LogInv(k, log) && Linked(k, rec, k') && Tabled(t, rec.note, t')
    requires Ids(t) == k.entered
    requires AfterPlanning(k.core) ==> Matches(t, Reviews(log))
    requires AfterPlanning(k'.core)
    ensures Matches(t', Reviews(log + [rec]))
  {
    hide LoopInv, LogInv, Linked;
    ReviewsNext(log, rec);
    StaysAfterPlanning(k, rec, k');
    if rec.note.Reviewed? {
      AtReview(k, t, log, rec, k');
      MatchesReview(t, Reviews(log), rec.note.taskId, rec.note.passed, t');
    } else if rec.note.DevDispatched? {
      AtDispatch(k, rec, k');
      var x: SubtaskResult :| t' == Put(t, rec.note.taskId, x);
      MatchesPut(t, Reviews(log), rec.note.taskId, x);
    } else if !EntersDev(rec.note) {
      assert t' == t;
    }
  }

  /** The only ways into the part of a run where reviews count. */
  lemma EntersAt(k: Control, rec: LogRecord, k': Control)
    requires Linked(k, rec, k') && AfterPlanning(k'.core) && !AfterPlanning(k.core)
    ensures EntersDev(rec.note)
  {
    hide SevereIds, GuardRetryKey, Attempts, Target, LoopNote;
  }

  lemma StaysAfterPlanning(k: Control, rec: LogRecord, k': Control)
    requires Linked(k, rec, k') && AfterPlanning(k'.core)
    ensures EntersDev(rec.note) || AfterPlanning(k.core)
    ensures !rec.note.PlanningSurfaced? && !rec.note.PlanningDispatch?
    ensures rec.note.GateRolledBack? ==> rec.note.target == DEV_PHASE
  {
    if !AfterPlanning(k.core) {
      EntersAt(k, rec, k');
    }
    hide SevereIds, GuardRetryKey, Attempts, Enabled;
  }

  lemma MatchesPut(t: ResultTable, reviews: seq<(string, bool)>, id: string, x: SubtaskResult)
    requires Matches(t, reviews) && id !in Ids(t)
    ensures Matches(Put(t, id, x), reviews)
  {
  }

  lemma MatchesReview(t: ResultTable, reviews: seq<(string, bool)>, id: string, passed: bool, t': ResultTable)
    requires Distinct(Ids(t)) && Matches(t, reviews) && |reviews| < |t| && t[|reviews|].0 == id
    requires Tabled(t, Reviewed(id, passed), t')
    ensures Matches(t', reviews + [(id, passed)])
  {
    var x: SubtaskResult :| x.reviewPassed == passed && x.codexStatus != "" && t' == Put(t, id, x);
    PutAt(t, id, x, |reviews|);
  }

  lemma AtDispatch(k: Control, rec: LogRecord, k': Control)
    requires LoopInv(k) && Linked(k, rec, k') && rec.note.DevDispatched?
    ensures rec.note.taskId !in k.entered && AfterPlanning(k.core)
  {
    assert k.core.node == DevSubtaskDispatch;
  }

  lemma AtReview(k: Control, t: ResultTable, log: seq<LogRecord>, rec: LogRecord, k': Control)
    requires LoopInv(k) && LogInv(k, log) && Linked(k, rec, k') && rec.note.Reviewed?
    requires Ids(t) == k.entered
    ensures Distinct(Ids(t)) && |Reviews(log)| < |t| && t[|Reviews(log)|].0 == rec.note.taskId
    ensures AfterPlanning(k.core)
  {
    assert |ReviewedIds(log)| == |Reviews(log)|;
    assert k.core.node == DevCodexReview;
  }

  lemma {:induction false} ExecutionMatches(base: string, cs: seq<Config>, events: seq<Event>, n: nat)
    requires Execution(base, cs, events) && n < |cs|
    ensures AfterPlanning(ControlOf(cs[n]).core) ==> Matches(cs[n].state.subtaskResults, Reviews(cs[n].state.stageLog))
  {
    hide RunNode, Route, Matches, Reviews, PlanIds, Ids;
    if n > 0 {
      ExecutionMatches(base, cs, events, n - 1);
      if cs[n - 1].node == End {
        assert cs[n] == Step(base, cs[n - 1], events[n - 1]);
      } else {
        NextMatches(base, cs, events, n - 1);
      }
    }
  }

  lemma NextMatches(base: string, cs: seq<Config>, events: seq<Event>, n: nat)
    requires Execution(base, cs, events) && n < |events| && cs[n].node != End
    requires AfterPlanning(ControlOf(cs[n]).core) ==> Matches(cs[n].state.subtaskResults, Reviews(cs[n].state.stageLog))
    ensures AfterPlanning(ControlOf(cs[n + 1]).core) ==>
              Matches(cs[n + 1].state.subtaskResults, Reviews(cs[n + 1].state.stageLog))
  {
    hide Matches, Reviews, AfterPlanning, LogInv;
    var rec := ExecutionExplains(base, cs, events, n);
    ExecutionFollows(base, cs, events, n);
    var (s, s') := (cs[n].state, cs[n + 1].state);
    TraceKeepsLogInv(Controls(cs, n), s.stageLog, n);
    assert s.stageLog[..n] == s.stageLog;
    if AfterPlanning(ControlOf(cs[n + 1]).core) {
      MatchesStep(ControlOf(cs[n]), s.subtaskResults, s.stageLog, rec, ControlOf(cs[n + 1]), s'.subtaskResults);
    }
  }

  // ----- Gate 2 -----

  /** Inside DEV there is always a current subtask, so the fallback branches never run. */
  lemma CurrentSubtaskExists(base: string, cs: seq<Config>, events: seq<Event>, n: nat)
    requires Execution(base, cs, events) && n < |cs|
    requires cs[n].node == DevSubtaskDispatch || cs[n].node == DevCodexReview
    ensures CurrentSubtask(cs[n].state).Some?
    ensures Ids(cs[n].state.subtaskResults) ==
            PlanIds(cs[n].state.subtasks)[..cs[n].state.subtaskIndex + if cs[n].node == DevCodexReview then 1 else 0]
  {
    ExecutionInv(base, cs, events, n);
  }

  /** In DEV the index is one less than the number of results, except while a developer runs: then the
      result of the subtask itself is not there yet. */
  lemma IndexCountsResultsIff(base: string, cs: seq<Config>, events: seq<Event>, n: nat)
    requires Execution(base, cs, events) && n < |cs| && InDev(cs[n].node)
    ensures cs[n].state.subtaskIndex == |cs[n].state.subtaskResults| - 1 <==> cs[n].node != DevSubtaskDispatch
  {
    ExecutionInv(base, cs, events, n);
    assert |Ids(cs[n].state.subtaskResults)| == |cs[n].state.subtaskResults|;
  }

  lemma BlockedAt(k: Control, rec: LogRecord, k': Control)
    requires Inv(k) && Linked(k, rec, k') && k'.core.stage == BLOCKED
    ensures k'.core.index == -1 <==> !(rec.note.GuardBlocked? && rec.stage == DEV_PHASE)
  {
    hide PendingInv, BudgetInv, CountInv, SevereIds, GuardRetryKey, Options;
  }

  /** When the workflow is blocked the index is reset, except if the guard blocked it in DEV. */
  lemma BlockedIndexIff(base: string, cs: seq<Config>, events: seq<Event>, n: nat)
    requires Execution(base, cs, events) && n < |cs| && cs[n].state.stage == BLOCKED
    ensures cs[n].state.stageLog != []
    ensures
      var last := cs[n].state.stageLog[|cs[n].state.stageLog| - 1];
      cs[n].state.subtaskIndex == -1 <==> !(last.note.GuardBlocked? && last.stage == DEV_PHASE)
  {
    hide Linked, Enabled, Advance, StageInv, LoopInv, PendingInv, BudgetInv, CountInv;
    ExecutionFollows(base, cs, events, n);
    var log := cs[n].state.stageLog;
    var ks := Controls(cs, |log|);
    TraceStart(ks, log);
    TraceStep(ks, log, |log| - 1);
    BlockedAt(ks[|log| - 1], log[|log| - 1], ks[|log|]);
  }

  /** From Gate 2 on exactly the subtasks of the plan have a result and a review, in the plan's
      order, and the verdicts kept are those on record. */
  lemma ResultsAreThePlan(base: string, cs: seq<Config>, events: seq<Event>, n: nat)
    requires Execution(base, cs, events) && n < |cs|
    requires cs[n].node == Gate2 || cs[n].node == RevDispatch || cs[n].node == RevCodexFinal || cs[n].node == Gate3
    ensures
      var s := cs[n].state;
      && Ids(s.subtaskResults) == PlanIds(s.subtasks) == ReviewedIds(s.stageLog)
      && |Reviews(s.stageLog)| == |s.subtaskResults|
      && Matches(s.subtaskResults, Reviews(s.stageLog))
  {
    hide Linked, Execution;
    ExecutionMatches(base, cs, events, n);
    ExecutionFollows(base, cs, events, n);
    TracePlanIsDone(Controls(cs, n), cs[n].state.stageLog);
    assert |ReviewedIds(cs[n].state.stageLog)| == |Reviews(cs[n].state.stageLog)|;
  }

  lemma TracePlanIsDone(ks: seq<Control>, log: seq<LogRecord>)
    requires Trace(ks, log)
    requires Done(ks[|log|]) == Some(|ks[|log|].plan|) && ks[|log|].core.node != DevLoopRouter
    requires !InDev(ks[|log|].core.node)
    ensures ks[|log|].entered == ks[|log|].plan == ReviewedIds(log)
  {
    TraceInv(ks, log, |log|);
    TraceKeepsLogInv(ks, log, |log|);
    assert log[..|log|] == log && ks[|log|].plan[..|ks[|log|].plan|] == ks[|log|].plan;
  }

  /** The ids of the failing reviews, in order. */
  function Failing(reviews: seq<(string, bool)>): seq<string> {
    if reviews == [] then []
    else Failing(reviews[..|reviews| - 1]) + if reviews[|reviews| - 1].1 then [] else [reviews[|reviews| - 1].0]
  }

  function Sentence(id: string): string { "subtask " + id + " codex review failed" }

  function Sentences(ids: seq<string>): (r: seq<string>)
    ensures |r| == |ids| && forall i | 0 <= i < |ids| :: r[i] == Sentence(ids[i])
  {
    seq(|ids|, i requires 0 <= i < |ids| => Sentence(ids[i]))
  }

  lemma {:induction false} ReasonsTell(t: ResultTable, reviews: seq<(string, bool)>)
    requires Matches(t, reviews) && |reviews| == |t|
    ensures FailedReasons(t) == Sentences(Failing(reviews))
    decreases |t|
  {
    if t != [] {
      hide Sentence;
      var n := |t| - 1;
      ReasonsTell(t[..n], reviews[..n]);
      assert t[n].0 == reviews[n].0 && t[n].1.reviewPassed == reviews[n].1;
      SentencesMore(Failing(reviews[..n]), reviews[n].0);
      FailedReasonsMore(t);
    }
  }

  lemma SentencesMore(ids: seq<string>, id: string)
    ensures Sentences(ids + [id]) == Sentences(ids) + [Sentence(id)] && Sentences(ids + []) == Sentences(ids)
  {
    hide Sentence;
    assert ids + [] == ids;
  }

  lemma FailedReasonsMore(t: ResultTable)
    requires t != []
    ensures FailedReasons(t)
      == FailedReasons(t[..|t| - 1]) + if t[|t| - 1].1.reviewPassed then [] else [Sentence(t[|t| - 1].0)]
  {
  }

  /** What Gate 2 is shown, told from the reviews in the log since DEV was entered: it passes if and
      only if all of them passed, its reasons name the failing ones in order, the summary has one line
      for each with its verdict, and the open issues are those of the records. */
  predicate TellsReviews(s: State, reviews: seq<(string, bool)>) {
    && "Gate 2" in s.gateResults && "DEV_PHASE" in s.phaseSummaries
    && s.gateResults["Gate 2"].name == "Gate 2"
    && (s.gateResults["Gate 2"].passed <==> forall i | 0 <= i < |reviews| :: reviews[i].1)
    && s.gateResults["Gate 2"].reasons == Sentences(Failing(reviews))
    && s.phaseSummaries["DEV_PHASE"].openIssues == OpenIssues(s.subtaskResults)
    && s.phaseSummaries["DEV_PHASE"].risks == []
    && s.phaseSummaries["DEV_PHASE"].handoffNote ==
         "DEV done (synthetic); " + Decimal(|s.subtaskResults|) + "/" + Decimal(|s.subtasks|)
         + " subtasks reviewed, all_passed=" + (if s.gateResults["Gate 2"].passed then "True" else "False")
    && |s.phaseSummaries["DEV_PHASE"].decisions| == |reviews| == |s.subtaskResults|
    && forall i | 0 <= i < |reviews| ::
         s.phaseSummaries["DEV_PHASE"].decisions[i] == Line(reviews[i].0, s.subtaskResults[i].1.devStatus, reviews[i].1)
  }

  function Line(id: string, devStatus: string, passed: bool): string {
    "subtask " + id + ": dev_status=" + devStatus + " review_passed=" + if passed then "True" else "False"
  }

  lemma GateTwoTellsTheReviews(base: string, cs: seq<Config>, events: seq<Event>, n: nat)
    requires Execution(base, cs, events) && n < |events|
    requires cs[n].node == DevLoopRouter && cs[n + 1].node == Gate2
    ensures TellsReviews(cs[n + 1].state, Reviews(cs[n + 1].state.stageLog))
  {
    ExecutionInv(base, cs, events, n);
    ResultsAreThePlan(base, cs, events, n + 1);
    StageOfRouter(cs[n]);
    ExecutionStep(base, cs, events, n);
    LoopRuns(base, cs[n], events[n]);
    hide Step, Inv;
    LoopDoneTells(cs[n].state, Reviews(cs[n + 1].state.stageLog));
  }

  lemma StageOfRouter(c: Config)
    requires Inv(ControlOf(c)) && c.node == DevLoopRouter
    ensures c.state.stage == DEV_PHASE
  {
  }

  lemma PassedIff(t: ResultTable, reviews: seq<(string, bool)>)
    requires Matches(t, reviews) && |reviews| == |t|
    ensures AllPassed(t) <==> forall i | 0 <= i < |reviews| :: reviews[i].1
  {
  }

  lemma LoopRuns(base: string, c: Config, e: Event)
    requires c.node == DevLoopRouter && c.state.stage == DEV_PHASE && Step(base, c, e).node == Gate2
    ensures Step(base, c, e).state == DevLoopDone(c.state)
  {
    hide AllPassed, OpenIssues, FailedReasons, DevSummary;
  }

  lemma LoopDoneTells(s: State, reviews: seq<(string, bool)>)
    requires Matches(s.subtaskResults, reviews) && |reviews| == |s.subtaskResults|
    ensures TellsReviews(DevLoopDone(s), reviews)
  {
    hide AllPassed, OpenIssues, FailedReasons, Sentences, Failing;
    PassedIff(s.subtaskResults, reviews);
    ReasonsTell(s.subtaskResults, reviews);
  }
}
