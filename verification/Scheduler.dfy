/** The objects of one daemon process: the registry of cancelable contexts, and the scheduler with
    its count of running tasks per agent. Statements and goroutines run one after the other here;
    their interleaving is the subject of module Protocol. */
module Scheduler {
  import opened Basics
  import opened TaskQueue

  /** A context is represented by whether it has been canceled. */
  class Context {
    var canceled: bool

    constructor (parent: bool)
      ensures canceled == parent
    {
      canceled := parent;
    }
  }

  lemma SizeWith<V>(m: map<int, V>, id: int, v: V)
    ensures |m[id := v]| == |m| + if id in m then 0 else 1
  {
    if id in m {
      assert m[id := v].Keys == m.Keys;
    } else {
      assert m[id := v].Keys == m.Keys + {id};
    }
  }

  lemma SizeWithout<V>(m: map<int, V>, id: int)
    ensures |m - {id}| == |m| - if id in m then 1 else 0
  {
    assert (m - {id}).Keys == m.Keys - {id};
  }

  lemma AddThenRemove<V>(m: map<int, V>, id: int, v: V)
    ensures m[id := v] - {id} == m - {id}
  {
  }

  class Manager {
    var cancels: map<int, Context>

    constructor ()
      ensures cancels == map[]
    {
      cancels := map[];
    }

    /** Derives a context for the task and registers it, in place of any earlier one. */
    method Start(parent: bool, id: int) returns (ctx: Context)
      modifies this
      ensures fresh(ctx) && ctx.canceled == parent
      ensures cancels == old(cancels)[id := ctx]
      ensures |cancels| == |old(cancels)| + if id in old(cancels) then 0 else 1
    {
      ctx := new Context(parent);
      SizeWith(cancels, id, ctx);
      cancels := cancels[id := ctx];
    }

    /** The function Start returns: forgets the task and releases its context. */
    method Finish(id: int, ctx: Context)
      modifies this, ctx
      ensures cancels == old(cancels) - {id}
      ensures |cancels| == |old(cancels)| - if id in old(cancels) then 1 else 0
      ensures ctx.canceled
    {
      SizeWithout(cancels, id);
      cancels := cancels - {id};
      ctx.canceled := true;
    }

    /** Cancels the task if it runs on this daemon; no other context is touched. */
    method Cancel(id: int) returns (found: bool)
      modifies if id in cancels then {cancels[id]} else {}
      ensures found == (id in cancels)
      ensures found ==> cancels[id].canceled
    {
      found := id in cancels;
      if found {
        cancels[id].canceled := true;
      }
    }
  }

  datatype Agent = Agent(id: int, max: int)

  /** A started goroutine: the task it executes and the agent it counts for. */
  datatype Launch = Launch(task: int, agent: int)

  function CountFor(agent: int, ls: seq<Launch>): nat {
    if ls == [] then 0
    else CountFor(agent, ls[..|ls| - 1]) + if ls[|ls| - 1].agent == agent then 1 else 0
  }

  /** The rows of `t` after the claims behind `ls`, which took distinct pending rows. */
  predicate ClaimedBy(t: Table, u: Table, worker: string, now: int, ls: seq<Launch>) {
    && u.Keys == t.Keys
    && (forall i, j | 0 <= i < j < |ls| :: ls[i].task != ls[j].task)
    && (forall i | 0 <= i < |ls| ::
         && Claimable(t, {ls[i].agent}, ls[i].task)
         && u[ls[i].task] == ClaimedRow(t[ls[i].task], worker, now))
    && (forall id | id in t && (forall i | 0 <= i < |ls| :: ls[i].task != id) :: u[id] == t[id])
  }

  /** No claim took a row that an earlier one should have taken first. */
  predicate InOrder(t: Table, ls: seq<Launch>) {
    forall i, j | 0 <= i < j < |ls| && ls[i].task in t && ls[j].task in t :: NotAfter(t[ls[i].task], t[ls[j].task])
  }

  /** What is still pending comes after what was claimed. */
  predicate RestAfter(t: Table, u: Table, agent: int, ls: seq<Launch>) {
    forall i, j | 0 <= i < |ls| && ls[i].task in t && j in t && j in u && Claimable(u, {agent}, j) ::
      NotAfter(t[ls[i].task], t[j])
  }

  predicate DistinctIds(agents: seq<Agent>) { forall i, j | 0 <= i < j < |agents| :: agents[i].id != agents[j].id }

  lemma NoneInOrder(t: Table, agent: int)
    ensures InOrder(t, []) && RestAfter(t, t, agent, [])
  {
  }

  lemma NoClaims(t: Table, worker: string, now: int)
    ensures ClaimedBy(t, t, worker, now, []) && forall b :: CountFor(b, []) == 0
  {
  }

  lemma ClaimedByMore(t: Table, u: Table, worker: string, now: int, ls: seq<Launch>, agent: int, id: int)
    requires ClaimedBy(t, u, worker, now, ls) && Claimable(u, {agent}, id)
    ensures ClaimedBy(t, u[id := ClaimedRow(u[id], worker, now)], worker, now, ls + [Launch(id, agent)])
  {
    var ms := ls + [Launch(id, agent)];
    var v := u[id := ClaimedRow(u[id], worker, now)];
    forall i | 0 <= i < |ls| ensures ls[i].task != id {
      assert u[ls[i].task].status == Claimed;
    }
    assert u[id] == t[id];
    forall j | j in t && (forall i | 0 <= i < |ms| :: ms[i].task != j) ensures v[j] == t[j] {
      assert ms[|ls|].task != j;
      forall i | 0 <= i < |ls| ensures ls[i].task != j {
        assert ms[i].task != j;
      }
    }
  }

  lemma InOrderMore(t: Table, u: Table, worker: string, now: int, ls: seq<Launch>, agent: int, id: int)
    requires ClaimedBy(t, u, worker, now, ls) && InOrder(t, ls) && RestAfter(t, u, agent, ls)
    requires Next(u, {agent}, {}, id)
    ensures var ms := ls + [Launch(id, agent)];
      InOrder(t, ms) && RestAfter(t, u[id := ClaimedRow(u[id], worker, now)], agent, ms)
  {
    var ms := ls + [Launch(id, agent)];
    var v := u[id := ClaimedRow(u[id], worker, now)];
    forall j | j in u && Claimable(u, {agent}, j) ensures t[j] == u[j] {
      forall i | 0 <= i < |ls| ensures ls[i].task != j {
        assert u[ls[i].task].status == Claimed;
      }
    }
    forall i, j | 0 <= i < |ms| && ms[i].task in t && j in t && j in v && Claimable(v, {agent}, j)
      ensures NotAfter(t[ms[i].task], t[j])
    {
      assert Claimable(u, {agent}, j);
    }
  }

  lemma ClaimedByThen(t: Table, u: Table, v: Table, worker: string, now: int, ls: seq<Launch>, ms: seq<Launch>)
    requires ClaimedBy(t, u, worker, now, ls) && ClaimedBy(u, v, worker, now, ms)
    ensures ClaimedBy(t, v, worker, now, ls + ms)
  {
    var ns := ls + ms;
    forall i, j | 0 <= i < |ls| && 0 <= j < |ms| ensures ls[i].task != ms[j].task {
      assert u[ls[i].task].status == Claimed && u[ms[j].task].status == Pending;
    }
    forall j | 0 <= j < |ms| ensures t[ms[j].task] == u[ms[j].task] {}
    forall i | 0 <= i < |ls| ensures v[ls[i].task] == u[ls[i].task] {}
    forall id | id in t && (forall i | 0 <= i < |ns| :: ns[i].task != id) ensures v[id] == t[id] {
      forall i | 0 <= i < |ls| ensures ls[i].task != id { assert ns[i] == ls[i]; }
      forall i | 0 <= i < |ms| ensures ms[i].task != id { assert ns[|ls| + i] == ms[i]; }
    }
  }

  lemma StillNothing(t: Table, u: Table, worker: string, now: int, ls: seq<Launch>, agent: int)
    requires ClaimedBy(t, u, worker, now, ls) && NothingToClaim(t, {agent}, {})
    ensures NothingToClaim(u, {agent}, {})
  {
    forall id | id in u ensures !Claimable(u, {agent}, id) {
      if i :| 0 <= i < |ls| && ls[i].task == id {
        assert u[ls[i].task].status == Claimed;
      } else {
        assert u[id] == t[id];
      }
    }
  }

  lemma {:induction false} CountForMore(agent: int, ls: seq<Launch>, ms: seq<Launch>)
    ensures CountFor(agent, ls + ms) == CountFor(agent, ls) + CountFor(agent, ms)
    decreases |ms|
  {
    if ms == [] {
      assert ls + ms == ls;
    } else {
      assert (ls + ms)[..|ls + ms| - 1] == ls + ms[..|ms| - 1];
      CountForMore(agent, ls, ms[..|ms| - 1]);
    }
  }

  lemma {:induction false} CountForOne(agent: int, a: int, ls: seq<Launch>)
    requires forall i | 0 <= i < |ls| :: ls[i].agent == a
    ensures CountFor(agent, ls) == if agent == a then |ls| else 0
    decreases |ls|
  {
    if ls != [] {
      CountForOne(agent, a, ls[..|ls| - 1]);
    }
  }

  /** One more agent's claims behind those of the agents before it. */
  lemma TickMore(t: Table, u: Table, v: Table, worker: string, now: int, ls: seq<Launch>, ms: seq<Launch>, a: int)
    requires ClaimedBy(t, u, worker, now, ls) && ClaimedBy(u, v, worker, now, ms)
    requires forall i | 0 <= i < |ms| :: ms[i].agent == a
    ensures ClaimedBy(t, v, worker, now, ls + ms)
    ensures forall b :: CountFor(b, ls + ms) == CountFor(b, ls) + if b == a then |ms| else 0
    ensures forall b :: NothingToClaim(u, {b}, {}) ==> NothingToClaim(v, {b}, {})
  {
    ClaimedByThen(t, u, v, worker, now, ls, ms);
    forall b ensures CountFor(b, ls + ms) == CountFor(b, ls) + if b == a then |ms| else 0 {
      CountForMore(b, ls, ms);
      CountForOne(b, a, ms);
    }
    forall b | NothingToClaim(u, {b}, {}) ensures NothingToClaim(v, {b}, {}) {
      StillNothing(u, v, worker, now, ms, b);
    }
  }

  class Daemon {
    const queue: Queue
    const manager: Manager
    const worker: string
    var inflight: map<int, nat>
    var launched: seq<Launch>

    constructor (queue: Queue, manager: Manager, worker: string)
      ensures this.queue == queue && this.manager == manager && this.worker == worker
      ensures inflight == map[] && launched == []
    {
      this.queue, this.manager, this.worker := queue, manager, worker;
      inflight, launched := map[], [];
    }

    function InflightCount(agent: int): nat
      reads this
    {
      if agent in inflight then inflight[agent] else 0
    }

    method AddInflight(agent: int)
      modifies this`inflight
      ensures inflight == old(inflight)[agent := old(InflightCount(agent)) + 1]
    {
      inflight := inflight[agent := InflightCount(agent) + 1];
    }

    /** Never goes below zero. */
    method RemoveInflight(agent: int)
      modifies this`inflight
      ensures old(InflightCount(agent)) > 0 ==> inflight == old(inflight)[agent := old(InflightCount(agent)) - 1]
      ensures old(InflightCount(agent)) == 0 ==> inflight == old(inflight)
    {
      if InflightCount(agent) > 0 {
        inflight := inflight[agent := InflightCount(agent) - 1];
      }
    }

    /** Claims and launches for one agent until its free slots or its pending rows run out. */
    method TickAgent(a: Agent, now: int)
      requires queue.Valid()
      modifies this, queue`rows
      ensures queue.Valid()
      ensures |old(launched)| <= |launched| && launched[..|old(launched)|] == old(launched)
      ensures var ls := launched[|old(launched)|..];
        && (forall i | 0 <= i < |ls| :: ls[i].agent == a.id)
        && ClaimedBy(old(queue.rows), queue.rows, worker, now, ls)
        && InOrder(old(queue.rows), ls) && RestAfter(old(queue.rows), queue.rows, a.id, ls)
        && InflightCount(a.id) == old(InflightCount(a.id)) + |ls|
      ensures forall b | b != a.id :: InflightCount(b) == old(InflightCount(b))
      ensures InflightCount(a.id) <= a.max || InflightCount(a.id) == old(InflightCount(a.id))
      ensures InflightCount(a.id) >= a.max || NothingToClaim(queue.rows, {a.id}, {})
    {
      hide ClaimedBy, InOrder, RestAfter, NothingToClaim;
      var free := a.max - InflightCount(a.id);
      var i := 0;
      ghost var ls: seq<Launch> := [];
      NoClaims(queue.rows, worker, now);
      NoneInOrder(queue.rows, a.id);
      while i < free
        invariant queue.Valid()
        invariant 0 <= i == |ls| && (i <= free || i == 0)
        invariant launched == old(launched) + ls
        invariant forall k | 0 <= k < |ls| :: ls[k].agent == a.id
        invariant ClaimedBy(old(queue.rows), queue.rows, worker, now, ls)
        invariant InOrder(old(queue.rows), ls) && RestAfter(old(queue.rows), queue.rows, a.id, ls)
        invariant InflightCount(a.id) == old(InflightCount(a.id)) + i
        invariant forall b | b != a.id :: InflightCount(b) == old(InflightCount(b))
      {
        ghost var before := queue.rows;
        var t := queue.Claim(worker, {a.id}, {}, now);
        if t.NoTask? {
          break;
        }
        ClaimedByMore(old(queue.rows), before, worker, now, ls, a.id, t.value);
        InOrderMore(old(queue.rows), before, worker, now, ls, a.id, t.value);
        AddInflight(a.id);
        launched := launched + [Launch(t.value, a.id)];
        ls := ls + [Launch(t.value, a.id)];
        i := i + 1;
      }
      assert launched[|old(launched)|..] == ls;
    }

    /** The agent has its slots full or no pending row left, and no more slots than it may have
        were filled. */
    ghost predicate Served(a: Agent, before: nat)
      reads this, queue
    {
      && (InflightCount(a.id) <= a.max || InflightCount(a.id) == before)
      && (InflightCount(a.id) >= a.max || NothingToClaim(queue.rows, {a.id}, {}))
    }

    /** After a tick every agent has its slots full or no pending row left, and the count of each
        has grown by exactly the goroutines started for it. */
    method Tick(agents: seq<Agent>, now: int)
      requires queue.Valid() && DistinctIds(agents)
      modifies this, queue`rows
      ensures queue.Valid()
      ensures |old(launched)| <= |launched| && launched[..|old(launched)|] == old(launched)
      ensures var ls := launched[|old(launched)|..];
        && ClaimedBy(old(queue.rows), queue.rows, worker, now, ls)
        && (forall b :: InflightCount(b) == old(InflightCount(b)) + CountFor(b, ls))
      ensures forall i | 0 <= i < |agents| :: Served(agents[i], old(InflightCount(agents[i].id)))
    {
      hide ClaimedBy, CountFor, NothingToClaim, Claimable;
      ghost var ls: seq<Launch> := [];
      NoClaims(queue.rows, worker, now);
      for n := 0 to |agents|
        invariant queue.Valid()
        invariant launched == old(launched) + ls
        invariant ClaimedBy(old(queue.rows), queue.rows, worker, now, ls)
        invariant forall b :: InflightCount(b) == old(InflightCount(b)) + CountFor(b, ls)
        invariant forall i | n <= i < |agents| :: InflightCount(agents[i].id) == old(InflightCount(agents[i].id))
        invariant forall i | 0 <= i < n :: Served(agents[i], old(InflightCount(agents[i].id)))
      {
        ghost var rows := queue.rows;
        ghost var before := launched;
        TickAgent(agents[n], now);
        ghost var ms := launched[|before|..];
        TickMore(old(queue.rows), rows, queue.rows, worker, now, ls, ms, agents[n].id);
        assert launched == before + ms;
        ls := ls + ms;
      }
      assert launched[|old(launched)|..] == ls;
    }

    /** The heartbeat goroutine of a task. `beats` are the times at which it reaches the database; the
        first that finds the row flagged, or no longer this worker's, cancels the context and is the
        last. */
    method Heartbeat(id: int, ctx: Context, beats: seq<int>)
      requires queue.Valid() && id in manager.cancels && manager.cancels[id] == ctx
      modifies queue`rows, ctx
      ensures queue.Valid()
      ensures old(ctx.canceled) ==> ctx.canceled && queue.rows == old(queue.rows)
      ensures !old(ctx.canceled) ==> (queue.rows, ctx.canceled) == Refreshed(old(queue.rows), id, worker, beats)
    {
      var k := 0;
      while k < |beats| && !ctx.canceled
        invariant queue.Valid() && 0 <= k <= |beats|
        invariant old(ctx.canceled) ==> ctx.canceled && queue.rows == old(queue.rows)
        invariant !old(ctx.canceled) ==>
          (Refreshed(old(queue.rows), id, worker, beats)
           == if ctx.canceled then (queue.rows, true) else Refreshed(queue.rows, id, worker, beats[k..]))
      {
        var stop := queue.Heartbeat(id, worker, beats[k]);
        if stop {
          var found := manager.Cancel(id);
        }
        k := k + 1;
      }
    }

    /** The switch at the end of an execution: success first, then cancellation, then failure. */
    method WriteResult(id: int, run: RunResult, canceled: bool, now: int)
      requires queue.Valid()
      modifies queue`rows
      ensures queue.Valid()
      ensures queue.rows == Written(old(queue.rows), id, run, canceled, now)
    {
      match run {
        case Succeeded(result) => queue.Complete(id, result, now);
        case Stopped(error, partial) =>
          if canceled {
            queue.Cancel(id, partial, now);
          } else {
            queue.Fail(id, error, partial, now);
          }
      }
    }

    /** One execution from start to end. `canceled` tells whether the context was canceled other than
        by a heartbeat; `marked` and `written` whether the two other statements get through. */
    method Execute(id: int, parent: bool, run: RunResult, canceled: bool, marked: bool, beats: seq<int>, written: bool,
        t0: int, t1: int)
      requires queue.Valid()
      modifies manager, queue`rows
      ensures queue.Valid()
      ensures manager.cancels == old(manager.cancels) - {id}
      ensures queue.rows == Executed(old(queue.rows), id, worker, run, parent, canceled, marked, beats, written, t0, t1)
    {
      hide Refreshed, Marked, Written;
      var ctx := manager.Start(parent, id);
      AddThenRemove(old(manager.cancels), id, ctx);
      if marked {
        queue.MarkRunning(id, t0);
      }
      ghost var u := queue.rows;
      Heartbeat(id, ctx, beats);
      assert (queue.rows, ctx.canceled) == if parent then (u, true) else Refreshed(u, id, worker, beats);
      if canceled {
        ctx.canceled := true;
      }
      if written {
        WriteResult(id, run, ctx.canceled, t1);
      }
      manager.Finish(id, ctx);
    }

    /** Cancels a task that runs here at once; the flag in the table is set in either case, if the
        row can still be canceled. */
    method CancelTask(id: int) returns (r: Outcome<Row>)
      requires queue.Valid()
      modifies queue`rows, manager.cancels.Values
      ensures queue.Valid()
      ensures queue.rows == CancelFlagged(old(queue.rows), id)
      ensures id in manager.cancels ==> manager.cancels[id].canceled
      ensures forall c | c in manager.cancels.Values ::
        c.canceled == (old(c.canceled) || (id in manager.cancels && c == manager.cancels[id]))
      ensures r.Done? <==> id in queue.rows && (id in manager.cancels || !Terminal(queue.rows[id]))
      ensures r.Done? ==> r.value == queue.rows[id]
    {
      var found := manager.Cancel(id);
      r := queue.RequestCancel(id);
      if found {
        r := if id in queue.rows then Done(queue.rows[id]) else NotCancelable;
      }
    }
  }

  /** The table after the heartbeats of a run, and whether one of them said to stop. */
  function Refreshed(t: Table, id: int, worker: string, beats: seq<int>): (Table, bool) {
    if beats == [] then (t, false)
    else if !Mine(t, id, worker) || t[id].cancelRequested then (Beaten(t, id, worker, beats[0]), true)
    else Refreshed(Beaten(t, id, worker, beats[0]), id, worker, beats[1..])
  }

  /** What an execution leaves behind: a statement that does not reach the database is lost. */
  function Executed(t: Table, id: int, worker: string, run: RunResult, parent: bool, canceled: bool, marked: bool,
      beats: seq<int>, written: bool, t0: int, t1: int): Table
  {
    var u := if marked then Marked(t, id, t0) else t;
    var (v, stop) := if parent then (u, false) else Refreshed(u, id, worker, beats);
    if written then Written(v, id, run, parent || canceled || stop, t1) else v
  }

  /** Heartbeats touch only the heartbeat of the worker's own row, and stop a run, if there is any,
      exactly if the row is flagged or in other hands. */
  lemma {:induction false} RefreshedIs(t: Table, id: int, worker: string, beats: seq<int>)
    requires beats != []
    ensures var stop := !Mine(t, id, worker) || t[id].cancelRequested;
      && Refreshed(t, id, worker, beats).1 == stop
      && Refreshed(t, id, worker, beats).0
         == if Mine(t, id, worker) then t[id := t[id].(heartbeatAt := Some(if stop then beats[0] else beats[|beats| - 1]))] else t
    decreases |beats|
  {
    if Mine(t, id, worker) && !t[id].cancelRequested && |beats| > 1 {
      var u := Beaten(t, id, worker, beats[0]);
      RefreshedIs(u, id, worker, beats[1..]);
    }
  }

  /** How an execution of a claimed task ends whose final statement gets through: completed if it
      succeeded; otherwise canceled if its context was, be it by a flag that a heartbeat found, and
      failed if not. No other row is touched. */
  lemma ExecutionEnds(t: Table, id: int, worker: string, run: RunResult, parent: bool, canceled: bool, marked: bool,
      beats: seq<int>, t0: int, t1: int)
    requires id in t && t[id].status == Claimed && t[id].worker == Some(worker)
    ensures var u := Executed(t, id, worker, run, parent, canceled, marked, beats, true, t0, t1);
      var stopped := parent || canceled || (beats != [] && t[id].cancelRequested);
      && u.Keys == t.Keys && (forall j | j in t && j != id :: u[j] == t[j])
      && u[id].status == (if run.Succeeded? then Completed else if stopped then Canceled else Failed)
      && u[id].result == Some(if run.Succeeded? then run.result else run.partial)
      && u[id].error == (if run.Succeeded? || stopped then t[id].error else Some(run.error))
      && u[id].worker == t[id].worker && u[id].attempts == t[id].attempts && u[id].completedAt == Some(t1)
  {
    var u := if marked then Marked(t, id, t0) else t;
    if beats != [] {
      RefreshedIs(u, id, worker, beats);
    }
  }
}
