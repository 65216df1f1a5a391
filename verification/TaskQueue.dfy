/** The task table of the server and the statements that change it. Each statement is one atomic
    step; `now` is the database clock at that step. */
module TaskQueue {
  import opened Basics

  datatype Status = Pending | Claimed | Running | Completed | Failed | Canceled

  const HIGH := 1
  const MEDIUM := 2
  const LOW := 3

  datatype Row = Row(
    agent: int,
    status: Status,
    priority: int,
    prompt: string,
    result: Option<string>,
    error: Option<string>,
    worker: Option<string>,
    attempts: nat,
    cancelRequested: bool,
    createdAt: int,
    claimedAt: Option<int>,
    startedAt: Option<int>,
    heartbeatAt: Option<int>,
    completedAt: Option<int>)

  type Table = map<int, Row>

  /** Status `claimed` or `running`: some worker owns the row. */
  predicate Owned(r: Row) { r.status == Claimed || r.status == Running }

  predicate Terminal(r: Row) { r.status == Completed || r.status == Failed || r.status == Canceled }

  // ----- the statements as functions on one row -----

  function NewRow(agent: int, prompt: string, priority: int, now: int): Row {
    Row(agent, Pending, if priority < HIGH || priority > LOW then MEDIUM else priority, prompt,
      None, None, None, 0, false, now, None, None, None, None)
  }

  function ClaimedRow(r: Row, worker: string, now: int): Row {
    r.(status := Claimed, worker := Some(worker), attempts := r.attempts + 1, claimedAt := Some(now), heartbeatAt := Some(now))
  }

  function RunningRow(r: Row, now: int): Row {
    r.(status := Running, startedAt := Some(now), heartbeatAt := Some(now))
  }

  /** How a run ended: with a result, or with an error and a partial result. */
  datatype RunResult = Succeeded(result: string) | Stopped(error: string, partial: string)

  function CompletedRow(r: Row, result: string, now: int): Row {
    r.(status := Completed, result := Some(result), completedAt := Some(now))
  }

  function FailedRow(r: Row, error: string, partial: string, now: int): Row {
    r.(status := Failed, error := Some(error), result := Some(partial), completedAt := Some(now))
  }

  function CanceledRow(r: Row, partial: string, now: int): Row {
    r.(status := Canceled, result := Some(partial), completedAt := Some(now))
  }

  /** The terminal write: the result decides first, then whether the context was canceled. */
  function FinalRow(r: Row, run: RunResult, canceled: bool, now: int): Row {
    match run
    case Succeeded(result) => CompletedRow(r, result, now)
    case Stopped(error, partial) => if canceled then CanceledRow(r, partial, now) else FailedRow(r, error, partial, now)
  }

  /** Owned, and the last heartbeat is older than the timeout: the row recovery takes back. */
  predicate Orphaned(r: Row, now: int, timeout: int) {
    Owned(r) && (r.heartbeatAt.None? || r.heartbeatAt.value < now - timeout)
  }

  function RecoveredRow(r: Row, now: int, timeout: int): Row {
    if Orphaned(r, now, timeout)
    then r.(status := Pending, worker := None, claimedAt := None, startedAt := None, heartbeatAt := None)
    else r
  }

  function Recovered(t: Table, now: int, timeout: int): Table {
    map id | id in t :: RecoveredRow(t[id], now, timeout)
  }

  // A statement that names a row by its id leaves the table alone if there is no such row.

  function Marked(t: Table, id: int, now: int): Table {
    if id in t then t[id := RunningRow(t[id], now)] else t
  }

  /** The row is still in this worker's hands. */
  predicate Mine(t: Table, id: int, worker: string) {
    id in t && Owned(t[id]) && t[id].worker == Some(worker)
  }

  function Beaten(t: Table, id: int, worker: string, now: int): Table {
    if Mine(t, id, worker) then t[id := t[id].(heartbeatAt := Some(now))] else t
  }

  function Written(t: Table, id: int, run: RunResult, canceled: bool, now: int): Table {
    if id in t then t[id := FinalRow(t[id], run, canceled, now)] else t
  }

  function CancelFlagged(t: Table, id: int): Table {
    if id in t && !Terminal(t[id]) then t[id := t[id].(cancelRequested := true)] else t
  }

  function Orphans(t: Table, now: int, timeout: int): set<int> {
    set id | id in t && Orphaned(t[id], now, timeout)
  }

  // ----- what a claim may take -----

  predicate Claimable(t: Table, agents: set<int>, id: int) {
    id in t && t[id].status == Pending && t[id].agent in agents
  }

  /** `ORDER BY priority ASC, created_at ASC`. */
  predicate NotAfter(a: Row, b: Row) {
    a.priority < b.priority || (a.priority == b.priority && a.createdAt <= b.createdAt)
  }

  /** The statement may return `id`: of the claimable rows nobody else has locked, none comes
      before it. Which of several equal rows is taken is left open. */
  predicate Next(t: Table, agents: set<int>, locked: set<int>, id: int) {
    && Claimable(t, agents, id) && id !in locked
    && forall j | j in t && j !in locked && Claimable(t, agents, j) :: NotAfter(t[id], t[j])
  }

  predicate NothingToClaim(t: Table, agents: set<int>, locked: set<int>) {
    forall j | j in t && j !in locked :: !Claimable(t, agents, j)
  }

  function Candidates(t: Table, agents: set<int>, locked: set<int>): set<int> {
    set id | id in t && id !in locked && Claimable(t, agents, id)
  }

  /** None of the rows `ids` comes before `id`. */
  predicate IsFirst(t: Table, ids: set<int>, id: int)
    requires id in t && ids <= t.Keys
  {
    forall j | j in ids :: NotAfter(t[id], t[j])
  }

  lemma FirstIsFirst(t: Table, ids: set<int>, id: int, j: int)
    requires id in t && ids <= t.Keys && IsFirst(t, ids, id) && j in ids
    ensures j in t && NotAfter(t[id], t[j])
  {
  }

  /** Among finitely many rows there is always one that no other comes before. */
  lemma {:induction false} FirstExists(t: Table, ids: set<int>) returns (first: int)
    requires ids != {} && ids <= t.Keys
    ensures first in ids && IsFirst(t, ids, first)
    decreases |ids|
  {
    first := Member(ids);
    if !IsFirst(t, ids, first) {
      var id := first;
      var j :| j in ids && !NotAfter(t[id], t[j]);
      assert j in ids - {id};
      first := FirstExists(t, ids - {id});
      forall i | i in ids ensures NotAfter(t[first], t[i]) {
        assert NotAfter(t[first], t[j]);
        assert i != id ==> i in ids - {id};
      }
    }
  }

  // ----- the queue -----

  datatype Outcome<T> = Done(value: T) | NoTask | NotCancelable

  /** The queue object. Its table lives in the database; ids come from a sequence. */
  class Queue {
    var rows: Table
    var nextId: int

    ghost predicate Valid()
      reads this
    {
      forall id | id in rows :: id < nextId
    }

    constructor ()
      ensures Valid() && rows == map[]
    {
      rows, nextId := map[], 1;
    }

    method Enqueue(agent: int, prompt: string, priority: int, now: int) returns (id: int)
      requires Valid()
      modifies this
      ensures Valid()
      ensures id !in old(rows) && rows == old(rows)[id := NewRow(agent, prompt, priority, now)]
      ensures HIGH <= rows[id].priority <= LOW
      ensures HIGH <= priority <= LOW ==> rows[id].priority == priority
    {
      var p := priority;
      if p < HIGH || p > LOW {
        p := MEDIUM;
      }
      id := nextId;
      nextId := nextId + 1;
      rows := rows[id := Row(agent, Pending, p, prompt, None, None, None, 0, false, now, None, None, None, None)];
    }

    /** Takes the first claimable row, or reports that there is none. */
    method Claim(worker: string, agents: set<int>, locked: set<int>, now: int) returns (r: Outcome<int>)
      requires Valid()
      modifies this`rows
      ensures Valid()
      ensures r.NoTask? <==> NothingToClaim(old(rows), agents, locked)
      ensures r.NoTask? ==> rows == old(rows)
      ensures !r.NoTask? ==>
        && r.Done? && Next(old(rows), agents, locked, r.value)
        && rows == old(rows)[r.value := ClaimedRow(old(rows)[r.value], worker, now)]
    {
      var candidates := Candidates(rows, agents, locked);
      if candidates == {} {
        forall j | j in rows && j !in locked ensures !Claimable(rows, agents, j) {
          assert j !in candidates;
        }
        return NoTask;
      }
      ghost var first := FirstExists(rows, candidates);
      var id :| id in candidates && IsFirst(rows, candidates, id);
      assert Claimable(rows, agents, id) && id !in locked;
      forall j | j in rows && j !in locked && Claimable(rows, agents, j) ensures NotAfter(rows[id], rows[j]) {
        FirstIsFirst(rows, candidates, id, j);
      }
      rows := rows[id := ClaimedRow(rows[id], worker, now)];
      return Done(id);
    }

    /** By id alone: neither the status nor the owner is looked at. */
    method MarkRunning(id: int, now: int)
      requires Valid()
      modifies this`rows
      ensures Valid()
      ensures rows == Marked(old(rows), id, now)
    {
      if id in rows {
        rows := rows[id := rows[id].(status := Running, startedAt := Some(now), heartbeatAt := Some(now))];
      }
    }

    /** Refreshes the row if it is still this worker's; tells whether to stop the task. */
    method Heartbeat(id: int, worker: string, now: int) returns (cancel: bool)
      requires Valid()
      modifies this`rows
      ensures Valid()
      ensures cancel == (!Mine(old(rows), id, worker) || old(rows)[id].cancelRequested)
      ensures rows == Beaten(old(rows), id, worker, now)
    {
      if id in rows && rows[id].worker == Some(worker) && Owned(rows[id]) {
        rows := rows[id := rows[id].(heartbeatAt := Some(now))];
        return rows[id].cancelRequested;
      }
      return true;
    }

    method Complete(id: int, result: string, now: int)
      requires Valid()
      modifies this`rows
      ensures Valid()
      ensures rows == Written(old(rows), id, Succeeded(result), false, now)
    {
      if id in rows {
        rows := rows[id := rows[id].(status := Completed, result := Some(result), completedAt := Some(now))];
      }
    }

    method Fail(id: int, error: string, partial: string, now: int)
      requires Valid()
      modifies this`rows
      ensures Valid()
      ensures rows == Written(old(rows), id, Stopped(error, partial), false, now)
    {
      if id in rows {
        rows := rows[id := rows[id].(status := Failed, error := Some(error), result := Some(partial), completedAt := Some(now))];
      }
    }

    method Cancel(id: int, partial: string, now: int)
      requires Valid()
      modifies this`rows
      ensures Valid()
      ensures forall error :: rows == Written(old(rows), id, Stopped(error, partial), true, now)
    {
      if id in rows {
        rows := rows[id := rows[id].(status := Canceled, result := Some(partial), completedAt := Some(now))];
      }
    }

    /** Sets the flag of a row that is not terminal. */
    method RequestCancel(id: int) returns (r: Outcome<Row>)
      requires Valid()
      modifies this`rows
      ensures Valid()
      ensures r.Done? <==> id in old(rows) && !Terminal(old(rows)[id])
      ensures rows == CancelFlagged(old(rows), id)
      ensures if r.Done? then r.value == rows[id] && rows[id].cancelRequested else r.NotCancelable?
    {
      if id !in rows || !(rows[id].status == Pending || Owned(rows[id])) {
        return NotCancelable;
      }
      rows := rows[id := rows[id].(cancelRequested := true)];
      return Done(rows[id]);
    }

    /** Takes back every orphaned row and leaves all others alone. */
    method RecoverOrphanedTasks(timeout: int, now: int) returns (n: nat)
      requires Valid()
      modifies this`rows
      ensures Valid()
      ensures rows == Recovered(old(rows), now, timeout)
      ensures n == |Orphans(old(rows), now, timeout)|
    {
      n := |Orphans(rows, now, timeout)|;
      rows := map id | id in rows :: RecoveredRow(rows[id], now, timeout);
    }
  }

  // ----- properties of the statements -----

  /** Recovery touches exactly the rows that are claimed or running with a stale or missing heartbeat:
      those are pending again with no trace of their owner, and keep everything else, the cancel request
      included. A second recovery at the same time finds nothing. */
  lemma RecoveryIsExact(t: Table, now: int, timeout: int)
    ensures Recovered(t, now, timeout).Keys == t.Keys
    ensures forall id | id in t ::
      id in Orphans(t, now, timeout) <==>
      && (t[id].status == Claimed || t[id].status == Running)
      && (t[id].heartbeatAt.None? || now - t[id].heartbeatAt.value > timeout)
    ensures forall id | id in t && id !in Orphans(t, now, timeout) :: Recovered(t, now, timeout)[id] == t[id]
    ensures forall id | id in t && id in Orphans(t, now, timeout) ::
      var r := Recovered(t, now, timeout)[id];
      && r.status == Pending && r.worker.None? && r.claimedAt.None? && r.startedAt.None? && r.heartbeatAt.None?
      && r.agent == t[id].agent && r.priority == t[id].priority && r.prompt == t[id].prompt
      && r.result == t[id].result && r.error == t[id].error && r.attempts == t[id].attempts
      && r.cancelRequested == t[id].cancelRequested
      && r.createdAt == t[id].createdAt && r.completedAt == t[id].completedAt
    ensures Orphans(Recovered(t, now, timeout), now, timeout) == {}
    ensures Recovered(Recovered(t, now, timeout), now, timeout) == Recovered(t, now, timeout)
  {
    var u := Recovered(t, now, timeout);
    forall id | id in u ensures !Orphaned(u[id], now, timeout) {
      assert u[id] == RecoveredRow(t[id], now, timeout);
    }
    forall id | id in Recovered(u, now, timeout) ensures Recovered(u, now, timeout)[id] == u[id] {
      assert Recovered(u, now, timeout)[id] == RecoveredRow(u[id], now, timeout);
    }
  }
}
