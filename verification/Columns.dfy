/** The rows of the task table column by column: what each event writes, and what no event ever
    changes. */
module Columns {
  import opened Basics
  import opened Protocol
  import opened TaskQueue

  /** A new row: pending, never claimed; a priority other than 1, 2 and 3 becomes 2. */
  predicate IsNew(q: Row, agent: int, prompt: string, priority: int, now: int) {
    q == Row(agent, Pending, if priority == 1 || priority == 3 then priority else 2, prompt,
      None, None, None, 0, false, now, None, None, None, None)
  }

  predicate IsClaimed(r: Row, q: Row, worker: string, now: int) {
    q == Row(r.agent, Claimed, r.priority, r.prompt, r.result, r.error, Some(worker), r.attempts + 1,
      r.cancelRequested, r.createdAt, Some(now), r.startedAt, Some(now), r.completedAt)
  }

  predicate IsRunning(r: Row, q: Row, now: int) {
    q == Row(r.agent, Running, r.priority, r.prompt, r.result, r.error, r.worker, r.attempts,
      r.cancelRequested, r.createdAt, r.claimedAt, Some(now), Some(now), r.completedAt)
  }

  predicate IsBeaten(r: Row, q: Row, now: int) {
    q == Row(r.agent, r.status, r.priority, r.prompt, r.result, r.error, r.worker, r.attempts,
      r.cancelRequested, r.createdAt, r.claimedAt, r.startedAt, Some(now), r.completedAt)
  }

  predicate IsFinal(r: Row, q: Row, status: Status, result: string, error: Option<string>, now: int) {
    q == Row(r.agent, status, r.priority, r.prompt, Some(result), error, r.worker, r.attempts,
      r.cancelRequested, r.createdAt, r.claimedAt, r.startedAt, r.heartbeatAt, Some(now))
  }

  predicate IsFlagged(r: Row, q: Row) {
    q == Row(r.agent, r.status, r.priority, r.prompt, r.result, r.error, r.worker, r.attempts,
      true, r.createdAt, r.claimedAt, r.startedAt, r.heartbeatAt, r.completedAt)
  }

  predicate IsTakenBack(r: Row, q: Row) {
    q == Row(r.agent, Pending, r.priority, r.prompt, r.result, r.error, None, r.attempts,
      r.cancelRequested, r.createdAt, None, None, None, r.completedAt)
  }

  /** What event `ev` makes of the row `id`, which is `r` before it and `q` after it. */
  predicate Writes(s: Sys, ev: Event, id: int, r: Row, q: Row)
    requires Enabled(s, ev)
  {
    match ev
    case Claim(p, _, i, _) => if i == id then IsClaimed(r, q, s.procs[p].worker, s.now) else q == r
    case Mark(e, ok) => if ok && s.execs[e].task == id then IsRunning(r, q, s.now) else q == r
    case Beat(e, ok) =>
      if ok && s.execs[e].task == id && r.worker == Some(s.execs[e].worker) && (r.status == Claimed || r.status == Running)
      then IsBeaten(r, q, s.now) else q == r
    case Write(e, run, canceled, ok) =>
      if !ok || s.execs[e].task != id then q == r
      else (match run
        case Succeeded(result) => IsFinal(r, q, Completed, result, r.error, s.now)
        case Stopped(error, partial) =>
          if canceled then IsFinal(r, q, Canceled, partial, r.error, s.now)
          else IsFinal(r, q, Failed, partial, Some(error), s.now))
    case RequestCancel(i) =>
      if i == id && (r.status == Pending || r.status == Claimed || r.status == Running) then IsFlagged(r, q) else q == r
    case Recover(_, timeout) =>
      if (r.status == Claimed || r.status == Running) && (r.heartbeatAt.None? || s.now - r.heartbeatAt.value > timeout)
      then IsTakenBack(r, q) else q == r
    case _ => q == r
  }

  /** Every event, on every row. */
  lemma EventWrites(max: int -> int, s: Sys, ev: Event, id: int)
    requires Enabled(s, ev)
    ensures
      var t := Apply(max, s, ev).rows;
      && (id in t <==> id in s.rows || (ev.Enqueue? && ev.id == id))
      && (id in s.rows ==> id in t && Writes(s, ev, id, s.rows[id], t[id]))
      && (ev.Enqueue? && ev.id == id ==> IsNew(t[id], ev.agent, ev.prompt, ev.priority, s.now))
  {
    match ev
    case Claim(_, _, _, _) =>
    case Mark(_, _) =>
    case Beat(_, _) =>
    case Write(_, run, _, _) => match run { case Succeeded(_) => case Stopped(_, _) => }
    case RequestCancel(_) =>
    case Recover(_, _) =>
    case _ =>
  }

  /** What a row is about never changes, a cancel request is never lost, and attempts are never taken
      back. */
  predicate Continues(r: Row, q: Row) {
    && q.agent == r.agent && q.prompt == r.prompt && q.priority == r.priority && q.createdAt == r.createdAt
    && (r.cancelRequested ==> q.cancelRequested) && q.attempts >= r.attempts
  }

  lemma WrittenContinues(s: Sys, ev: Event, id: int, r: Row, q: Row)
    requires Enabled(s, ev) && Writes(s, ev, id, r, q)
    ensures Continues(r, q)
  {
  }

  lemma SameContinues(r: Row)
    ensures Continues(r, r)
  {
  }

  lemma ContinuesOn(r: Row, q: Row, p: Row)
    requires Continues(r, q) && Continues(q, p)
    ensures Continues(r, p)
  {
  }

  /** Over any run, whatever daemons crash and recover in between. */
  lemma {:induction false} RowsContinue(max: int -> int, ss: seq<Sys>, evs: seq<Event>, i: nat, j: nat, id: int)
    requires Run(max, ss, evs) && i <= j <= |evs| && id in ss[i].rows
    ensures id in ss[j].rows && Continues(ss[i].rows[id], ss[j].rows[id])
    decreases j
  {
    hide *;
    RunLength(max, ss, evs);
    if i == j {
      SameContinues(ss[i].rows[id]);
    } else {
      RowsContinue(max, ss, evs, i, j - 1, id);
      var s, ev := ss[j - 1], evs[j - 1];
      RunStep(max, ss, evs, j - 1);
      EventWrites(max, s, ev, id);
      WrittenContinues(s, ev, id, s.rows[id], ss[j].rows[id]);
      ContinuesOn(ss[i].rows[id], s.rows[id], ss[j].rows[id]);
    }
  }

  /** A request to cancel that finds its row not over yet is in the table ever after. */
  lemma FlagIsKept(max: int -> int, ss: seq<Sys>, evs: seq<Event>, i: nat, j: nat, id: int)
    requires Run(max, ss, evs) && i < j <= |evs| && evs[i] == RequestCancel(id)
    requires id in ss[i].rows && ss[i].rows[id].status in {Pending, Claimed, Running}
    ensures id in ss[j].rows && ss[j].rows[id].cancelRequested
  {
    hide Run, Apply;
    RunLength(max, ss, evs);
    RunStep(max, ss, evs, i);
    EventWrites(max, ss[i], evs[i], id);
    RowsContinue(max, ss, evs, i + 1, j, id);
  }
}
