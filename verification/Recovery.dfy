/** Crash recovery: what becomes of the rows of a daemon that crashed. Recovery runs once, when a
    daemon starts; it takes a row back if the heartbeat is stale then, and otherwise nobody does until
    another start. */
module Recovery {
  import opened Basics
  import opened Claims
  import opened Leases
  import opened Protocol
  import opened TaskQueue
  import opened Unleased

  /** The row is owned, but no execution works on it any more. */
  predicate Abandoned(s: Sys, id: int) {
    && id in s.rows && Owned(s.rows[id])
    && forall e | e in s.execs && s.execs[e].task == id :: !Live(s.execs[e])
  }

  /** A crash abandons the rows its daemon was working on. */
  lemma CrashAbandons(max: int -> int, s: Sys, p: int, e: int)
    requires Enabled(s, Crash(p)) && Safe(s) && e in s.execs && Live(s.execs[e]) && s.execs[e].proc == p
    ensures var t, id := Apply(max, s, Crash(p)), s.execs[e].task;
      Abandoned(t, id) && id in s.rows && t.rows[id] == s.rows[id]
  {
    assert Owner(s, e);
  }

  /** Only a recovery that finds the row stale does anything about it. */
  lemma AbandonedStep(max: int -> int, s: Sys, ev: Event, id: int)
    requires Enabled(s, ev) && Abandoned(s, id)
    ensures var t := Apply(max, s, ev);
      && (Abandoned(t, id) <==> !Recovers(s, ev, id))
      && (Abandoned(t, id) ==> id in t.rows && t.rows[id].heartbeatAt == s.rows[id].heartbeatAt)
  {
  }

  predicate AbandonedThroughout(ss: seq<Sys>, i: nat, j: nat, id: int)
    requires i <= j < |ss|
  {
    forall k | i <= k <= j :: Abandoned(ss[k], id)
  }

  predicate NeverRecovered(ss: seq<Sys>, evs: seq<Event>, i: nat, j: nat, id: int)
    requires i <= j <= |evs| <= |ss|
  {
    forall k | i <= k < j :: !Recovers(ss[k], evs[k], id)
  }

  lemma LastEvent(max: int -> int, ss: seq<Sys>, evs: seq<Event>, i: nat, j: nat, id: int)
    requires Run(max, ss, evs) && i < j <= |evs|
    ensures |ss| == |evs| + 1 && Enabled(ss[j - 1], evs[j - 1]) && ss[j] == Apply(max, ss[j - 1], evs[j - 1])
    ensures AbandonedThroughout(ss, i, j, id) <==> AbandonedThroughout(ss, i, j - 1, id) && Abandoned(ss[j], id)
    ensures NeverRecovered(ss, evs, i, j, id) <==>
            NeverRecovered(ss, evs, i, j - 1, id) && !Recovers(ss[j - 1], evs[j - 1], id)
    ensures AbandonedThroughout(ss, i, j - 1, id) ==> Abandoned(ss[j - 1], id)
  {
    hide Apply, Enabled, Abandoned, Recovers;
  }

  lemma NoEvent(max: int -> int, ss: seq<Sys>, evs: seq<Event>, i: nat, id: int)
    requires Run(max, ss, evs) && i <= |evs|
    ensures |ss| == |evs| + 1
    ensures AbandonedThroughout(ss, i, i, id) <==> Abandoned(ss[i], id)
    ensures NeverRecovered(ss, evs, i, i, id)
  {
    hide Apply, Enabled, Abandoned, Recovers;
  }

  /** A row stays abandoned exactly until a recovery finds it stale. */
  lemma {:induction false} AbandonedUntilRecovered(max: int -> int, ss: seq<Sys>, evs: seq<Event>, i: nat, j: nat, id: int)
    requires Run(max, ss, evs) && i <= j <= |evs| && Abandoned(ss[i], id)
    ensures AbandonedThroughout(ss, i, j, id) <==> NeverRecovered(ss, evs, i, j, id)
    decreases j
  {
    hide *;
    NoEvent(max, ss, evs, i, id);
    if i < j {
      LastEvent(max, ss, evs, i, j, id);
      AbandonedUntilRecovered(max, ss, evs, i, j - 1, id);
      if Abandoned(ss[j - 1], id) {
        AbandonedStep(max, ss[j - 1], evs[j - 1], id);
      }
    }
  }

  /** ... and keeps the heartbeat it had. */
  lemma {:induction false} HeartbeatStays(max: int -> int, ss: seq<Sys>, evs: seq<Event>, i: nat, j: nat, id: int)
    requires Run(max, ss, evs) && i <= j <= |evs| && AbandonedThroughout(ss, i, j, id)
    ensures id in ss[i].rows && id in ss[j].rows && ss[j].rows[id].heartbeatAt == ss[i].rows[id].heartbeatAt
    decreases j
  {
    hide *;
    NoEvent(max, ss, evs, i, id);
    if i == j {
      InTable(ss[i], id);
    } else {
      LastEvent(max, ss, evs, i, j, id);
      HeartbeatStays(max, ss, evs, i, j - 1, id);
      AbandonedStep(max, ss[j - 1], evs[j - 1], id);
    }
  }

  lemma InTable(s: Sys, id: int)
    requires Abandoned(s, id)
    ensures id in s.rows
  {
  }

  /** Whether a restart takes the row back is decided by the age its last heartbeat has then. */
  lemma RestartTakesBackIff(max: int -> int, ss: seq<Sys>, evs: seq<Event>, i: nat, j: nat, id: int)
    requires Run(max, ss, evs) && i <= j < |evs| && Abandoned(ss[i], id) && ss[i].rows[id].heartbeatAt.Some?
    requires evs[j].Recover? && NeverRecovered(ss, evs, i, j, id)
    ensures
      var took := id in ss[j + 1].rows && ss[j + 1].rows[id].status == Pending;
      took <==> ss[j].now - ss[i].rows[id].heartbeatAt.value > evs[j].timeout
  {
    AbandonedUntilRecovered(max, ss, evs, i, j, id);
    HeartbeatStays(max, ss, evs, i, j, id);
    assert ss[j + 1].rows[id] == RecoveredRow(ss[j].rows[id], ss[j].now, evs[j].timeout);
  }

  /** A daemon that has recovered and goes through an agent without a claim; then time passes. */
  lemma PassBy(max: int -> int, s: Sys, p: int, worker: string, agent: int, to: int) returns (ss: seq<Sys>, evs: seq<Event>)
    requires Ready(s, p, worker, agent, max(agent)) && s.now <= to
    ensures evs == [EndAgent(p), Advance(to)] && Steps(max, ss, evs) && ss[0] == s
    ensures ss[2].rows == s.rows && ss[2].now == to && ss[2].execs == s.execs
    ensures p in ss[2].procs && ss[2].procs[p] == Proc(worker, true, Idle, map[])
  {
    evs := [EndAgent(p), Advance(to)];
    var s1 := Apply(max, s, evs[0]);
    ss := [s, s1, Apply(max, s1, evs[1])];
  }

  /** The only daemon crashes, and the next one starts at once. */
  lemma CrashAndRestart(max: int -> int, s: Sys, row: Row) returns (ss: seq<Sys>, evs: seq<Event>)
    requires s.procs.Keys == {0} && s.execs == map[0 := Exec(0, "a", 1, 7, Working)] && s.now == 10
    requires s.rows == map[1 := row] && row.status == Running && row.heartbeatAt == Some(0)
    ensures evs == [Crash(0), Boot(1, "b"), Recover(1, 30), BeginAgent(1, 7)] && Steps(max, ss, evs) && ss[0] == s
    ensures ss[1].procs == map[]
    ensures ss[4].rows == s.rows && ss[4].now == 10 && ss[4].execs == map[] && Ready(ss[4], 1, "b", 7, max(7))
  {
    var s1 := Apply(max, s, Crash(0));
    OneStep(max, s, Crash(0));
    assert s1.procs == map[] && s1.execs == map[];
    var sb, eb := StartUp(max, s1, 1, "b", 7, 30);
    assert sb[3].rows == s.rows;
    hide Steps, Apply, Enabled, Ready;
    StepsLength(max, sb, eb);
    StepsJoin(max, [s, s1], [Crash(0)], sb, eb);
    ss, evs := [s, s1] + sb[1..], [Crash(0)] + eb;
    assert ss[4] == sb[3];
  }

  lemma CrashRestartWait(max: int -> int, s: Sys, row: Row) returns (ss: seq<Sys>, evs: seq<Event>)
    requires s.procs.Keys == {0} && s.execs == map[0 := Exec(0, "a", 1, 7, Working)] && s.now == 10
    requires s.rows == map[1 := row] && row.status == Running && row.heartbeatAt == Some(0)
    ensures evs == [Crash(0), Boot(1, "b"), Recover(1, 30), BeginAgent(1, 7), EndAgent(1), Advance(1000)]
    ensures Steps(max, ss, evs) && ss[0] == s && ss[1].procs == map[]
    ensures ss[6].rows == s.rows && ss[6].now == 1000 && ss[6].execs == map[]
    ensures 1 in ss[6].procs && ss[6].procs[1] == Proc("b", true, Idle, map[])
  {
    hide Steps, Apply, Enabled, Ready;
    var sb, eb := CrashAndRestart(max, s, row);
    StepsLength(max, sb, eb);
    var sc, ec := PassBy(max, sb[4], 1, "b", 7, 1000);
    StepsLength(max, sc, ec);
    StepsJoin(max, sb, eb, sc, ec);
    ss, evs := sb + sc[1..], eb + ec;
    assert ss[6] == sc[2] && ss[1] == sb[1];
  }

  lemma LeftBehind(s: Sys, row: Row)
    requires s.rows == map[1 := row] && row.status == Running && s.execs == map[]
    ensures Abandoned(s, 1) && NothingToClaim(s.rows, {7}, {})
  {
  }

  /** Crash recovery can miss a task for good. One daemon at a time, on an empty table with a single
      task: the daemon crashes, and its successor starts before the heartbeat is stale. Long after the
      timeout the row is still marked running, no execution works on it, the daemon that is up has
      recovered already, and there is nothing for it to claim. */
  lemma RestartedTooSoon(max: int -> int) returns (ss: seq<Sys>, evs: seq<Event>)
    requires max(7) > 0
    ensures Run(max, ss, evs) && |evs| == 14 && OneDaemon(ss, evs) && ss[0].rows == map[]
    ensures evs[8] == Crash(0) && evs[10] == Recover(1, 30)
    ensures
      var s := ss[14];
      && Abandoned(s, 1) && s.rows[1].status == Running && s.rows[1].heartbeatAt == Some(0) && s.now == 1000
      && 1 in s.procs && s.procs[1] == Proc("b", true, Idle, map[]) && NothingToClaim(s.rows, {7}, {})
  {
    hide Steps, Apply, Enabled, Run, Abandoned, NothingToClaim;
    var row := RunningRow(ClaimedRow(NewRow(7, "prompt", MEDIUM, 0), "a", 0), 0);
    var sa, ea := FirstDaemon(max, 10);
    StepsLength(max, sa, ea);
    var sb, eb := CrashRestartWait(max, sa[8], row);
    StepsLength(max, sb, eb);
    StepsJoin(max, sa, ea, sb, eb);
    ss, evs := sa + sb[1..], ea + eb;
    StepsRun(max, ss, evs);
    assert ss[14] == sb[6] && ss[9] == sb[1] && ss[1] == sa[1] && ss[0] == sa[0];
    assert evs[9] == eb[1] && forall i | 0 <= i < 14 && evs[i].Boot? :: i == 1 || i == 9;
    LeftBehind(ss[14], row);
  }
}
