/** A run on which the lease is lost, from an empty table: one daemon is silent for longer than the
    timeout, another one takes its only task back. */
module Unleased {
  import opened Basics
  import opened Leases
  import opened Protocol
  import opened TaskQueue

  /** The events lead from state to state. */
  predicate Steps(max: int -> int, ss: seq<Sys>, evs: seq<Event>) {
    && |ss| == |evs| + 1
    && forall i | 0 <= i < |evs| :: Enabled(ss[i], evs[i]) && ss[i + 1] == Apply(max, ss[i], evs[i])
  }

  lemma StepsJoin(max: int -> int, sa: seq<Sys>, ea: seq<Event>, sb: seq<Sys>, eb: seq<Event>)
    requires Steps(max, sa, ea) && Steps(max, sb, eb) && sb[0] == sa[|ea|]
    ensures Steps(max, sa + sb[1..], ea + eb)
  {
    hide Apply, Enabled;
    var ss, evs := sa + sb[1..], ea + eb;
    forall i | 0 <= i < |evs| ensures Enabled(ss[i], evs[i]) && ss[i + 1] == Apply(max, ss[i], evs[i]) {
      if i >= |ea| {
        assert ss[i] == sb[i - |ea|] && ss[i + 1] == sb[i + 1 - |ea|] && evs[i] == eb[i - |ea|];
      } else {
        assert ss[i] == sa[i] && ss[i + 1] == sa[i + 1] && evs[i] == ea[i];
      }
    }
  }

  lemma OneStep(max: int -> int, s: Sys, ev: Event)
    requires Enabled(s, ev)
    ensures Steps(max, [s, Apply(max, s, ev)], [ev])
  {
  }

  /** A daemon that has just recovered and is about to claim for the agent. */
  predicate Ready(s: Sys, p: int, worker: string, agent: int, left: int) {
    p in s.procs && s.procs[p] == Proc(worker, true, Claiming(agent, left), map[])
  }

  lemma StartUp(max: int -> int, s: Sys, p: int, worker: string, agent: int, timeout: int)
    returns (ss: seq<Sys>, evs: seq<Event>)
    requires p !in s.procs
    ensures evs == [Boot(p, worker), Recover(p, timeout), BeginAgent(p, agent)] && Steps(max, ss, evs) && ss[0] == s
    ensures var t := ss[3];
      && t.rows == Recovered(s.rows, s.now, timeout) && t.now == s.now && t.execs == s.execs
      && Ready(t, p, worker, agent, max(agent)) && t.procs.Keys == s.procs.Keys + {p}
    ensures ss[1].rows == s.rows && ss[1].now == s.now && ss[1].execs == s.execs
  {
    hide Recovered;
    evs := [Boot(p, worker), Recover(p, timeout), BeginAgent(p, agent)];
    var s1 := Apply(max, s, evs[0]);
    var s2 := Apply(max, s1, evs[1]);
    var s3 := Apply(max, s2, evs[2]);
    ss := [s, s1, s2, s3];
    assert s3.procs.Keys == s.procs.Keys + {p};
  }

  lemma TakeOn(max: int -> int, s: Sys, p: int, worker: string, agent: int, id: int, e: int)
    returns (ss: seq<Sys>, evs: seq<Event>)
    requires Ready(s, p, worker, agent, max(agent)) && max(agent) > 0
    requires e !in s.execs && Next(s.rows, {agent}, {}, id)
    ensures evs == [Claim(p, e, id, {}), Launch(p)] && Steps(max, ss, evs) && ss[0] == s
    ensures var t := ss[2];
      && t.rows == s.rows[id := ClaimedRow(s.rows[id], worker, s.now)] && t.now == s.now
      && t.execs == s.execs[e := Exec(p, worker, id, agent, Launched)]
      && t.procs.Keys == s.procs.Keys
  {
    hide Next;
    evs := [Claim(p, e, id, {}), Launch(p)];
    assert Enabled(s, evs[0]);
    var s1 := Apply(max, s, evs[0]);
    var s2 := Apply(max, s1, evs[1]);
    ss := [s, s1, s2];
    assert s2.execs == s.execs[e := Exec(p, worker, id, agent, Launched)];
    assert s2.procs.Keys == s.procs.Keys;
  }

  /** A daemon starts, recovers, and takes on the only row of the table. */
  lemma StartAndTake(max: int -> int, s: Sys, p: int, worker: string, row: Row, timeout: int, e: int)
    returns (ss: seq<Sys>, evs: seq<Event>)
    requires p !in s.procs && e !in s.execs && s.rows == map[1 := row] && max(row.agent) > 0
    requires RecoveredRow(row, s.now, timeout).status == Pending
    ensures |evs| == 5 && evs[1] == Recover(p, timeout) && (forall i | 0 <= i < 5 && i != 1 :: !evs[i].Recover?)
    ensures forall i | 0 < i < 5 :: !evs[i].Boot?
    ensures Steps(max, ss, evs) && ss[0] == s
    ensures ss[1].rows == s.rows && ss[1].now == s.now && ss[1].execs == s.execs
    ensures var t := ss[5];
      && t.rows == map[1 := ClaimedRow(RecoveredRow(row, s.now, timeout), worker, s.now)] && t.now == s.now
      && t.execs == s.execs[e := Exec(p, worker, 1, row.agent, Launched)] && t.procs.Keys == s.procs.Keys + {p}
  {
    var sa, ea := StartUp(max, s, p, worker, row.agent, timeout);
    var ready := sa[3];
    assert ready.rows == map[1 := RecoveredRow(row, s.now, timeout)];
    assert Next(ready.rows, {row.agent}, {}, 1);
    hide Next, Steps, Ready;
    var sb, eb := TakeOn(max, ready, p, worker, row.agent, 1, e);
    StepsLength(max, sa, ea);
    StepsLength(max, sb, eb);
    StepsJoin(max, sa, ea, sb, eb);
    ss, evs := sa + sb[1..], ea + eb;
  }

  lemma StepsLength(max: int -> int, ss: seq<Sys>, evs: seq<Event>)
    requires Steps(max, ss, evs)
    ensures |ss| == |evs| + 1
  {
  }

  /** The task is marked running, and then a long time passes. */
  lemma MarkAndWait(max: int -> int, s: Sys, e: int, row: Row, to: int) returns (ss: seq<Sys>, evs: seq<Event>)
    requires HasPhase(s, e, Launched) && s.execs[e].task == 1 && s.rows == map[1 := row] && s.now <= to
    ensures evs == [Mark(e, true), Advance(to)] && Steps(max, ss, evs) && ss[0] == s
    ensures var t := ss[2];
      && t.rows == map[1 := RunningRow(row, s.now)] && t.now == to && t.procs == s.procs
      && t.execs == s.execs[e := s.execs[e].(phase := Working)]
  {
    evs := [Mark(e, true), Advance(to)];
    var s1 := Apply(max, s, evs[0]);
    ss := [s, s1, Apply(max, s1, evs[1])];
  }

  /** The first execution finishes and writes its result; then the second one marks its row. */
  lemma FinishAndMark(max: int -> int, s: Sys, e: int, f: int, row: Row) returns (ss: seq<Sys>, evs: seq<Event>)
    requires HasPhase(s, e, Working) && HasPhase(s, f, Launched) && s.execs[e].task == s.execs[f].task == 1
    requires s.rows == map[1 := row]
    ensures evs == [RunEnds(e), Write(e, Succeeded("result"), false, true), Mark(f, true)]
    ensures Steps(max, ss, evs) && ss[0] == s
    ensures 1 in ss[2].rows && ss[2].rows[1].status == Completed
    ensures 1 in ss[3].rows && ss[3].rows[1].status == Running
  {
    evs := [RunEnds(e), Write(e, Succeeded("result"), false, true), Mark(f, true)];
    var s1 := Apply(max, s, evs[0]);
    var s2 := Apply(max, s1, evs[1]);
    ss := [s, s1, s2, Apply(max, s2, evs[2])];
  }

  const START := Sys(map[], 0, map[], map[])

  /** A task is enqueued, and daemon 0 takes it on, marks it and falls silent until `to`. */
  lemma FirstDaemon(max: int -> int, to: nat) returns (ss: seq<Sys>, evs: seq<Event>)
    requires max(7) > 0
    ensures |evs| == 8 && Steps(max, ss, evs) && ss[0] == START
    ensures ss[1].procs == map[] && forall i | 0 <= i < 8 && i != 1 :: !evs[i].Boot?
    ensures var s, row := ss[8], NewRow(7, "prompt", MEDIUM, 0);
      && s.rows == map[1 := RunningRow(ClaimedRow(row, "a", 0), 0)] && s.now == to && s.procs.Keys == {0}
      && s.execs == map[0 := Exec(0, "a", 1, 7, Working)]
  {
    var row := NewRow(7, "prompt", MEDIUM, 0);
    var ev := Enqueue(1, 7, "prompt", MEDIUM);
    var s1 := Apply(max, START, ev);
    OneStep(max, START, ev);
    var sb, eb := StartAndTake(max, s1, 0, "a", row, 30, 0);
    var sc, ec := MarkAndWait(max, sb[5], 0, ClaimedRow(row, "a", 0), to);
    hide Steps, Apply, Enabled;
    StepsLength(max, sb, eb);
    StepsLength(max, sc, ec);
    StepsJoin(max, [START, s1], [ev], sb, eb);
    var sab, eab := [START, s1] + sb[1..], [ev] + eb;
    StepsLength(max, sab, eab);
    assert sab[6] == sb[5];
    StepsJoin(max, sab, eab, sc, ec);
    ss, evs := sab + sc[1..], eab + ec;
    assert ss[8] == sc[2] && ss[1] == s1;
  }

  /** The lease is needed. On a run from an empty table with a single task, and with no row ever
      locked, recovery finds the lease not held; the task then has two live executions at once, and
      its row, once completed, is running again. */
  lemma WithoutTheLease(max: int -> int) returns (ss: seq<Sys>, evs: seq<Event>)
    requires max(7) > 0
    ensures Run(max, ss, evs) && |evs| == 16 && ss[0].rows == map[]
    ensures !LeaseHeld(ss, evs)
    ensures !Exclusive(ss[13])
    ensures 1 in ss[15].rows && ss[15].rows[1].status == Completed
    ensures 1 in ss[16].rows && ss[16].rows[1].status == Running
  {
    var row := RunningRow(ClaimedRow(NewRow(7, "prompt", MEDIUM, 0), "a", 0), 0);
    var sa, ea := FirstDaemon(max, 100);
    var sb, eb := StartAndTake(max, sa[8], 1, "b", row, 30, 1);
    assert sb[5].execs == map[0 := Exec(0, "a", 1, 7, Working), 1 := Exec(1, "b", 1, 7, Launched)];
    var sc, ec := FinishAndMark(max, sb[5], 0, 1, ClaimedRow(RecoveredRow(row, 100, 30), "b", 100));
    TwoLive(sb[5]);
    assert !Leased(sb[1], 30) by { Stale(sb[1], row); }
    hide Steps, Apply, Enabled, Leased, Exclusive;
    StepsLength(max, sa, ea);
    StepsLength(max, sb, eb);
    StepsLength(max, sc, ec);
    StepsJoin(max, sa, ea, sb, eb);
    var sab, eab := sa + sb[1..], ea + eb;
    StepsLength(max, sab, eab);
    assert sab[13] == sb[5] && sab[9] == sb[1];
    StepsJoin(max, sab, eab, sc, ec);
    ss, evs := sab + sc[1..], eab + ec;
    StepsRun(max, ss, evs);
    assert ss[15] == sc[2] && ss[16] == sc[3] && ss[13] == sb[5] && ss[9] == sb[1];
    assert evs[9] == Recover(1, 30);
  }

  lemma StepsRun(max: int -> int, ss: seq<Sys>, evs: seq<Event>)
    requires Steps(max, ss, evs) && ss[0] == START
    ensures Run(max, ss, evs)
  {
  }

  lemma TwoLive(s: Sys)
    requires s.execs == map[0 := Exec(0, "a", 1, 7, Working), 1 := Exec(1, "b", 1, 7, Launched)]
    ensures !Exclusive(s)
  {
    assert s.execs[0].task == s.execs[1].task && Live(s.execs[0]) && Live(s.execs[1]);
  }

  lemma Stale(s: Sys, row: Row)
    requires s.execs == map[0 := Exec(0, "a", 1, 7, Working)] && s.rows == map[1 := row] && s.now == 100
    requires row.status == Running && row.heartbeatAt == Some(0)
    ensures !Leased(s, 30)
  {
    assert Live(s.execs[0]) && Orphaned(s.rows[s.execs[0].task], 100, 30);
  }
}
