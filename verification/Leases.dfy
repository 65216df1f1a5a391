/** Mutual exclusion. The statements that mark, finish or fail a row name it by id alone, so that
    no task is ever run twice at a time rests on recovery never taking back the row of a live
    execution. Under that lease the table is safe; without it, it is not. */
module Leases {
  import opened Basics
  import opened Protocol
  import opened TaskQueue

  /** Not over yet: a statement on its row is still to come. */
  predicate Live(x: Exec) { x.phase != Ended }

  /** Every live execution owns its row under the name of its worker. */
  predicate Owner(s: Sys, e: int)
    requires e in s.execs
  {
    var x := s.execs[e];
    x.task in s.rows && Owned(s.rows[x.task]) && s.rows[x.task].worker == Some(x.worker)
  }

  predicate Owners(s: Sys) { forall e | e in s.execs && Live(s.execs[e]) :: Owner(s, e) }

  /** No task has two live executions. */
  predicate Exclusive(s: Sys) {
    forall e, f | e in s.execs && f in s.execs && e != f && Live(s.execs[e]) && Live(s.execs[f]) ::
      s.execs[e].task != s.execs[f].task
  }

  predicate Safe(s: Sys) { Owners(s) && Exclusive(s) }

  /** The row of every live execution has a heartbeat younger than the timeout. */
  predicate Leased(s: Sys, timeout: int) {
    forall e | e in s.execs && Live(s.execs[e]) ::
      s.execs[e].task in s.rows && !Orphaned(s.rows[s.execs[e].task], s.now, timeout)
  }

  /** The lease holds whenever recovery runs. */
  predicate LeaseHeld(ss: seq<Sys>, evs: seq<Event>)
    requires |ss| == |evs| + 1
  {
    forall i | 0 <= i < |evs| && evs[i].Recover? :: Leased(ss[i], evs[i].timeout)
  }

  predicate RecoversLeased(s: Sys, ev: Event) { ev.Recover? ==> Leased(s, ev.timeout) }

  lemma ClaimIsSafe(max: int -> int, s: Sys, ev: Event)
    requires Enabled(s, ev) && Safe(s) && ev.Claim?
    ensures Safe(Apply(max, s, ev))
  {
    var t := Apply(max, s, ev);
    forall e | e in t.execs && Live(t.execs[e]) ensures Owner(t, e) {
      if e != ev.exec {
        assert Owner(s, e);
      }
    }
    forall e | e in s.execs && Live(s.execs[e]) ensures s.execs[e].task != ev.id {
      assert Owner(s, e);
    }
  }

  /** A statement of a live execution on its own row keeps every other row. */
  lemma OwnStatementIsSafe(max: int -> int, s: Sys, ev: Event)
    requires Enabled(s, ev) && Safe(s) && (ev.Mark? || ev.Beat? || ev.Write?)
    ensures Safe(Apply(max, s, ev))
  {
    var t := Apply(max, s, ev);
    assert Owner(s, ev.exec);
    forall e | e in t.execs && Live(t.execs[e]) ensures Owner(t, e) {
      assert Owner(s, e);
    }
  }

  lemma RecoveryIsSafe(max: int -> int, s: Sys, ev: Event)
    requires Enabled(s, ev) && Safe(s) && ev.Recover? && Leased(s, ev.timeout)
    ensures Safe(Apply(max, s, ev))
  {
    var t := Apply(max, s, ev);
    forall e | e in t.execs && Live(t.execs[e]) ensures Owner(t, e) {
      assert Owner(s, e);
    }
  }

  lemma OtherIsSafe(max: int -> int, s: Sys, ev: Event)
    requires Enabled(s, ev) && Safe(s)
    requires !ev.Claim? && !ev.Recover? && !ev.Mark? && !ev.Beat? && !ev.Write?
    ensures Safe(Apply(max, s, ev))
  {
    var t := Apply(max, s, ev);
    forall e | e in t.execs && Live(t.execs[e]) ensures Owner(t, e) {
      assert Owner(s, e);
    }
  }

  lemma StepIsSafe(max: int -> int, s: Sys, ev: Event)
    requires Enabled(s, ev) && Safe(s) && RecoversLeased(s, ev)
    ensures Safe(Apply(max, s, ev))
  {
    hide *;
    match ev
    case Claim(_, _, _, _) => ClaimIsSafe(max, s, ev);
    case Recover(_, _) => assert Leased(s, ev.timeout) by { Unfold(s, ev); } RecoveryIsSafe(max, s, ev);
    case Mark(_, _) => OwnStatementIsSafe(max, s, ev);
    case Beat(_, _) => OwnStatementIsSafe(max, s, ev);
    case Write(_, _, _, _) => OwnStatementIsSafe(max, s, ev);
    case _ => OtherIsSafe(max, s, ev);
  }

  lemma Unfold(s: Sys, ev: Event)
    requires RecoversLeased(s, ev) && ev.Recover?
    ensures Leased(s, ev.timeout)
  {
  }

  /** A terminal row never changes again. */
  lemma TerminalStays(max: int -> int, s: Sys, ev: Event, id: int)
    requires Enabled(s, ev) && Safe(s) && id in s.rows && Terminal(s.rows[id])
    ensures var t := Apply(max, s, ev); id in t.rows && t.rows[id] == s.rows[id]
  {
    if ev.Mark? || ev.Beat? || ev.Write? {
      assert Owner(s, ev.exec);
    }
  }

  /** Lease safety, for any number of daemons and any interleaving: if the lease holds whenever
      recovery runs, no task ever has two live executions and a row that is completed, failed or
      canceled stays exactly as it is. */
  lemma {:induction false} LeaseSafety(max: int -> int, ss: seq<Sys>, evs: seq<Event>, i: nat, j: nat)
    requires Run(max, ss, evs) && LeaseHeld(ss, evs)
    requires i <= j <= |evs|
    ensures Safe(ss[j])
    ensures forall id | id in ss[i].rows && ss[i].rows[id].status in {Completed, Failed, Canceled} ::
      id in ss[j].rows && ss[j].rows[id] == ss[i].rows[id]
    decreases j
  {
    if j > 0 {
      LeaseSafety(max, ss, evs, if i < j then i else j - 1, j - 1);
      assert RecoversLeased(ss[j - 1], evs[j - 1]);
      StepIsSafe(max, ss[j - 1], evs[j - 1]);
      if i < j {
        forall id | id in ss[i].rows && ss[i].rows[id].status in {Completed, Failed, Canceled}
          ensures id in ss[j].rows && ss[j].rows[id] == ss[i].rows[id]
        {
          TerminalStays(max, ss[j - 1], evs[j - 1], id);
        }
      }
    }
  }

  // ----- one daemon at a time -----

  /** Processes are started only when none is alive. */
  predicate OneDaemon(ss: seq<Sys>, evs: seq<Event>)
    requires |ss| == |evs| + 1
  {
    forall i | 0 <= i < |evs| && evs[i].Boot? :: ss[i].procs == map[]
  }

  /** At most one process is alive, executions belong to it, and there are none before it has
      recovered. */
  predicate Alone(s: Sys) {
    && (forall p, q | p in s.procs && q in s.procs :: p == q)
    && (forall e | e in s.execs :: s.execs[e].proc in s.procs && s.procs[s.execs[e].proc].recovered)
    && (forall p | p in s.procs && !s.procs[p].tick.Idle? :: s.procs[p].recovered)
  }

  lemma AloneStep(max: int -> int, s: Sys, ev: Event)
    requires Enabled(s, ev) && Alone(s) && (ev.Boot? ==> s.procs == map[])
    ensures Alone(Apply(max, s, ev))
  {
  }

  lemma {:induction false} StaysAlone(max: int -> int, ss: seq<Sys>, evs: seq<Event>, i: nat)
    requires Run(max, ss, evs) && OneDaemon(ss, evs) && i <= |evs|
    ensures Alone(ss[i])
    decreases i
  {
    if i > 0 {
      StaysAlone(max, ss, evs, i - 1);
      AloneStep(max, ss[i - 1], evs[i - 1]);
    }
  }

  /** A single daemon that crashes and restarts holds the lease whatever the clock does, because
      it recovers before it runs anything; so it is safe without any assumption on time. */
  lemma SingleDaemonIsSafe(max: int -> int, ss: seq<Sys>, evs: seq<Event>, i: nat, j: nat)
    requires Run(max, ss, evs) && OneDaemon(ss, evs) && i <= j <= |evs|
    ensures LeaseHeld(ss, evs)
    ensures Safe(ss[j])
    ensures forall id | id in ss[i].rows && ss[i].rows[id].status in {Completed, Failed, Canceled} ::
      id in ss[j].rows && ss[j].rows[id] == ss[i].rows[id]
  {
    forall k | 0 <= k < |evs| && evs[k].Recover? ensures Leased(ss[k], evs[k].timeout) {
      StaysAlone(max, ss, evs, k);
      assert Enabled(ss[k], evs[k]);
    }
    LeaseSafety(max, ss, evs, i, j);
  }

  // ----- the lease is needed -----

  /** In a safe state recovery keeps every live execution the owner of its row exactly if the lease
      holds. */
  lemma RecoveryKeepsOwnersIff(max: int -> int, s: Sys, p: int, timeout: int)
    requires Enabled(s, Recover(p, timeout)) && Safe(s)
    ensures Safe(Apply(max, s, Recover(p, timeout))) <==> Leased(s, timeout)
  {
    var t := Apply(max, s, Recover(p, timeout));
    if Leased(s, timeout) {
      StepIsSafe(max, s, Recover(p, timeout));
    }
    if Safe(t) {
      forall e | e in s.execs && Live(s.execs[e])
        ensures s.execs[e].task in s.rows && !Orphaned(s.rows[s.execs[e].task], s.now, timeout)
      {
        assert Owner(s, e) && Owner(t, e);
        assert t.rows[s.execs[e].task] == RecoveredRow(s.rows[s.execs[e].task], s.now, timeout);
      }
    }
  }

  /** What can happen whenever the lease does not hold: the process that recovers takes the row back
      and, if every other row is locked at that moment, claims it next; the task has two live
      executions. */
  lemma LostLease(max: int -> int, s: Sys, p: int, timeout: int, e: int, f: int)
    returns (evs: seq<Event>, t: Sys)
    requires p in s.procs && !s.procs[p].recovered && s.procs[p].tick.Idle? && s.procs[p].inflight == map[]
    requires e in s.execs && Live(s.execs[e]) && f !in s.execs
    requires s.execs[e].task in s.rows && Orphaned(s.rows[s.execs[e].task], s.now, timeout)
    requires max(s.rows[s.execs[e].task].agent) > 0
    ensures var id := s.execs[e].task;
      evs == [Recover(p, timeout), BeginAgent(p, s.rows[id].agent), Claim(p, f, id, s.rows.Keys - {id})]
    ensures Enabled(s, evs[0])
    ensures Enabled(Apply(max, s, evs[0]), evs[1])
    ensures Enabled(Apply(max, Apply(max, s, evs[0]), evs[1]), evs[2])
    ensures t == Apply(max, Apply(max, Apply(max, s, evs[0]), evs[1]), evs[2])
    ensures !Exclusive(t)
  {
    var id := s.execs[e].task;
    var a := s.rows[id].agent;
    var others := s.rows.Keys - {id};
    evs := [Recover(p, timeout), BeginAgent(p, a), Claim(p, f, id, others)];
    var s1 := Apply(max, s, evs[0]);
    assert s1.rows[id] == RecoveredRow(s.rows[id], s.now, timeout);
    var s2 := Apply(max, s1, evs[1]);
    assert Next(s2.rows, {a}, others, id);
    t := Apply(max, s2, evs[2]);
    assert t.execs[e].task == t.execs[f].task;
  }
}
