/** The per-agent counts of a daemon: each equals the number of its running executions of that
    agent and never exceeds the agent's limit, whatever is claimed, finishes or crashes meanwhile. */
module Capacity {
  import opened Protocol

  /** The execution is one of process `p` for agent `a` that has been counted. */
  predicate Counted(x: Exec, p: int, a: int) { x.proc == p && x.agent == a && x.phase != Held }

  function Running(s: Sys, p: int, a: int): set<int> {
    set e | e in s.execs && Counted(s.execs[e], p, a)
  }

  /** The execution a tick loop has in hand is held by it. */
  predicate TickHolds(s: Sys, p: int)
    requires p in s.procs
  {
    var t := s.procs[p].tick;
    t.Holding? ==> t.exec in s.execs && s.execs[t.exec].phase == Held && s.execs[t.exec].proc == p && s.execs[t.exec].agent == t.agent
  }

  /** Executions belong to living processes, and one that is held is in its tick loop's hand. */
  predicate Placed(s: Sys, e: int)
    requires e in s.execs
  {
    var x := s.execs[e];
    && x.proc in s.procs
    && (x.phase == Held ==> s.procs[x.proc].tick.Holding? && s.procs[x.proc].tick.exec == e)
  }

  /** The slots a tick loop may still fill for the agent. */
  function Open(t: Tick, a: int): int {
    match t
    case Idle => 0
    case Claiming(b, left) => if a == b then left else 0
    case Holding(b, left, _) => if a == b then left + 1 else 0
  }

  predicate Positive(t: Tick) { t.Idle? || t.left >= 0 }

  predicate Slots(max: int -> int, s: Sys, p: int, a: int)
    requires p in s.procs
  {
    && Inflight(s.procs[p], a) == |Running(s, p, a)|
    && Inflight(s.procs[p], a) + Open(s.procs[p].tick, a) <= max(a)
  }

  ghost predicate Inv(max: int -> int, s: Sys) {
    && (forall p | p in s.procs :: TickHolds(s, p) && Positive(s.procs[p].tick))
    && (forall e | e in s.execs :: Placed(s, e))
    && (forall p, a | p in s.procs :: Slots(max, s, p, a))
  }

  lemma SameRunning(s: Sys, t: Sys, p: int, a: int)
    requires forall e :: (e in s.execs && Counted(s.execs[e], p, a)) <==> (e in t.execs && Counted(t.execs[e], p, a))
    ensures Running(s, p, a) == Running(t, p, a)
  {
    forall e: int ensures e in Running(s, p, a) <==> e in Running(t, p, a) {}
  }

  /** The guard of the decrement never holds it back. */
  lemma DecrementIsTaken(max: int -> int, s: Sys, e: int)
    requires Inv(max, s) && HasPhase(s, e, Ended)
    ensures var x := s.execs[e]; x.proc in s.procs && Inflight(s.procs[x.proc], x.agent) > 0
  {
    var x := s.execs[e];
    assert Placed(s, e);
    assert Slots(max, s, x.proc, x.agent);
    assert e in Running(s, x.proc, x.agent);
  }

  lemma LeaveKeeps(max: int -> int, s: Sys, e: int)
    requires Inv(max, s) && HasPhase(s, e, Ended)
    ensures Inv(max, Apply(max, s, Leave(e)))
  {
    var t := Apply(max, s, Leave(e));
    var x := s.execs[e];
    DecrementIsTaken(max, s, e);
    forall f | f in t.execs ensures Placed(t, f) { assert Placed(s, f); }
    forall p | p in t.procs ensures TickHolds(t, p) && Positive(t.procs[p].tick) { assert TickHolds(s, p); }
    forall p, a | p in t.procs ensures Slots(max, t, p, a) {
      assert Slots(max, s, p, a);
      if p == x.proc && a == x.agent {
        assert Running(t, p, a) == Running(s, p, a) - {e};
      } else {
        SameRunning(s, t, p, a);
      }
    }
  }

  lemma LaunchKeeps(max: int -> int, s: Sys, p: int)
    requires Inv(max, s) && Enabled(s, Launch(p))
    ensures Inv(max, Apply(max, s, Launch(p)))
  {
    var t := Apply(max, s, Launch(p));
    var e := s.procs[p].tick.exec;
    assert TickHolds(s, p) && Positive(s.procs[p].tick);
    forall f | f in t.execs ensures Placed(t, f) { assert Placed(s, f); }
    forall q | q in t.procs ensures TickHolds(t, q) && Positive(t.procs[q].tick) { assert TickHolds(s, q); }
    forall q, a | q in t.procs ensures Slots(max, t, q, a) {
      assert Slots(max, s, q, a);
      if q == p && a == s.procs[p].tick.agent {
        assert Running(t, q, a) == Running(s, q, a) + {e};
        assert e !in Running(s, q, a);
      } else {
        SameRunning(s, t, q, a);
      }
    }
  }

  lemma ClaimKeeps(max: int -> int, s: Sys, p: int, e: int, id: int, locked: set<int>)
    requires Inv(max, s) && Enabled(s, Claim(p, e, id, locked))
    ensures Inv(max, Apply(max, s, Claim(p, e, id, locked)))
  {
    var t := Apply(max, s, Claim(p, e, id, locked));
    forall f | f in t.execs ensures Placed(t, f) {
      if f != e { assert Placed(s, f); }
    }
    forall q | q in t.procs ensures TickHolds(t, q) && Positive(t.procs[q].tick) { assert TickHolds(s, q); }
    forall q, a | q in t.procs ensures Slots(max, t, q, a) {
      assert Slots(max, s, q, a);
      SameRunning(s, t, q, a);
    }
  }

  lemma CrashKeeps(max: int -> int, s: Sys, p: int)
    requires Inv(max, s) && Enabled(s, Crash(p))
    ensures Inv(max, Apply(max, s, Crash(p)))
  {
    var t := Apply(max, s, Crash(p));
    forall f | f in t.execs ensures Placed(t, f) { assert Placed(s, f); }
    forall q | q in t.procs ensures TickHolds(t, q) && Positive(t.procs[q].tick) { assert TickHolds(s, q); }
    forall q, a | q in t.procs ensures Slots(max, t, q, a) {
      assert Slots(max, s, q, a);
      SameRunning(s, t, q, a);
    }
  }

  lemma BootKeeps(max: int -> int, s: Sys, p: int, worker: string)
    requires Inv(max, s) && Enabled(s, Boot(p, worker)) && forall a :: max(a) >= 0
    ensures Inv(max, Apply(max, s, Boot(p, worker)))
  {
    var t := Apply(max, s, Boot(p, worker));
    forall f | f in t.execs ensures Placed(t, f) && t.execs[f].proc != p { assert Placed(s, f); }
    forall q | q in t.procs ensures TickHolds(t, q) && Positive(t.procs[q].tick) {
      if q != p { assert TickHolds(s, q); }
    }
    forall q, a | q in t.procs ensures Slots(max, t, q, a) {
      if q == p {
        forall e: int ensures e !in Running(t, p, a) {}
      } else {
        assert Slots(max, s, q, a);
        SameRunning(s, t, q, a);
      }
    }
  }

  lemma BeginKeeps(max: int -> int, s: Sys, p: int, a: int)
    requires Inv(max, s) && Enabled(s, BeginAgent(p, a))
    ensures Inv(max, Apply(max, s, BeginAgent(p, a)))
  {
    var t := Apply(max, s, BeginAgent(p, a));
    assert Slots(max, s, p, a);
    forall f | f in t.execs ensures Placed(t, f) { assert Placed(s, f); }
    forall q | q in t.procs ensures TickHolds(t, q) && Positive(t.procs[q].tick) { assert TickHolds(s, q); }
    forall q, b | q in t.procs ensures Slots(max, t, q, b) {
      assert Slots(max, s, q, b);
      SameRunning(s, t, q, b);
    }
  }

  /** What an execution does between its launch and its end. */
  lemma ExecKeeps(max: int -> int, s: Sys, ev: Event)
    requires Inv(max, s) && Enabled(s, ev)
    requires ev.Mark? || ev.Beat? || ev.RunEnds? || ev.Write?
    ensures Inv(max, Apply(max, s, ev))
  {
    var t := Apply(max, s, ev);
    forall f | f in t.execs ensures Placed(t, f) { assert Placed(s, f); }
    forall q | q in t.procs ensures TickHolds(t, q) && Positive(t.procs[q].tick) { assert TickHolds(s, q); }
    forall q, a | q in t.procs ensures Slots(max, t, q, a) {
      assert Slots(max, s, q, a);
      SameRunning(s, t, q, a);
    }
  }

  /** Events that start and end no execution and count nothing. */
  lemma OtherKeeps(max: int -> int, s: Sys, ev: Event)
    requires Inv(max, s) && Enabled(s, ev)
    requires ev.Advance? || ev.Enqueue? || ev.RequestCancel? || ev.Recover? || ev.EndAgent?
    ensures Inv(max, Apply(max, s, ev))
  {
    var t := Apply(max, s, ev);
    forall f | f in t.execs ensures Placed(t, f) { assert Placed(s, f); }
    forall q | q in t.procs ensures TickHolds(t, q) && Positive(t.procs[q].tick) { assert TickHolds(s, q); }
    forall q, a | q in t.procs ensures Slots(max, t, q, a) {
      assert Slots(max, s, q, a);
      SameRunning(s, t, q, a);
    }
  }

  lemma InvStep(max: int -> int, s: Sys, ev: Event)
    requires Inv(max, s) && Enabled(s, ev) && forall a :: max(a) >= 0
    ensures Inv(max, Apply(max, s, ev))
  {
    hide *;
    match ev
    case Leave(e) => EndedToLeave(s, e); LeaveKeeps(max, s, e);
    case Launch(p) => LaunchKeeps(max, s, p);
    case Claim(p, e, id, locked) => ClaimKeeps(max, s, p, e, id, locked);
    case Crash(p) => CrashKeeps(max, s, p);
    case Boot(p, worker) => BootKeeps(max, s, p, worker);
    case BeginAgent(p, a) => BeginKeeps(max, s, p, a);
    case Mark(_, _) => ExecKeeps(max, s, ev);
    case Beat(_, _) => ExecKeeps(max, s, ev);
    case RunEnds(_) => ExecKeeps(max, s, ev);
    case Write(_, _, _, _) => ExecKeeps(max, s, ev);
    case _ => OtherKeeps(max, s, ev);
  }

  lemma EndedToLeave(s: Sys, e: int)
    requires Enabled(s, Leave(e))
    ensures HasPhase(s, e, Ended)
  {
  }

  lemma {:induction false} InvHolds(max: int -> int, ss: seq<Sys>, evs: seq<Event>, i: nat)
    requires Run(max, ss, evs) && i <= |evs| && forall a :: max(a) >= 0
    ensures Inv(max, ss[i])
    decreases i
  {
    if i > 0 {
      InvHolds(max, ss, evs, i - 1);
      InvStep(max, ss[i - 1], evs[i - 1]);
    }
  }

  /** In every state of every run: the count of each process and agent is the number of its
      counted executions and at most the agent's limit, a held execution included; a claim that was
      made can be launched, and a goroutine that ends always gives its slot back. */
  lemma CapacityHolds(max: int -> int, ss: seq<Sys>, evs: seq<Event>, i: nat)
    requires Run(max, ss, evs) && i <= |evs| && forall a :: max(a) >= 0
    ensures forall p, a | p in ss[i].procs :: Inflight(ss[i].procs[p], a) == |Running(ss[i], p, a)| <= max(a)
    ensures forall p | p in ss[i].procs && ss[i].procs[p].tick.Holding? :: Enabled(ss[i], Launch(p))
    ensures forall e | HasPhase(ss[i], e, Ended) ::
      var x := ss[i].execs[e]; x.proc in ss[i].procs && Inflight(ss[i].procs[x.proc], x.agent) > 0
  {
    InvHolds(max, ss, evs, i);
    forall p, a | p in ss[i].procs ensures Inflight(ss[i].procs[p], a) == |Running(ss[i], p, a)| <= max(a) {
      assert Slots(max, ss[i], p, a) && Positive(ss[i].procs[p].tick);
    }
    forall p | p in ss[i].procs && ss[i].procs[p].tick.Holding? ensures Enabled(ss[i], Launch(p)) {
      assert TickHolds(ss[i], p);
    }
    forall e | HasPhase(ss[i], e, Ended)
      ensures var x := ss[i].execs[e]; x.proc in ss[i].procs && Inflight(ss[i].procs[x.proc], x.agent) > 0
    {
      DecrementIsTaken(max, ss[i], e);
    }
  }
}
