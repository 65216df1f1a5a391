/** Daemons, their tick loops and their execute goroutines, interleaved with the statements on the
    shared table, crashes, restarts and the clock. Every event is one atomic step. */
module Protocol {
  import opened TaskQueue

  /** Where an execution is: claimed but not launched yet; launched; marked running (its heartbeat
      goroutine is up); the run over and the terminal write due; the write attempted. */
  datatype Phase = Held | Launched | Working | Finishing | Ended

  datatype Exec = Exec(proc: int, worker: string, task: int, agent: int, phase: Phase)

  /** Where a tick loop is: between agents; with a number of claims left for an agent; or with a
      claimed task in hand that is not counted yet. */
  datatype Tick = Idle | Claiming(agent: int, left: int) | Holding(agent: int, left: int, exec: int)

  datatype Proc = Proc(worker: string, recovered: bool, tick: Tick, inflight: map<int, nat>)

  datatype Sys = Sys(rows: Table, now: int, execs: map<int, Exec>, procs: map<int, Proc>)

  datatype Event =
    | Advance(to: int)
    | Enqueue(id: int, agent: int, prompt: string, priority: int)
    | RequestCancel(id: int)
    | Boot(proc: int, worker: string)
    | Recover(proc: int, timeout: int)
    | BeginAgent(proc: int, agent: int)
    | Claim(proc: int, exec: int, id: int, locked: set<int>)
    | EndAgent(proc: int)
    | Launch(proc: int)
    | Mark(exec: int, ok: bool)
    | Beat(exec: int, ok: bool)
    | RunEnds(exec: int)
    | Write(exec: int, run: RunResult, canceled: bool, ok: bool)
    | Leave(exec: int)
    | Crash(proc: int)

  function Inflight(p: Proc, agent: int): nat {
    if agent in p.inflight then p.inflight[agent] else 0
  }

  predicate HasPhase(s: Sys, e: int, phase: Phase) { e in s.execs && s.execs[e].phase == phase }

  predicate Enabled(s: Sys, ev: Event) {
    match ev
    case Advance(to) => to >= s.now
    case Enqueue(id, _, _, _) => id !in s.rows
    case RequestCancel(_) => true
    case Boot(p, _) => p !in s.procs
    case Recover(p, _) => p in s.procs && !s.procs[p].recovered
    case BeginAgent(p, _) => p in s.procs && s.procs[p].recovered && s.procs[p].tick.Idle?
    case Claim(p, e, id, locked) =>
      && p in s.procs && e !in s.execs
      && s.procs[p].tick.Claiming? && s.procs[p].tick.left > 0
      && Next(s.rows, {s.procs[p].tick.agent}, locked, id)
    case EndAgent(p) => p in s.procs && s.procs[p].tick.Claiming?
    case Launch(p) => p in s.procs && s.procs[p].tick.Holding? && HasPhase(s, s.procs[p].tick.exec, Held)
    case Mark(e, _) => HasPhase(s, e, Launched)
    case Beat(e, _) => HasPhase(s, e, Working)
    case RunEnds(e) => HasPhase(s, e, Working)
    case Write(e, _, _, _) => HasPhase(s, e, Finishing)
    case Leave(e) => HasPhase(s, e, Ended)
    case Crash(p) => p in s.procs
  }

  function WithProc(s: Sys, p: int, proc: Proc): Sys { s.(procs := s.procs[p := proc]) }

  function InPhase(s: Sys, e: int, phase: Phase): Sys
    requires e in s.execs
  {
    s.(execs := s.execs[e := s.execs[e].(phase := phase)])
  }

  function WithoutProc(execs: map<int, Exec>, p: int): map<int, Exec> {
    map e | e in execs && execs[e].proc != p :: execs[e]
  }

  function Decremented(p: Proc, agent: int): Proc {
    if Inflight(p, agent) > 0 then p.(inflight := p.inflight[agent := Inflight(p, agent) - 1]) else p
  }

  function LaunchStep(s: Sys, p: int): Sys
    requires p in s.procs && s.procs[p].tick.Holding? && s.procs[p].tick.exec in s.execs
  {
    var q := s.procs[p];
    var a := q.tick.agent;
    InPhase(WithProc(s, p, q.(tick := Claiming(a, q.tick.left), inflight := q.inflight[a := Inflight(q, a) + 1])),
      q.tick.exec, Launched)
  }

  function ClaimStep(s: Sys, p: int, e: int, id: int): Sys
    requires p in s.procs && s.procs[p].tick.Claiming? && id in s.rows
  {
    var q := s.procs[p];
    var a := q.tick.agent;
    WithProc(s, p, q.(tick := Holding(a, q.tick.left - 1, e)))
      .(rows := s.rows[id := ClaimedRow(s.rows[id], q.worker, s.now)],
        execs := s.execs[e := Exec(p, q.worker, id, a, Held)])
  }

  function LeaveStep(s: Sys, e: int): Sys
    requires e in s.execs
  {
    var x := s.execs[e];
    var t := s.(execs := s.execs - {e});
    if x.proc in s.procs then WithProc(t, x.proc, Decremented(s.procs[x.proc], x.agent)) else t
  }

  /** `max` is the number of tasks an agent may run at a time. */
  function Apply(max: int -> int, s: Sys, ev: Event): Sys
    requires Enabled(s, ev)
  {
    match ev
    case Advance(to) => s.(now := to)
    case Enqueue(id, agent, prompt, priority) => s.(rows := s.rows[id := NewRow(agent, prompt, priority, s.now)])
    case RequestCancel(id) => s.(rows := CancelFlagged(s.rows, id))
    case Boot(p, worker) => WithProc(s, p, Proc(worker, false, Idle, map[]))
    case Recover(p, timeout) =>
      WithProc(s, p, s.procs[p].(recovered := true)).(rows := Recovered(s.rows, s.now, timeout))
    case BeginAgent(p, a) => WithProc(s, p, s.procs[p].(tick := Claiming(a, max(a) - Inflight(s.procs[p], a))))
    case Claim(p, e, id, _) => ClaimStep(s, p, e, id)
    case EndAgent(p) => WithProc(s, p, s.procs[p].(tick := Idle))
    case Launch(p) => LaunchStep(s, p)
    case Mark(e, ok) =>
      InPhase(if ok then s.(rows := Marked(s.rows, s.execs[e].task, s.now)) else s, e, Working)
    case Beat(e, ok) =>
      if ok then s.(rows := Beaten(s.rows, s.execs[e].task, s.execs[e].worker, s.now)) else s
    case RunEnds(e) => InPhase(s, e, Finishing)
    case Write(e, run, canceled, ok) =>
      InPhase(if ok then s.(rows := TaskQueue.Written(s.rows, s.execs[e].task, run, canceled, s.now)) else s, e, Ended)
    case Leave(e) => LeaveStep(s, e)
    case Crash(p) => s.(procs := s.procs - {p}, execs := WithoutProc(s.execs, p))
  }

  /** A run: it starts with no process, on any table, and every event is enabled when it happens. */
  predicate Run(max: int -> int, ss: seq<Sys>, evs: seq<Event>) {
    && |ss| == |evs| + 1
    && ss[0].execs == map[] && ss[0].procs == map[]
    && forall i | 0 <= i < |evs| :: Enabled(ss[i], evs[i]) && ss[i + 1] == Apply(max, ss[i], evs[i])
  }

  lemma RunLength(max: int -> int, ss: seq<Sys>, evs: seq<Event>)
    requires Run(max, ss, evs)
    ensures |ss| == |evs| + 1
  {
    hide Apply, Enabled;
  }

  lemma RunStep(max: int -> int, ss: seq<Sys>, evs: seq<Event>, i: nat)
    requires Run(max, ss, evs) && i < |evs|
    ensures |ss| == |evs| + 1 && Enabled(ss[i], evs[i]) && ss[i + 1] == Apply(max, ss[i], evs[i])
  {
    hide Apply, Enabled;
  }

  lemma RunPrefix(max: int -> int, ss: seq<Sys>, evs: seq<Event>)
    requires Run(max, ss, evs) && evs != []
    ensures Run(max, ss[..|evs|], evs[..|evs| - 1])
    ensures Enabled(ss[|evs| - 1], evs[|evs| - 1]) && ss[|evs|] == Apply(max, ss[|evs| - 1], evs[|evs| - 1])
  {
  }
}
