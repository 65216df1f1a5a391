/** Where the lease comes from: daemons that start, beat and finish in time, and an orphan timeout
    that leaves room for it. */
module Heartbeats {
  import opened Leases
  import opened Protocol
  import opened TaskQueue

  /** The event writes a heartbeat for the execution. */
  predicate Refreshes(ev: Event, e: int) {
    || (ev.Claim? && ev.exec == e)
    || (ev.Mark? && ev.exec == e && ev.ok)
    || (ev.Beat? && ev.exec == e && ev.ok)
  }

  predicate LiveIn(s: Sys, e: int) { e in s.execs && Live(s.execs[e]) }

  /** Event `k` refreshed the execution, which has been live ever since. */
  predicate RefreshedAt(ss: seq<Sys>, evs: seq<Event>, e: int, k: nat, i: nat)
    requires k < i < |ss| == |evs| + 1
  {
    Refreshes(evs[k], e) && forall m | k < m <= i :: LiveIn(ss[m], e)
  }

  /** Every live execution has refreshed its row within the last `gap`. */
  predicate Prompt(ss: seq<Sys>, evs: seq<Event>, i: nat, gap: int)
    requires i < |ss| == |evs| + 1
  {
    forall e | e in ss[i].execs && LiveIn(ss[i], e) ::
      exists k | 0 <= k < i :: RefreshedAt(ss, evs, e, k, i) && ss[i].now - ss[k].now <= gap
  }

  /** The heartbeat of the execution's row is not older than `h`. */
  predicate BeatSince(s: Sys, e: int, h: int)
    requires e in s.execs
  {
    var id := s.execs[e].task;
    id in s.rows && s.rows[id].heartbeatAt.Some? && s.rows[id].heartbeatAt.value >= h
  }

  lemma RefreshSets(max: int -> int, s: Sys, ev: Event, e: int)
    requires Enabled(s, ev) && Safe(s) && Refreshes(ev, e)
    requires LiveIn(Apply(max, s, ev), e)
    ensures BeatSince(Apply(max, s, ev), e, s.now) && s.now <= Apply(max, s, ev).now
  {
    if !ev.Claim? {
      assert Owner(s, e);
    }
  }

  /** No other event makes the heartbeat of a live execution older. */
  lemma BeatStays(max: int -> int, s: Sys, ev: Event, e: int, h: int)
    requires Enabled(s, ev) && Safe(s) && RecoversLeased(s, ev)
    requires LiveIn(s, e) && BeatSince(s, e, h) && h <= s.now
    requires LiveIn(Apply(max, s, ev), e)
    ensures BeatSince(Apply(max, s, ev), e, h) && h <= Apply(max, s, ev).now
  {
    assert Owner(s, e);
    if (ev.Mark? || ev.Beat? || ev.Write?) && ev.exec != e {
      assert Owner(s, ev.exec);
      assert s.execs[ev.exec].task != s.execs[e].task;
    }
  }

  lemma LastStep(max: int -> int, ss: seq<Sys>, evs: seq<Event>, e: int, k: nat, i: nat)
    requires Run(max, ss, evs) && k < i <= |evs| && RefreshedAt(ss, evs, e, k, i)
    ensures Enabled(ss[i - 1], evs[i - 1]) && ss[i] == Apply(max, ss[i - 1], evs[i - 1])
    ensures e in ss[i].execs && LiveIn(ss[i], e) && Refreshes(evs[k], e)
    ensures k < i - 1 ==> e in ss[i - 1].execs && LiveIn(ss[i - 1], e) && RefreshedAt(ss, evs, e, k, i - 1)
  {
  }

  lemma {:induction false} BeatLasts(max: int -> int, ss: seq<Sys>, evs: seq<Event>, e: int, k: nat, i: nat)
    requires Run(max, ss, evs) && k < i <= |evs| && RefreshedAt(ss, evs, e, k, i)
    requires forall m | k <= m < i :: Safe(ss[m]) && RecoversLeased(ss[m], evs[m])
    ensures BeatSince(ss[i], e, ss[k].now) && ss[k].now <= ss[i].now
    decreases i
  {
    hide *;
    RunLength(max, ss, evs);
    LastStep(max, ss, evs, e, k, i);
    if i == k + 1 {
      RefreshSets(max, ss[k], evs[k], e);
    } else {
      BeatLasts(max, ss, evs, e, k, i - 1);
      BeatStays(max, ss[i - 1], evs[i - 1], e, ss[k].now);
    }
  }

  /** Prompt heartbeats up to a recovery mean that the lease holds at it, and with it safety. */
  lemma {:induction false} PromptIsSafe(max: int -> int, ss: seq<Sys>, evs: seq<Event>, gap: int, i: nat)
    requires Run(max, ss, evs) && i <= |evs|
    requires forall m | 0 <= m < |evs| && evs[m].Recover? :: gap <= evs[m].timeout && Prompt(ss, evs, m, gap)
    ensures Safe(ss[i]) && (i < |evs| ==> RecoversLeased(ss[i], evs[i]))
    decreases i
  {
    if i > 0 {
      PromptIsSafe(max, ss, evs, gap, i - 1);
      StepIsSafe(max, ss[i - 1], evs[i - 1]);
    }
    if i < |evs| && evs[i].Recover? {
      forall m | 0 <= m < i ensures Safe(ss[m]) && RecoversLeased(ss[m], evs[m]) {
        PromptIsSafe(max, ss, evs, gap, m);
      }
      forall e | e in ss[i].execs && Live(ss[i].execs[e])
        ensures ss[i].execs[e].task in ss[i].rows && !Orphaned(ss[i].rows[ss[i].execs[e].task], ss[i].now, evs[i].timeout)
      {
        assert LiveIn(ss[i], e);
        var k :| 0 <= k < i && RefreshedAt(ss, evs, e, k, i) && ss[i].now - ss[k].now <= gap;
        BeatLasts(max, ss, evs, e, k, i);
      }
    }
  }

  /** The run of the execution ended at event `m`; its last refresh, before that, was event `k`. */
  predicate EndedAt(ss: seq<Sys>, evs: seq<Event>, e: int, k: nat, m: nat, i: nat)
    requires k < i < |ss| == |evs| + 1 && m < i
  {
    k < m && evs[m] == RunEnds(e) && RefreshedAt(ss, evs, e, k, i)
  }

  /** What the daemon does in time. Between its claim and its mark an execution does nothing but
      start, and that takes at most a latency. While its run lasts it beats, one interval and a
      latency apart; a run that was canceled beats no more and has to end within that time. Once
      the run is over no beat comes either, and the terminal write takes at most a latency. */
  predicate InTime(ss: seq<Sys>, evs: seq<Event>, e: int, i: nat, interval: int, latency: int)
    requires i < |ss| == |evs| + 1 && LiveIn(ss[i], e)
  {
    var phase := ss[i].execs[e].phase;
    if phase == Working then
      exists k | 0 <= k < i :: RefreshedAt(ss, evs, e, k, i) && ss[i].now - ss[k].now <= interval + latency
    else if phase == Finishing then
      exists k, m | 0 <= k < i && 0 <= m < i ::
        EndedAt(ss, evs, e, k, m, i) && ss[m].now - ss[k].now <= interval + latency && ss[i].now - ss[m].now <= latency
    else
      exists k | 0 <= k < i :: RefreshedAt(ss, evs, e, k, i) && ss[i].now - ss[k].now <= latency
  }

  lemma InTimeIsPrompt(ss: seq<Sys>, evs: seq<Event>, i: nat, interval: int, latency: int)
    requires i < |ss| == |evs| + 1 && interval >= 0 && latency >= 0
    requires forall e | e in ss[i].execs && LiveIn(ss[i], e) :: InTime(ss, evs, e, i, interval, latency)
    ensures Prompt(ss, evs, i, interval + 2 * latency)
  {
    hide RefreshedAt;
    forall e | e in ss[i].execs && LiveIn(ss[i], e)
      ensures exists k | 0 <= k < i :: RefreshedAt(ss, evs, e, k, i) && ss[i].now - ss[k].now <= interval + 2 * latency
    {
      assert InTime(ss, evs, e, i, interval, latency);
      if ss[i].execs[e].phase == Finishing {
        LastRefresh(ss, evs, e, i, interval, latency);
      }
    }
  }

  lemma LastRefresh(ss: seq<Sys>, evs: seq<Event>, e: int, i: nat, interval: int, latency: int)
    requires i < |ss| == |evs| + 1 && LiveIn(ss[i], e) && ss[i].execs[e].phase == Finishing
    requires InTime(ss, evs, e, i, interval, latency)
    ensures exists k | 0 <= k < i :: RefreshedAt(ss, evs, e, k, i) && ss[i].now - ss[k].now <= interval + 2 * latency
  {
    var k, m :| 0 <= k < i && 0 <= m < i && EndedAt(ss, evs, e, k, m, i)
      && ss[m].now - ss[k].now <= interval + latency && ss[i].now - ss[m].now <= latency;
    assert RefreshedAt(ss, evs, e, k, i);
  }

  /** Heartbeats hold the lease, if the orphan timeout leaves room for an interval and two latencies:
      one for the last heartbeat of a run and one for the terminal write after it. */
  lemma HeartbeatsHoldTheLease(max: int -> int, ss: seq<Sys>, evs: seq<Event>, interval: int, latency: int)
    requires Run(max, ss, evs) && interval >= 0 && latency >= 0
    requires forall m | 0 <= m < |evs| && evs[m].Recover? ::
      && interval + 2 * latency <= evs[m].timeout
      && forall e | e in ss[m].execs && LiveIn(ss[m], e) :: InTime(ss, evs, e, m, interval, latency)
    ensures LeaseHeld(ss, evs)
  {
    var gap := interval + 2 * latency;
    forall m | 0 <= m < |evs| && evs[m].Recover? ensures gap <= evs[m].timeout && Prompt(ss, evs, m, gap) {
      InTimeIsPrompt(ss, evs, m, interval, latency);
    }
    forall i | 0 <= i < |evs| && evs[i].Recover? ensures Leased(ss[i], evs[i].timeout) {
      PromptIsSafe(max, ss, evs, gap, i);
    }
  }
}
