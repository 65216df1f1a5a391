/** The history of claims: attempts count them, recoveries separate them, and an agent's rows are
    drained in order. */
module Claims {
  import opened Leases
  import opened Protocol
  import opened TaskQueue

  predicate IsClaimOf(ev: Event, id: int) { ev.Claim? && ev.id == id }

  function ClaimCount(evs: seq<Event>, id: int): nat {
    if evs == [] then 0
    else ClaimCount(evs[..|evs| - 1], id) + if IsClaimOf(evs[|evs| - 1], id) then 1 else 0
  }

  function AttemptsOf(t: Table, id: int): nat { if id in t then t[id].attempts else 0 }

  lemma AttemptsStep(max: int -> int, s: Sys, ev: Event, id: int)
    requires Enabled(s, ev)
    ensures AttemptsOf(Apply(max, s, ev).rows, id) == AttemptsOf(s.rows, id) + if IsClaimOf(ev, id) then 1 else 0
  {
  }

  /** The attempts of a row are the claims of it, in every run and with nothing assumed. */
  lemma {:induction false} AttemptsCountClaims(max: int -> int, ss: seq<Sys>, evs: seq<Event>, id: int)
    requires Run(max, ss, evs)
    ensures AttemptsOf(ss[|evs|].rows, id) == AttemptsOf(ss[0].rows, id) + ClaimCount(evs, id)
    decreases |evs|
  {
    if evs != [] {
      var n := |evs| - 1;
      RunPrefix(max, ss, evs);
      AttemptsCountClaims(max, ss[..n + 1], evs[..n], id);
      AttemptsStep(max, ss[n], evs[n], id);
    }
  }

  /** The event takes the row back. */
  predicate Recovers(s: Sys, ev: Event, id: int) {
    ev.Recover? && id in s.rows && Orphaned(s.rows[id], s.now, ev.timeout)
  }

  lemma StaysTaken(max: int -> int, s: Sys, ev: Event, id: int)
    requires Enabled(s, ev) && id in s.rows && s.rows[id].status != Pending && !Recovers(s, ev, id)
    ensures var t := Apply(max, s, ev); id in t.rows && t.rows[id].status != Pending && !IsClaimOf(ev, id)
  {
  }

  /** Between two claims of a row there is a recovery of it. */
  lemma ClaimsAreSeparated(max: int -> int, ss: seq<Sys>, evs: seq<Event>, i: nat, j: nat, id: int)
    requires Run(max, ss, evs) && i < j < |evs|
    requires IsClaimOf(evs[i], id) && IsClaimOf(evs[j], id)
    ensures exists k :: i < k < j && Recovers(ss[k], evs[k], id)
  {
    if forall k | i < k < j :: !Recovers(ss[k], evs[k], id) {
      TakenUntil(max, ss, evs, i, j, id);
      StaysTaken(max, ss[j], evs[j], id);
    }
  }

  lemma {:induction false} TakenUntil(max: int -> int, ss: seq<Sys>, evs: seq<Event>, i: nat, j: nat, id: int)
    requires Run(max, ss, evs) && i < j <= |evs| && IsClaimOf(evs[i], id)
    requires forall k | i < k < j :: !Recovers(ss[k], evs[k], id)
    ensures id in ss[j].rows && ss[j].rows[id].status != Pending
    decreases j
  {
    if j == i + 1 {
      assert ss[j] == Apply(max, ss[i], evs[i]);
    } else {
      TakenUntil(max, ss, evs, i, j - 1, id);
      StaysTaken(max, ss[j - 1], evs[j - 1], id);
    }
  }

  // ----- draining -----

  function Pendings(t: Table, agent: int): set<int> { set id | id in t && Claimable(t, {agent}, id) }

  /** The event puts something there for the agent to claim: a new row, or one taken back. */
  predicate Refills(s: Sys, ev: Event, agent: int) {
    || (ev.Enqueue? && ev.agent == agent)
    || (ev.Recover? && exists id | id in s.rows :: s.rows[id].agent == agent && Orphaned(s.rows[id], s.now, ev.timeout))
  }

  predicate Undisturbed(ss: seq<Sys>, evs: seq<Event>, agent: int, i: nat, j: nat)
    requires i <= j <= |evs| <= |ss|
  {
    forall k | i <= k < j :: !Refills(ss[k], evs[k], agent)
  }

  predicate ClaimsFor(s: Sys, ev: Event, agent: int) { ev.Claim? && ev.id in s.rows && s.rows[ev.id].agent == agent }

  predicate SameRank(a: Row, b: Row) { a.priority == b.priority && a.createdAt == b.createdAt }

  /** What is pending after an event that refills nothing was pending before it, and in the same
      place of the order. */
  lemma PendingBefore(max: int -> int, s: Sys, ev: Event, agent: int, id: int)
    requires Enabled(s, ev) && !Refills(s, ev, agent)
    requires id in Pendings(Apply(max, s, ev).rows, agent)
    ensures id in Pendings(s.rows, agent) && SameRank(s.rows[id], Apply(max, s, ev).rows[id])
  {
    var t := Apply(max, s, ev);
    assert Claimable(t.rows, {agent}, id);
    if ev.Recover? {
      assert t.rows[id] == RecoveredRow(s.rows[id], s.now, ev.timeout);
    }
  }

  lemma {:induction false} PendingSince(max: int -> int, ss: seq<Sys>, evs: seq<Event>, agent: int, i: nat, j: nat, id: int)
    requires Run(max, ss, evs) && i <= j <= |evs| && Undisturbed(ss, evs, agent, i, j)
    requires id in Pendings(ss[j].rows, agent)
    ensures id in Pendings(ss[i].rows, agent) && SameRank(ss[i].rows[id], ss[j].rows[id])
    decreases j
  {
    if i < j {
      PendingBefore(max, ss[j - 1], evs[j - 1], agent, id);
      PendingSince(max, ss, evs, agent, i, j - 1, id);
    }
  }

  lemma ClaimTakesPending(max: int -> int, s: Sys, ev: Event, agent: int)
    requires Enabled(s, ev) && ClaimsFor(s, ev, agent)
    ensures ev.id in Pendings(s.rows, agent) && ev.id !in Pendings(Apply(max, s, ev).rows, agent)
    ensures forall id | id in Pendings(s.rows, agent) && id !in ev.locked :: NotAfter(s.rows[ev.id], s.rows[id])
  {
    assert Claimable(s.rows, {s.procs[ev.proc].tick.agent}, ev.id);
  }

  /** Of two claims for the same agent the earlier one takes the row of higher priority, or the
      older one, whatever any daemon does in between, as long as nothing is enqueued for the agent or
      taken back, and the later row was not locked by someone else at the earlier claim. */
  lemma ClaimsAreInOrder(max: int -> int, ss: seq<Sys>, evs: seq<Event>, agent: int, i: nat, j: nat)
    requires Run(max, ss, evs) && i < j < |evs| && Undisturbed(ss, evs, agent, i, j)
    requires ClaimsFor(ss[i], evs[i], agent) && ClaimsFor(ss[j], evs[j], agent)
    requires evs[j].id !in evs[i].locked
    ensures evs[i].id in ss[i].rows && evs[j].id in ss[i].rows
    ensures evs[i].id != evs[j].id
    ensures
      var a, b := ss[i].rows[evs[i].id], ss[i].rows[evs[j].id];
      a.priority < b.priority || (a.priority == b.priority && a.createdAt <= b.createdAt)
  {
    ClaimTakesPending(max, ss[i], evs[i], agent);
    ClaimTakesPending(max, ss[j], evs[j], agent);
    PendingSince(max, ss, evs, agent, i + 1, j, evs[j].id);
    PendingSince(max, ss, evs, agent, i, j, evs[j].id);
  }

  /** In a safe state only a claim takes a pending row away. */
  lemma OnlyClaimsTake(max: int -> int, s: Sys, ev: Event, agent: int, id: int)
    requires Enabled(s, ev) && Safe(s) && id in Pendings(s.rows, agent) && !IsClaimOf(ev, id)
    ensures id in Pendings(Apply(max, s, ev).rows, agent)
  {
    assert Claimable(s.rows, {agent}, id);
    var t := Apply(max, s, ev);
    if ev.Mark? || ev.Beat? || ev.Write? {
      assert Owner(s, ev.exec);
    }
    if ev.Recover? {
      assert t.rows[id] == RecoveredRow(s.rows[id], s.now, ev.timeout);
    }
    assert Claimable(t.rows, {agent}, id);
  }

  /** The rows claimed for the agent from event `i` up to event `j`, in the order of the claims. */
  function ClaimedRows(ss: seq<Sys>, evs: seq<Event>, agent: int, i: nat, j: nat): seq<int>
    requires i <= j <= |evs| <= |ss|
  {
    if i == j then []
    else ClaimedRows(ss, evs, agent, i, j - 1) + if ClaimsFor(ss[j - 1], evs[j - 1], agent) then [evs[j - 1].id] else []
  }

  /** Every entry is one of the claims, and a later entry is a later claim. */
  lemma {:induction false} ClaimOf(ss: seq<Sys>, evs: seq<Event>, agent: int, i: nat, j: nat, x: nat, y: nat) returns (k: nat, m: nat)
    requires i <= j <= |evs| <= |ss| && x < y < |ClaimedRows(ss, evs, agent, i, j)|
    ensures i <= k < m < j && ClaimsFor(ss[k], evs[k], agent) && ClaimsFor(ss[m], evs[m], agent)
    ensures evs[k].id == ClaimedRows(ss, evs, agent, i, j)[x] && evs[m].id == ClaimedRows(ss, evs, agent, i, j)[y]
    decreases j
  {
    var init := ClaimedRows(ss, evs, agent, i, j - 1);
    if y < |init| {
      k, m := ClaimOf(ss, evs, agent, i, j - 1, x, y);
    } else {
      k := OneClaimOf(ss, evs, agent, i, j - 1, x);
      m := j - 1;
    }
  }

  lemma {:induction false} OneClaimOf(ss: seq<Sys>, evs: seq<Event>, agent: int, i: nat, j: nat, x: nat) returns (k: nat)
    requires i <= j <= |evs| <= |ss| && x < |ClaimedRows(ss, evs, agent, i, j)|
    ensures i <= k < j && ClaimsFor(ss[k], evs[k], agent) && evs[k].id == ClaimedRows(ss, evs, agent, i, j)[x]
    decreases j
  {
    if x < |ClaimedRows(ss, evs, agent, i, j - 1)| {
      k := OneClaimOf(ss, evs, agent, i, j - 1, x);
    } else {
      k := j - 1;
    }
  }

  /** Without a refill every row claimed for the agent was pending at the start. */
  lemma ClaimedWerePending(max: int -> int, ss: seq<Sys>, evs: seq<Event>, agent: int, i: nat, j: nat, x: nat)
    requires Run(max, ss, evs) && i <= j <= |evs| && Undisturbed(ss, evs, agent, i, j)
    requires x < |ClaimedRows(ss, evs, agent, i, j)|
    ensures ClaimedRows(ss, evs, agent, i, j)[x] in Pendings(ss[i].rows, agent)
  {
    var k := OneClaimOf(ss, evs, agent, i, j, x);
    ClaimTakesPending(max, ss[k], evs[k], agent);
    PendingSince(max, ss, evs, agent, i, k, evs[k].id);
  }

  /** No claim for the agent finds a row locked by someone else. */
  predicate Unlocked(ss: seq<Sys>, evs: seq<Event>, agent: int, i: nat, j: nat)
    requires i <= j <= |evs| <= |ss|
  {
    forall k | i <= k < j && ClaimsFor(ss[k], evs[k], agent) :: evs[k].locked == {}
  }

  /** Claims drain in order: without a refill the rows claimed for an agent are all different, were
      pending at the start, and come sorted by priority and age. */
  lemma DrainIsSorted(max: int -> int, ss: seq<Sys>, evs: seq<Event>, agent: int, i: nat, j: nat, x: nat, y: nat)
    requires Run(max, ss, evs) && i <= j <= |evs|
    requires Undisturbed(ss, evs, agent, i, j) && Unlocked(ss, evs, agent, i, j)
    requires x < y < |ClaimedRows(ss, evs, agent, i, j)|
    ensures var ids := ClaimedRows(ss, evs, agent, i, j);
      && ids[x] != ids[y]
      && ids[x] in Pendings(ss[i].rows, agent) && ids[y] in Pendings(ss[i].rows, agent)
      && var (a, b) := (ss[i].rows[ids[x]], ss[i].rows[ids[y]]);
         a.priority < b.priority || (a.priority == b.priority && a.createdAt <= b.createdAt)
  {
    var k, m := ClaimOf(ss, evs, agent, i, j, x, y);
    ClaimsAreInOrder(max, ss, evs, agent, k, m);
    ClaimTakesPending(max, ss[k], evs[k], agent);
    ClaimTakesPending(max, ss[m], evs[m], agent);
    PendingSince(max, ss, evs, agent, i, k, evs[k].id);
    PendingSince(max, ss, evs, agent, i, m, evs[m].id);
    PendingSince(max, ss, evs, agent, k, m, evs[m].id);
  }

  /** ... and, while the lease holds, what is pending at the end is exactly what was pending at the
      start and has not been claimed. */
  lemma {:induction false} DrainIsComplete(max: int -> int, ss: seq<Sys>, evs: seq<Event>, agent: int, i: nat, j: nat, id: int)
    requires Run(max, ss, evs) && LeaseHeld(ss, evs) && i <= j <= |evs| && Undisturbed(ss, evs, agent, i, j)
    ensures id in Pendings(ss[i].rows, agent)
      <==> id in Pendings(ss[j].rows, agent) || id in ClaimedRows(ss, evs, agent, i, j)
    ensures !(id in Pendings(ss[j].rows, agent) && id in ClaimedRows(ss, evs, agent, i, j))
    decreases j
  {
    if i < j {
      var s, ev := ss[j - 1], evs[j - 1];
      DrainIsComplete(max, ss, evs, agent, i, j - 1, id);
      LeaseSafety(max, ss, evs, i, j - 1);
      if id in Pendings(ss[j].rows, agent) {
        PendingBefore(max, s, ev, agent, id);
      }
      if ClaimsFor(s, ev, agent) {
        ClaimTakesPending(max, s, ev, agent);
      }
      if id in Pendings(s.rows, agent) && !IsClaimOf(ev, id) {
        OnlyClaimsTake(max, s, ev, agent, id);
      }
    }
  }

  /** The queue has no task left for the agent exactly when the claims took every row that was
      pending for it at the start. */
  lemma DrainedIff(max: int -> int, ss: seq<Sys>, evs: seq<Event>, agent: int, i: nat, j: nat)
    requires Run(max, ss, evs) && LeaseHeld(ss, evs) && i <= j <= |evs| && Undisturbed(ss, evs, agent, i, j)
    ensures NothingToClaim(ss[j].rows, {agent}, {})
      <==> forall id | id in Pendings(ss[i].rows, agent) :: id in ClaimedRows(ss, evs, agent, i, j)
  {
    forall id: int
      ensures id in Pendings(ss[i].rows, agent)
        <==> id in Pendings(ss[j].rows, agent) || id in ClaimedRows(ss, evs, agent, i, j)
      ensures !(id in Pendings(ss[j].rows, agent) && id in ClaimedRows(ss, evs, agent, i, j))
    {
      DrainIsComplete(max, ss, evs, agent, i, j, id);
    }
    if NothingToClaim(ss[j].rows, {agent}, {}) {
      assert forall id :: id !in Pendings(ss[j].rows, agent);
    }
    forall id | id in ss[j].rows && Claimable(ss[j].rows, {agent}, id) ensures id in Pendings(ss[j].rows, agent) {}
  }
}
