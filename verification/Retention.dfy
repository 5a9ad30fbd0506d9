/**
 Sweeps on schedule: over a whole run of the protocol, no Failed lease outlives its failure by
 more than the retention period.
 */
module Retention {
  import opened Options
  import opened Durations
  import opened Objects
  import opened Protocol
  import opened Safety
  import opened History
  import opened Sweep

  // What one sweep achieves.

  /** With finalizers in place a sweep frees only GPUs of reclaimed Failed leases; an orphan keeps its own for now. */
  lemma FreesOnlyReclaimed(sweeper: Sweeper, mine: seq<string>, before: Leases, after: Leases)
    requires sweeper.Lists(mine, before) && sweeper.Through(mine, |mine|, before, after)
    requires forall n :: n in before ==> before[n].finalizer
    ensures forall k :: 0 <= k < |mine| ==>
      (mine[k] !in after <==> !before[mine[k]].deleting && Due(before[mine[k]], sweeper.clock(k), sweeper.Retention()))
    ensures forall n :: n in before && n !in after ==> n in mine
    ensures forall n :: n in after ==> n in before && after[n].spec == before[n].spec && after[n].finalizer
  {
    forall k | 0 <= k < |mine|
      ensures mine[k] !in after <==> !before[mine[k]].deleting && Due(before[mine[k]], sweeper.clock(k), sweeper.Retention())
      ensures mine[k] in after ==> after[mine[k]].spec == before[mine[k]].spec && after[mine[k]].finalizer
    {
      assert sweeper.Done(mine, k, before, after);
      assert Look(after, mine[k]).Some? <==> mine[k] in after;
    }
    forall n | n in after ensures n in before && after[n].spec == before[n].spec && after[n].finalizer {
      if n in mine {
        var k :| 0 <= k < |mine| && mine[k] == n;
      } else {
        assert Look(after, n) == Look(before, n);
      }
    }
  }

  /** A Failed lease the sweep of the Deployment looks after. */
  predicate Watched(l: Lease, deployment: PodKey) {
    l.spec.deployment == deployment && l.phase == Failed && !l.deleting
  }

  /** What a sweep begun at `start` leaves in the store is not due before the requeue it asked for. */
  ghost predicate InTime(leases: Leases, deployment: PodKey, retention: int, start: nat, requeue: int) {
    requeue > 0 && forall n :: n in leases && Watched(leases[n], deployment) ==> start + requeue <= FailedSince(leases[n]) + retention
  }

  /** The sweep keeps that promise, with its wait folded into whatever else asks for a requeue. */
  lemma SweepIsInTime(sweeper: Sweeper, mine: seq<string>, before: Leases, after: Leases, wait: int, other: int, start: nat)
    requires sweeper.Lists(mine, before) && sweeper.Through(mine, |mine|, before, after)
    requires sweeper.LeastWait(wait, mine, |mine|, before)
    requires other > 0 && forall k :: 0 <= k < |mine| ==> start <= sweeper.clock(k)
    ensures InTime(after, sweeper.deployment, sweeper.Retention(), start, MinPositive(other, wait))
  {
    var requeue := MinPositive(other, wait);
    forall n | n in after && Watched(after[n], sweeper.deployment)
      ensures start + requeue <= FailedSince(after[n]) + sweeper.Retention()
    {
      WaitsInTime(sweeper, mine, before, after, wait, n);
    }
  }

  lemma WaitsInTime(sweeper: Sweeper, mine: seq<string>, before: Leases, after: Leases, wait: int, n: string)
    requires sweeper.Lists(mine, before) && sweeper.Through(mine, |mine|, before, after)
    requires sweeper.LeastWait(wait, mine, |mine|, before)
    requires n in after && Watched(after[n], sweeper.deployment)
    ensures exists k :: 0 <= k < |mine| && 0 < wait <= FailedSince(after[n]) + sweeper.Retention() - sweeper.clock(k)
  {
    assert n !in mine ==> Look(after, n) == Look(before, n);
    var k :| 0 <= k < |mine| && mine[k] == n;
    assert sweeper.Done(mine, k, before, after);
    assert Look(after, n) == Some(after[n]);
    assert sweeper.WaitOf(mine, k, before) > 0;
  }

  // Whole runs.

  lemma NextTime(s: Sys, l: Label)
    requires Enabled(s, l)
    ensures Next(s, l).now >= s.now
  {
    match l
    case Work(start, r) => WorkTime(s, start, r);
    case PoolStep(c, r) => PoolTime(s, c, r);
    case Env(e) =>
  }

  lemma WorkTime(s: Sys, start: string, r: Reply)
    ensures WorkerNext(s, start, r).now == s.now
  {
    match s.worker
    case Idle =>
    case AddFinalizer(_) =>
    case GetWorkload(_) =>
    case CreateWorkload(_) =>
    case _ =>
  }

  lemma PoolTime(s: Sys, c: PoolCall, r: Reply)
    requires PoolEnabled(s, c)
    ensures PoolNext(s, c, r).now == s.now
  {
  }

  lemma {:induction false} TimePasses(run: Run, i: nat, j: nat)
    requires IsRun(run) && i <= j < |run.states|
    ensures run.states[i].now <= run.states[j].now
    decreases j - i
  {
    if i < j {
      TimePasses(run, i, j - 1);
      assert StepAt(run, j - 1);
      NextTime(run.states[j - 1], run.labels[j - 1]);
    }
  }

  /** A lease Failed at both ends of a stretch of the run is the same Failed lease, since the same time, throughout. */
  lemma FailedThroughout(run: Run, i: nat, p: nat, j: nat, n: string, uid: nat)
    requires IsRun(run) && i <= p <= j < |run.states|
    requires Alive(run, i, n, uid) && LeaseAt(run, i, n, uid).phase == Failed
    requires Alive(run, j, n, uid) && LeaseAt(run, j, n, uid).phase == Failed
    ensures Alive(run, p, n, uid) && LeaseAt(run, p, n, uid).phase == Failed
    ensures FailedSince(LeaseAt(run, p, n, uid)) == FailedSince(LeaseAt(run, j, n, uid))
    ensures LeaseAt(run, p, n, uid).spec == LeaseAt(run, j, n, uid).spec
    ensures LeaseAt(run, p, n, uid).deleting ==> LeaseAt(run, j, n, uid).deleting
  {
    PhasesMoveForward(run, i, j, n, uid);
    PhasesMoveForward(run, i, p, n, uid);
    PhasesMoveForward(run, p, j, n, uid);
    SameEntry(run, p, j, n, uid);
  }

  lemma SameEntry(run: Run, p: nat, j: nat, n: string, uid: nat)
    requires IsRun(run) && p <= j < |run.states|
    requires Alive(run, p, n, uid) && LeaseAt(run, p, n, uid).phase == Failed
    requires Alive(run, j, n, uid) && LeaseAt(run, j, n, uid).phase == Failed
    ensures FailedSince(LeaseAt(run, p, n, uid)) == FailedSince(LeaseAt(run, j, n, uid))
  {
    var e := FailedSinceIsEntry(run, p, n, uid);
    var f := FailedSinceIsEntry(run, j, n, uid);
    if f >= p {
      PhasesMoveForward(run, p, f, n, uid);
      PhasesMoveForward(run, f, j, n, uid);
    }
    assert e == f;
  }

  // Sweeps of a run.

  /** A sweep of the run: the states at which it began and ended, and the requeue it asked for. */
  datatype Visit = Visit(begin: nat, end: nat, requeue: int)

  /** No call of the pool fails; a refused update is a failure. */
  predicate Faultless(s: Sys, l: Label) {
    l.PoolStep? ==> l.pr.ok && (s.pool.PoolStrip? ==> Current(s, s.pool.l))
  }

  /** At step p of the sweep the lease is looked at, and its remaining wait taken into account; or it is on its way out already. */
  predicate LooksAt(run: Run, v: Visit, n: string, retention: nat, p: nat)
    requires p < |run.labels| && p < |run.states|
  {
    var s := run.states[p];
    || n !in s.leases
    || s.leases[n].deleting
    || (&& run.labels[p].PoolStep? && run.labels[p].c == BeginSweep(n, retention)
        && (var wait := Wait(s.leases[n], s.now, retention); wait > 0 ==> v.requeue <= wait))
  }

  /**
   A sweep over the Deployment's leases: without a failing call, it looks at every lease that was
   Failed when it began and is done with all of them when it ends. Others act all the while.
   */
  ghost predicate Sweeps(run: Run, v: Visit, deployment: PodKey, retention: nat)
    requires IsRun(run)
  {
    && v.begin <= v.end < |run.states| && v.requeue > 0 && run.states[v.end].pool.PoolIdle?
    && (forall i :: v.begin <= i < v.end ==> Faultless(run.states[i], run.labels[i]))
    && (forall n :: n in run.states[v.begin].leases && Watched(run.states[v.begin].leases[n], deployment) ==>
          exists p :: v.begin <= p < v.end && LooksAt(run, v, n, retention, p))
  }

  /** The pool is removing the lease. */
  predicate Removing(pool: Pool, n: string) {
    (pool.PoolStrip? && pool.l.name == n) || pool == PoolDelete(n)
  }

  predicate OnItsWayOut(s: Sys, n: string) {
    n !in s.leases || s.leases[n].deleting
  }

  /** One step of a removal: it goes on, or the lease is on its way out. */
  lemma RemovalStep(s: Sys, l: Label, n: string)
    requires Inv(s) && Enabled(s, l) && Faultless(s, l) && Removing(s.pool, n)
    ensures Removing(Next(s, l).pool, n) || OnItsWayOut(Next(s, l), n)
  {
    match l
    case Work(start, r) => WorkerSound(s, start, r);
    case Env(e) => EnvSound(s, e);
    case PoolStep(c, r) =>
  }

  /** A removal that is done by `end`, without a failing call, has put the lease on its way out. */
  lemma {:induction false} Removes(run: Run, i: nat, end: nat, n: string) returns (d: nat)
    requires IsRun(run) && i <= end < |run.states| && Removing(run.states[i].pool, n) && run.states[end].pool.PoolIdle?
    requires forall j :: i <= j < end ==> Faultless(run.states[j], run.labels[j])
    ensures i < d <= end && OnItsWayOut(run.states[d], n)
    decreases end - i
  {
    RunInv(run, i);
    assert StepAt(run, i);
    RemovalStep(run.states[i], run.labels[i], n);
    if OnItsWayOut(run.states[i + 1], n) { d := i + 1; } else { d := Removes(run, i + 1, end, n); }
  }

  /** A due lease that is looked at is being removed from then on. */
  lemma DueIsRemoved(run: Run, p: nat, n: string, retention: nat)
    requires IsRun(run) && p < |run.labels| && run.labels[p].PoolStep? && run.labels[p].c == BeginSweep(n, retention)
    requires n in run.states[p].leases && Due(run.states[p].leases[n], run.states[p].now, retention)
    ensures Removing(run.states[p + 1].pool, n)
  {
    RunInv(run, p);
    assert StepAt(run, p);
    assert LeaseOk(run.states[p].rev, n, run.states[p].leases[n]);
  }

  /** The lease, in this incarnation, was Failed when the sweep began. */
  predicate FailedAt(run: Run, i: nat, n: string, uid: nat)
    requires i < |run.states|
  {
    Alive(run, i, n, uid) && LeaseAt(run, i, n, uid).phase == Failed
  }

  /** What a lease's look decides: it is gone by the end of the sweep, or not due before the requeue. */
  lemma LookedAtInTime(run: Run, v: Visit, deployment: PodKey, retention: nat, n: string, p: nat)
    requires IsRun(run) && Sweeps(run, v, deployment, retention) && v.begin <= p < v.end && LooksAt(run, v, n, retention, p)
    requires n in run.states[v.end].leases && Watched(run.states[v.end].leases[n], deployment)
    requires FailedAt(run, v.begin, n, run.states[v.end].leases[n].uid)
    ensures run.states[v.begin].now + v.requeue <= FailedSince(run.states[v.end].leases[n]) + retention
  {
    var l := run.states[v.end].leases[n];
    FailedThroughout(run, v.begin, p, v.end, n, l.uid);
    TimePasses(run, v.begin, p);
    if Due(run.states[p].leases[n], run.states[p].now, retention) {
      DueIsRemoved(run, p, n, retention);
      var d := Removes(run, p + 1, v.end, n);
      FailedThroughout(run, v.begin, d, v.end, n, l.uid);
    }
  }

  /**
   Whatever the other actors do meanwhile, no lease that such a sweep found Failed and leaves behind
   falls due before the requeue.
   */
  lemma SweepsInTime(run: Run, v: Visit, deployment: PodKey, retention: nat, n: string)
    requires IsRun(run) && Sweeps(run, v, deployment, retention)
    requires n in run.states[v.end].leases && Watched(run.states[v.end].leases[n], deployment)
    requires FailedAt(run, v.begin, n, run.states[v.end].leases[n].uid)
    ensures run.states[v.begin].now + v.requeue <= FailedSince(run.states[v.end].leases[n]) + retention
  {
    FailedThroughout(run, v.begin, v.begin, v.end, n, run.states[v.end].leases[n].uid);
    var p :| v.begin <= p < v.end && LooksAt(run, v, n, retention, p);
    LookedAtInTime(run, v, deployment, retention, n, p);
  }

  /**
   The next sweep begins no later than the requeue asked for, counted from the beginning of the sweep
   that asked, and `late`: what that sweep took, and any delay after it.
   */
  predicate OnTime(run: Run, v: Visit, w: Visit, late: nat) {
    && v.begin <= v.end <= w.begin < |run.states|
    && run.states[w.begin].now <= run.states[v.begin].now + v.requeue + late
  }

  /** Between two sweeps, a Failed lease that is past its time can only have failed since the earlier of them began. */
  lemma NotOverdue(run: Run, v: Visit, w: Visit, deployment: PodKey, retention: nat, late: nat, k: nat, n: string)
    requires IsRun(run) && Sweeps(run, v, deployment, retention) && OnTime(run, v, w, late)
    requires v.end <= k <= w.begin && n in run.states[k].leases && Watched(run.states[k].leases[n], deployment)
    ensures var l := run.states[k].leases[n];
      run.states[k].now <= FailedSince(l) + retention + late || !FailedAt(run, v.begin, n, l.uid)
  {
    var l := run.states[k].leases[n];
    if FailedAt(run, v.begin, n, l.uid) {
      FailedThroughout(run, v.begin, v.end, k, n, l.uid);
      SweepsInTime(run, v, deployment, retention, n);
      TimePasses(run, k, w.begin);
    }
  }

  /** The step that made the lease as it is at k Failed. */
  predicate Fails(run: Run, entry: nat, k: nat, n: string)
    requires IsRun(run) && k < |run.states| && n in run.states[k].leases
  {
    var uid := run.states[k].leases[n].uid;
    && entry < k && Alive(run, entry, n, uid) && run.states[entry].leases[n].phase != Failed
    && forall j :: entry < j <= k ==> Alive(run, j, n, uid) && run.states[j].leases[n].phase == Failed
  }

  /** At k, between two sweeps on schedule, a lease is Failed and not being deleted. */
  ghost predicate Between(run: Run, v: Visit, w: Visit, deployment: PodKey, retention: nat, late: nat, k: nat, n: string) {
    && IsRun(run) && Sweeps(run, v, deployment, retention) && OnTime(run, v, w, late)
    && v.end <= k <= w.begin && n in run.states[k].leases && Watched(run.states[k].leases[n], deployment)
  }

  /** The lease has outlived the step that failed it by more than the retention period and the lateness of the sweep. */
  ghost predicate Overdue(run: Run, k: nat, n: string, limit: nat)
    requires IsRun(run) && k < |run.states| && n in run.states[k].leases
  {
    exists entry: nat :: Fails(run, entry, k, n) && run.states[k].now > run.states[entry].now + limit
  }

  /**
   With a requeue no longer than the retention period, no Failed lease that is not being deleted is in
   the store later than the step that failed it, the retention period and the lateness of the sweep.
   */
  lemma ReclaimedOnTime(run: Run, v: Visit, w: Visit, deployment: PodKey, retention: nat, late: nat, k: nat, n: string) returns (entry: nat)
    requires Between(run, v, w, deployment, retention, late, k, n) && v.requeue <= retention
    ensures Fails(run, entry, k, n) && run.states[k].now <= run.states[entry].now + retention + late
  {
    var l := run.states[k].leases[n];
    entry := FailedSinceIsEntry(run, k, n, l.uid);
    NotOverdue(run, v, w, deployment, retention, late, k, n);
    TimePasses(run, k, w.begin);
    if entry >= v.begin { TimePasses(run, v.begin, entry); }
  }

  lemma NeverOverdue(run: Run, v: Visit, w: Visit, deployment: PodKey, retention: nat, late: nat, k: nat, n: string)
    requires Between(run, v, w, deployment, retention, late, k, n) && v.requeue <= retention
    ensures !Overdue(run, k, n, retention + late)
  {
    var entry := ReclaimedOnTime(run, v, w, deployment, retention, late, k, n);
    forall e: nat | Fails(run, e, k, n) ensures e == entry {
    }
  }
}
