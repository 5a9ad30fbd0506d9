/**
 The WarmPool reconciler's sweep over the leases of its Deployment: leases whose claim is no
 longer valid are deleted, Failed leases are reclaimed once they have been Failed for the
 retention period, and the next reconcile is asked for in time for the next reclaim.
 */
module Sweep {
  import opened Options
  import opened Calls
  import opened Durations
  import opened Objects

  const DEFAULT_RETENTION: nat := 60 * SECOND

  type Leases = map<string, Lease>

  function Look(leases: Leases, n: string): Option<Lease> {
    if n in leases then Some(leases[n]) else None
  }

  /** Failed for at least the retention period at time t. */
  predicate Due(l: Lease, t: nat, retention: int) {
    l.phase == Failed && t - FailedSince(l) >= retention
  }

  /** How long a Failed lease still has to stay; 0 if it is not waiting. */
  function Wait(l: Lease, t: nat, retention: int): (w: int)
    ensures w > 0 ==> l.phase == Failed && !l.deleting && t + w == FailedSince(l) + retention
    ensures w >= 0 && (w == 0 && l.phase == Failed && !l.deleting ==> Due(l, t, retention))
  {
    if !l.deleting && l.phase == Failed && !Due(l, t, retention) then retention - (t - FailedSince(l)) else 0
  }

  /** Deleted: marked while the finalizer is there, gone otherwise. */
  predicate IsDeleted(l: Lease, after: Option<Lease>) {
    if l.finalizer then after.Some? && after.value == l.(deleting := true, rv := after.value.rv) else after.None?
  }

  /** What the sweep owes a lease of the Deployment, looked at at time t; `valid` says its claim is. */
  predicate Fate(l: Lease, valid: bool, t: nat, retention: int, after: Option<Lease>) {
    if l.deleting then after == Some(l)
    else if valid then
      (after.None? <==> Due(l, t, retention)) && (after.Some? ==> after.value == l)
    else if Due(l, t, retention) then after.None?
    else IsDeleted(l, after)
  }

  /** A sweep cut short by a failing call may have got as far as the finalizer of a lease that is due. */
  predicate Stripped(l: Lease, t: nat, retention: int, after: Option<Lease>) {
    !l.deleting && Due(l, t, retention) && after.Some? && after.value == l.(finalizer := false, rv := after.value.rv)
  }

  class Sweeper {
    const deployment: PodKey
    const configured: int                  // the retention setting
    const pods: map<PodKey, Pod>
    const selected: PodKey -> bool         // the Deployment's selector
    const clock: nat -> nat                // the time at which the i-th lease is looked at
    const fate: nat -> Ending              // how call k ends
    var calls: nat
    var rev: nat
    var leases: Leases

    constructor (deployment: PodKey, configured: int, pods: map<PodKey, Pod>, selected: PodKey -> bool,
                 clock: nat -> nat, fate: nat -> Ending, rev: nat, leases: Leases)
      ensures this.deployment == deployment && this.configured == configured && this.pods == pods
      ensures this.selected == selected && this.clock == clock && this.fate == fate
      ensures this.rev == rev && this.leases == leases
    {
      this.deployment, this.configured, this.pods, this.selected := deployment, configured, pods, selected;
      this.clock, this.fate, this.rev, this.leases, calls := clock, fate, rev, leases, 0;
    }

    function Retention(): int {
      OrDefault(configured, DEFAULT_RETENTION)
    }

    /** The claimed pod is there, is the one meant, is up, is selected and is on the lease's node. */
    predicate Valid(l: Lease) {
      var key := l.spec.claim.pod;
      && key in pods && ClaimMatches(l.spec.claim, pods[key].uid)
      && pods[key].ready && !pods[key].terminating && selected(key) && pods[key].node == l.spec.node
    }

    /** All of the Deployment's leases, each once. */
    ghost predicate Lists(mine: seq<string>, store: Leases) {
      && (forall n :: n in mine <==> n in store && store[n].spec.deployment == deployment)
      && forall i, j :: 0 <= i < j < |mine| ==> mine[i] != mine[j]
    }

    method Call() returns (ok: bool)
      modifies `calls
      ensures ok == fate(old(calls)).Answered?
    {
      ok := fate(calls).Answered?;
      calls := calls + 1;
    }

    method LeasesForDeployment() returns (ok: bool, mine: seq<string>)
      modifies `calls
      ensures (forall k :: fate(k).Answered?) ==> ok
      ensures Lists(mine, leases)
    {
      ok := Call();
      mine := [];
      var rest := leases.Keys;
      while rest != {}
        invariant rest <= leases.Keys && forall n :: n in mine ==> n !in rest
        invariant forall n :: n in mine <==> n in leases && n !in rest && leases[n].spec.deployment == deployment
        invariant forall i, j :: 0 <= i < j < |mine| ==> mine[i] != mine[j]
        decreases |rest|
      {
        var n :| n in rest;
        rest := rest - {n};
        if leases[n].spec.deployment == deployment {
          mine := mine + [n];
        }
      }
    }

    /** Delete: NotFound is success; a call whose answer is lost may have deleted the lease. */
    method Delete(n: string) returns (ok: bool)
      modifies `calls, `leases, `rev
      ensures (forall k :: fate(k).Answered?) ==> ok
      ensures forall m :: m != n ==> Look(leases, m) == Look(old(leases), m)
      ensures n in old(leases) && !old(leases)[n].deleting ==>
        IsDeleted(old(leases)[n], Look(leases, n)) || (!ok && leases == old(leases))
    {
      var k := calls;
      ok := Call();
      if fate(k).Effective() && n in leases && !leases[n].deleting {
        rev := rev + 1;
        if leases[n].finalizer {
          leases := leases[n := leases[n].(deleting := true, rv := rev)];
        } else {
          leases := leases - {n};
        }
      }
    }

    /** Nothing but what a lease's state at time t called for has happened to it, whether or not the sweep got to its end. */
    ghost predicate NoMore(l: Lease, t: nat, after: Option<Lease>) {
      after == Some(l) || Fate(l, Valid(l), t, Retention(), after) || Stripped(l, t, Retention(), after)
    }

    /** The update that strips the finalizer. */
    method Strip(n: string) returns (ok: bool)
      requires n in leases
      modifies `calls, `leases, `rev
      ensures (forall k :: fate(k).Answered?) ==> ok
      ensures forall m :: m != n ==> Look(leases, m) == Look(old(leases), m)
      ensures n in leases && (leases[n] == old(leases)[n].(finalizer := false, rv := leases[n].rv) || (!ok && leases == old(leases)))
    {
      var k := calls;
      ok := Call();
      if fate(k).Effective() {
        rev := rev + 1;
        leases := leases[n := leases[n].(finalizer := false, rv := rev)];
      }
    }

    /** Reclaims a Failed lease that is due, without waiting for its own reconciler; or says when it will be. */
    method ReclaimFailedLease(n: string, t: nat) returns (ok: bool, deleted: bool, retryAfter: int)
      requires n in leases && leases[n].phase == Failed && !leases[n].deleting
      modifies `calls, `leases, `rev
      ensures (forall k :: fate(k).Answered?) ==> ok
      ensures forall m :: m != n ==> Look(leases, m) == Look(old(leases), m)
      ensures ok ==> (deleted <==> Due(old(leases)[n], t, Retention())) && retryAfter == Wait(old(leases)[n], t, Retention())
      ensures deleted ==> ok && n !in leases
      ensures NoMore(old(leases)[n], t, Look(leases, n))
      ensures ok && !deleted ==> leases == old(leases)
    {
      var l := leases[n];
      var age := t - FailedSince(l);
      if age < Retention() {
        return true, false, Retention() - age;
      }
      if l.finalizer {
        ok := Strip(n);
        if !ok {
          return false, false, 0;
        }
      }
      ok := Delete(n);
      return ok, ok, 0;
    }

    /** The identity rules, with the claim pod as read. */
    method IsOrphan(l: Lease) returns (ok: bool, orphan: bool)
      modifies `calls
      ensures (forall k :: fate(k).Answered?) ==> ok
      ensures ok ==> (orphan <==> !Valid(l))
    {
      ok := Call();
      var key := l.spec.claim.pod;
      var pod := if key in pods then Some(pods[key]) else None;
      orphan := OrphanReason(pod, l, selected(key)).Some?;
    }

    method SweepOne(n: string, t: nat) returns (ok: bool, wait: int)
      requires n in leases
      modifies `calls, `leases, `rev
      ensures (forall k :: fate(k).Answered?) ==> ok
      ensures forall m :: m != n ==> Look(leases, m) == Look(old(leases), m)
      ensures NoMore(old(leases)[n], t, Look(leases, n))
      ensures ok ==> wait == Wait(old(leases)[n], t, Retention()) && Fate(old(leases)[n], Valid(old(leases)[n]), t, Retention(), Look(leases, n))
    {
      var l := leases[n];
      if l.deleting {
        return true, 0;
      }
      wait := 0;
      if l.phase == Failed {
        var deleted;
        ok, deleted, wait := ReclaimFailedLease(n, t);
        if !ok || deleted {
          return ok, wait;
        }
      }
      var orphan;
      ok, orphan := IsOrphan(l);
      if ok && orphan {
        ok := Delete(n);
      }
    }

    /** The k-th lease of the Deployment has got what it was owed. */
    ghost predicate Done(mine: seq<string>, k: nat, before: Leases, after: Leases)
      requires k < |mine|
    {
      mine[k] in before && Fate(before[mine[k]], Valid(before[mine[k]]), clock(k), Retention(), Look(after, mine[k]))
    }

    /** The first i leases are done, the others and all of other Deployments are as they were. */
    ghost predicate Through(mine: seq<string>, i: nat, before: Leases, after: Leases) {
      && i <= |mine|
      && (forall n :: n !in mine ==> Look(after, n) == Look(before, n))
      && (forall k :: i <= k < |mine| ==> Look(after, mine[k]) == Look(before, mine[k]))
      && (forall k :: 0 <= k < i ==> Done(mine, k, before, after))
    }

    lemma ThroughOneMore(mine: seq<string>, i: nat, before: Leases, mid: Leases, after: Leases)
      requires Lists(mine, before) && Through(mine, i, before, mid) && i < |mine|
      requires forall m :: m != mine[i] ==> Look(after, m) == Look(mid, m)
      requires Done(mine, i, before, after)
      ensures Through(mine, i + 1, before, after)
    {
      forall k | 0 <= k < i ensures Done(mine, k, before, after) {
        assert Done(mine, k, before, mid);
        assert mine[k] != mine[i];
      }
    }

    ghost function WaitOf(mine: seq<string>, k: nat, before: Leases): int
      requires k < |mine|
    {
      if mine[k] in before then Wait(before[mine[k]], clock(k), Retention()) else 0
    }

    /** The least wait among the first i leases, or 0 if none waits. */
    ghost predicate LeastWait(w: int, mine: seq<string>, i: nat, before: Leases) {
      && i <= |mine| && w >= 0
      && (forall k :: 0 <= k < i && WaitOf(mine, k, before) > 0 ==> 0 < w <= WaitOf(mine, k, before))
      && (w > 0 ==> exists k :: 0 <= k < i && w == WaitOf(mine, k, before))
    }

    lemma LeastWaitOneMore(w: int, mine: seq<string>, i: nat, before: Leases)
      requires i < |mine| && LeastWait(w, mine, i, before)
      ensures var wait := WaitOf(mine, i, before);
        LeastWait(if wait > 0 then MinPositive(w, wait) else w, mine, i + 1, before)
    {
      if w > 0 {
        var k :| 0 <= k < i && w == WaitOf(mine, k, before);
      }
    }

    ghost predicate NoMoreOf(mine: seq<string>, before: Leases, after: Leases) {
      && (forall n :: n !in mine ==> Look(after, n) == Look(before, n))
      && forall k :: 0 <= k < |mine| && mine[k] in before ==> NoMore(before[mine[k]], clock(k), Look(after, mine[k]))
    }

    /** Stopped after the first i leases and something done to the next one, if it was not the end. */
    lemma CutShort(mine: seq<string>, i: nat, before: Leases, mid: Leases, after: Leases)
      requires Lists(mine, before) && Through(mine, i, before, mid)
      requires if i == |mine| then after == mid else
        && (forall m :: m != mine[i] ==> Look(after, m) == Look(mid, m))
        && mine[i] in before && NoMore(before[mine[i]], clock(i), Look(after, mine[i]))
      ensures NoMoreOf(mine, before, after)
    {
      forall k | 0 <= k < |mine| && mine[k] in before ensures NoMore(before[mine[k]], clock(k), Look(after, mine[k])) {
        if k < i { assert Done(mine, k, before, mid); }
        if k != i && i < |mine| { assert mine[k] != mine[i]; }
      }
    }

    method SweepAll(mine: seq<string>) returns (ok: bool, requeueAfter: int)
      requires Lists(mine, leases)
      modifies `calls, `leases, `rev
      ensures ((forall k :: fate(k).Answered?) ==> ok) && NoMoreOf(mine, old(leases), leases)
      ensures ok ==> Through(mine, |mine|, old(leases), leases) && LeastWait(requeueAfter, mine, |mine|, old(leases))
    {
      ok, requeueAfter := true, 0;
      for i := 0 to |mine|
        invariant ok && Through(mine, i, old(leases), leases) && LeastWait(requeueAfter, mine, i, old(leases))
      {
        ghost var mid := leases;
        assert mine[i] in mine;
        assert Look(leases, mine[i]) == Look(old(leases), mine[i]);
        var wait;
        ok, wait := SweepOne(mine[i], clock(i));
        if !ok {
          CutShort(mine, i, old(leases), mid, leases);
          return;
        }
        ThroughOneMore(mine, i, old(leases), mid, leases);
        LeastWaitOneMore(requeueAfter, mine, i, old(leases));
        if wait > 0 {
          requeueAfter := MinPositive(requeueAfter, wait);
        }
      }
      CutShort(mine, |mine|, old(leases), leases, leases);
    }

    /**
     Every lease of the Deployment gets what it is owed and no other lease is touched; the wait asked for
     is the least remaining one. When a call fails, what was not owed has still not been done.
     */
    method ReconcileOrphans() returns (ok: bool, requeueAfter: int, ghost mine: seq<string>)
      modifies `calls, `leases, `rev
      ensures ((forall k :: fate(k).Answered?) ==> ok) && Lists(mine, old(leases)) && NoMoreOf(mine, old(leases), leases)
      ensures ok ==> Through(mine, |mine|, old(leases), leases) && LeastWait(requeueAfter, mine, |mine|, old(leases))
    {
      requeueAfter := 0;
      var names;
      ok, names := LeasesForDeployment();
      mine := names;
      if ok {
        ok, requeueAfter := SweepAll(names);
      } else {
        assert forall k :: 0 <= k < |names| ==> names[k] in names;
      }
    }
  }
}
