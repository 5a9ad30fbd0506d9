/**
 The life of one lease over a whole run: its phases only move forward, its identity never
 changes, and the time the retention sweep reads is the instant it failed.
 */
module History {
  import opened Names
  import opened Objects
  import opened Protocol
  import opened Safety

  /** The edges of the lifecycle; Releasing is entered only under a deletion timestamp. */
  predicate Edge(p: Phase, q: Phase, deleting: bool) {
    || p == q
    || (p == Pending && q == Admitted)
    || (p == Admitted && q == Activating)
    || (p == Activating && q == Bound)
    || (p != Failed && p != Releasing && q == Failed)
    || (q == Releasing && deleting)
  }

  function Rank(p: Phase): nat {
    match p
    case Pending => 0
    case Admitted => 1
    case Activating => 2
    case Bound => 3
    case Failed => 4
    case Releasing => 5
  }

  predicate SameLease(l: Lease, m: Lease) {
    m.name == l.name && m.uid == l.uid && m.created == l.created && m.spec == l.spec
  }

  /** What one step, taken at time `now`, can make of a lease. */
  predicate Becomes(l: Lease, m: Lease, now: nat) {
    && SameLease(l, m)
    && (l.deleting ==> m.deleting)
    && Edge(l.phase, m.phase, l.deleting)
    && (m.phase == Failed ==> m.ready == if l.phase == Failed then l.ready else IsFalse(MetaTime(now)))
    && (m.phase == Activating ==> m.podActivated == if l.phase == Activating then l.podActivated else IsFalse(MetaTime(now)))
  }

  predicate Born(m: Lease, rev: nat) {
    m.phase == Pending && !m.deleting && m.uid > rev && m.name == LeaseName(m.spec.node, m.spec.gpu)
  }

  ghost predicate LeaseHistory(s: Sys, leases: map<string, Lease>) {
    forall n :: n in leases ==>
      if n in s.leases then Becomes(s.leases[n], leases[n], s.now) else Born(leases[n], s.rev)
  }

  lemma PutHistory(s: Sys, m: Lease)
    requires Current(s, m) ==> Becomes(s.leases[m.name], m, s.now)
    requires LeasesOk(s.leases, s.rev)
    ensures LeaseHistory(s, Put(s, m).leases)
  {
  }

  lemma RemoveHistory(s: Sys, n: string)
    requires LeasesOk(s.leases, s.rev)
    ensures LeaseHistory(s, Remove(s, n).leases)
  {
  }

  lemma CreateHistory(s: Sys, l: Lease, key: PodKey, pod: Pod, r: Reply)
    requires LeasesOk(s.leases, s.rev) && Born(l, s.rev)
    ensures LeaseHistory(s, PoolCreateLease(s, l, key, pod, r).leases)
  {
  }

  lemma PoolHistory(s: Sys, c: PoolCall, r: Reply)
    requires StoreOk(s) && PoolOk(s) && PoolEnabled(s, c)
    ensures LeaseHistory(s, PoolNext(s, c, r).leases)
  {
    match c {
      case CreateLease(id, model, deployment, queue) =>
        CreateHistory(s, NewLease(s, s.pool.key, s.pool.pod, id, model, deployment, queue), s.pool.key, s.pool.pod, r);
      case StripFinalizer => PutHistory(s, s.pool.l.(finalizer := false));
      case DeleteObject => RemoveHistory(s, s.pool.name);
      case _ => assert PoolNext(s, c, r).leases == s.leases;
    }
  }

  lemma EnvHistory(s: Sys, e: Event)
    requires StoreOk(s) && EnvEnabled(s, e)
    ensures LeaseHistory(s, EnvNext(s, e).leases)
  {
    match e {
      case OperatorDelete(n) => RemoveHistory(s, n);
      case _ => assert EnvNext(s, e).leases == s.leases;
    }
  }

  lemma WrittenHistory(s: Sys)
    requires StoreOk(s) && WorkerOk(s) && Writes(s.worker)
    ensures var m := Written(s.worker, s.now); Current(s, m) ==> Becomes(s.leases[m.name], m, s.now)
  {
    if Current(s, s.worker.l) { assert LeaseOk(s.rev, s.worker.l.name, s.leases[s.worker.l.name]); }
  }

  lemma TryPutHistory(s: Sys, m: Lease, r: Reply)
    requires LeasesOk(s.leases, s.rev) && (Current(s, m) ==> Becomes(s.leases[m.name], m, s.now))
    ensures LeaseHistory(s, TryPut(s, m, r).leases)
  {
    PutHistory(s, m);
  }

  lemma WriteHistory(s: Sys, start: string, r: Reply)
    requires StoreOk(s) && WorkerOk(s) && Writes(s.worker)
    ensures LeaseHistory(s, WorkerNext(s, start, r).leases)
  {
    WriteStep(s, start, r);
    WrittenHistory(s);
    TryPutHistory(s, Written(s.worker, s.now), r);
  }

  lemma WorkerHistory(s: Sys, start: string, r: Reply)
    requires StoreOk(s) && WorkerOk(s)
    ensures LeaseHistory(s, WorkerNext(s, start, r).leases)
  {
    if Writes(s.worker) {
      WriteHistory(s, start, r);
    } else if !s.worker.CreateWorkload? {
      QuietCall(s, start, r);
    }
  }

  lemma NextHistory(s: Sys, l: Label)
    requires Inv(s) && Enabled(s, l)
    ensures LeaseHistory(s, Next(s, l).leases)
  {
    match l {
      case Work(start, r) => WorkerHistory(s, start, r);
      case PoolStep(c, r) => PoolHistory(s, c, r);
      case Env(e) => EnvHistory(s, e);
    }
  }

  // Over runs.

  predicate Alive(run: Run, i: nat, n: string, uid: nat)
    requires i < |run.states|
  {
    n in run.states[i].leases && run.states[i].leases[n].uid == uid
  }

  function LeaseAt(run: Run, i: nat, n: string, uid: nat): Lease
    requires i < |run.states| && Alive(run, i, n, uid)
  {
    run.states[i].leases[n]
  }

  /** One step back in a lease's life: either it was there, or this is its birth. */
  lemma Before(run: Run, j: nat, n: string, uid: nat)
    requires IsRun(run) && 0 < j < |run.states| && Alive(run, j, n, uid)
    ensures
      if Alive(run, j - 1, n, uid)
      then Becomes(LeaseAt(run, j - 1, n, uid), LeaseAt(run, j, n, uid), run.states[j - 1].now)
      else Born(LeaseAt(run, j, n, uid), run.states[j - 1].rev)
  {
    RunInv(run, j - 1);
    assert StepAt(run, j - 1);
    NextHistory(run.states[j - 1], run.labels[j - 1]);
  }

  lemma {:induction false} RevisionsGrow(run: Run, i: nat, j: nat)
    requires IsRun(run) && i <= j < |run.states|
    ensures run.states[i].rev <= run.states[j].rev
    decreases j - i
  {
    if i < j {
      RevisionsGrow(run, i, j - 1);
      RunInv(run, j - 1);
      assert StepAt(run, j - 1);
      NextEvolves(run.states[j - 1], run.labels[j - 1]);
    }
  }

  /**
   Between two sightings of the same lease it never left the store and stayed the same lease, and
   its phase did not move back: Failed is left only for Releasing, which needs a deletion timestamp.
   */
  lemma {:induction false} PhasesMoveForward(run: Run, i: nat, j: nat, n: string, uid: nat)
    requires IsRun(run) && i <= j < |run.states| && Alive(run, i, n, uid) && Alive(run, j, n, uid)
    ensures forall k :: i <= k <= j ==> Alive(run, k, n, uid)
    ensures SameLease(LeaseAt(run, i, n, uid), LeaseAt(run, j, n, uid))
    ensures Rank(LeaseAt(run, i, n, uid).phase) <= Rank(LeaseAt(run, j, n, uid).phase)
    ensures LeaseAt(run, i, n, uid).deleting ==> LeaseAt(run, j, n, uid).deleting
    ensures LeaseAt(run, j, n, uid).phase == Releasing ==> LeaseAt(run, j, n, uid).deleting
    decreases j - i
  {
    RunInv(run, i);
    assert LeaseOk(run.states[i].rev, n, run.states[i].leases[n]);
    if i < j {
      RevisionsGrow(run, i, j - 1);
      Before(run, j, n, uid);
      PhasesMoveForward(run, i, j - 1, n, uid);
    }
  }

  /** A Failed lease entered Failed in one identifiable step, and FailedSince is that step's time. */
  lemma {:induction false} FailedSinceIsEntry(run: Run, j: nat, n: string, uid: nat) returns (i: nat)
    requires IsRun(run) && j < |run.states| && Alive(run, j, n, uid) && LeaseAt(run, j, n, uid).phase == Failed
    ensures i < j && Alive(run, i, n, uid) && Alive(run, i + 1, n, uid)
    ensures LeaseAt(run, i, n, uid).phase != Failed && LeaseAt(run, i + 1, n, uid).phase == Failed
    ensures FailedSince(LeaseAt(run, j, n, uid)) == MetaTime(run.states[i].now)
    ensures forall k :: i < k <= j ==> Alive(run, k, n, uid) && LeaseAt(run, k, n, uid).phase == Failed
  {
    assert j > 0;
    Before(run, j, n, uid);
    if LeaseAt(run, j - 1, n, uid).phase == Failed {
      i := FailedSinceIsEntry(run, j - 1, n, uid);
      RunInv(run, j - 1);
      assert LeaseOk(run.states[j - 1].rev, n, run.states[j - 1].leases[n]);
    } else {
      i := j - 1;
    }
  }

  /** An Activating lease entered Activating in one identifiable step, and its activation timeout runs from that step's time. */
  lemma {:induction false} ActivatingSince(run: Run, j: nat, n: string, uid: nat) returns (i: nat)
    requires IsRun(run) && j < |run.states| && Alive(run, j, n, uid) && LeaseAt(run, j, n, uid).phase == Activating
    ensures i < j && Alive(run, i, n, uid) && Alive(run, i + 1, n, uid)
    ensures LeaseAt(run, i, n, uid).phase == Admitted && LeaseAt(run, i + 1, n, uid).phase == Activating
    ensures ActivationAnchor(LeaseAt(run, j, n, uid)) == MetaTime(run.states[i].now)
    ensures forall k :: i < k <= j ==> Alive(run, k, n, uid) && LeaseAt(run, k, n, uid).phase == Activating
  {
    assert j > 0;
    Before(run, j, n, uid);
    if LeaseAt(run, j - 1, n, uid).phase == Activating {
      i := ActivatingSince(run, j - 1, n, uid);
      RunInv(run, j - 1);
      assert LeaseOk(run.states[j - 1].rev, n, run.states[j - 1].leases[n]);
    } else {
      i := j - 1;
    }
  }

  // Workloads.

  /** What one step, taken at time `now`, can make of a Workload that is there: Kueue may change its status, no more. */
  predicate SameWorkload(w: Workload, v: Workload) {
    v.spec == w.spec && v.created == w.created
  }

  /** The Workload a lease is given: in the claimed pod's namespace, under the lease's name, for its queue and its node. */
  lemma CreatedWorkload(s: Sys, l: Lease, r: Reply, k: WorkloadKey)
    requires k !in s.workloads && k in StepCreateWorkload(s, l, r).workloads
    ensures k.namespace == l.spec.claim.pod.namespace && k.name == l.name
    ensures var w := StepCreateWorkload(s, l, r).workloads[k];
      && w.spec.queue == l.spec.queue && w.spec.nodeSelector == l.spec.node
      && w.created == MetaTime(s.now) && !w.admitted && !w.inadmissible && w.quotaReserved.Absent?
  {
  }

  lemma WorkerWorkloads(s: Sys, start: string, r: Reply, k: WorkloadKey)
    requires StoreOk(s) && WorkerOk(s) && k in WorkerNext(s, start, r).workloads
    ensures if k in s.workloads then WorkerNext(s, start, r).workloads[k] == s.workloads[k] else s.worker.CreateWorkload?
  {
    if Writes(s.worker) { WriteShape(s, start, r); }
    else if s.worker.Idle? { IdleCall(s, start, r); }
    else if Reads(s.worker) { ReadCall(s, start, r); }
    else if TalksToPod(s.worker) { PodCall(s, start, r); }
    else if s.worker.CreateWorkload? { assert WorkerNext(s, start, r) == StepCreateWorkload(s, s.worker.l, r); }
  }

  lemma PoolWorkloads(s: Sys, c: PoolCall, r: Reply)
    requires PoolEnabled(s, c)
    ensures PoolNext(s, c, r).workloads == s.workloads
  {
  }

  lemma EnvWorkload(s: Sys, e: Event, k: WorkloadKey)
    requires EnvEnabled(s, e) && k in EnvNext(s, e).workloads
    ensures k in s.workloads && SameWorkload(s.workloads[k], EnvNext(s, e).workloads[k])
  {
  }

  lemma NextWorkload(s: Sys, l: Label, k: WorkloadKey)
    requires Inv(s) && Enabled(s, l) && k in Next(s, l).workloads
    ensures if k in s.workloads then SameWorkload(s.workloads[k], Next(s, l).workloads[k])
            else l.Work? && s.worker.CreateWorkload?
  {
    match l
    case Work(start, r) => WorkerWorkloads(s, start, r, k);
    case PoolStep(c, r) => PoolWorkloads(s, c, r);
    case Env(e) => EnvWorkload(s, e, k);
  }

  /** A Workload in the store was created in one identifiable step, and its creation time is that step's. */
  lemma {:induction false} WorkloadSince(run: Run, j: nat, k: WorkloadKey) returns (i: nat)
    requires IsRun(run) && j < |run.states| && k in run.states[j].workloads
    ensures i < j && k !in run.states[i].workloads && run.states[i].worker.CreateWorkload? && run.labels[i].Work?
    ensures run.states[i].worker.l.name == k.name && run.states[i].worker.l.spec.claim.pod.namespace == k.namespace
    ensures run.states[j].workloads[k].created == MetaTime(run.states[i].now)
    ensures forall p :: i < p <= j ==> k in run.states[p].workloads && SameWorkload(run.states[p].workloads[k], run.states[j].workloads[k])
  {
    assert j > 0;
    RunInv(run, j - 1);
    assert StepAt(run, j - 1);
    NextWorkload(run.states[j - 1], run.labels[j - 1], k);
    if k in run.states[j - 1].workloads {
      i := WorkloadSince(run, j - 1, k);
    } else {
      i := j - 1;
      CreatedWorkload(run.states[i], run.states[i].worker.l, run.labels[i].r, k);
    }
  }

  /** Every lease in the store is named after its GPU. */
  lemma {:induction false} NamedAfterGPU(run: Run, i: nat, n: string)
    requires IsRun(run) && i < |run.states| && n in run.states[i].leases
    ensures n == LeaseName(run.states[i].leases[n].spec.node, run.states[i].leases[n].spec.gpu)
  {
    var uid := run.states[i].leases[n].uid;
    assert i > 0;
    Before(run, i, n, uid);
    RunInv(run, i);
    assert LeaseOk(run.states[i].rev, n, run.states[i].leases[n]);
    if Alive(run, i - 1, n, uid) { NamedAfterGPU(run, i - 1, n); }
  }
}
