/**
 Quota per node. If Kueue admits no more Workloads on a node than its quota and takes back no
 admission that a lease relies on, and every cleanup that deletes the Workload of a lease past
 admission also records the failure, then the leases of a node that have passed admission
 never outnumber its quota. Each step keeps the books if and only if it keeps to this.
 */
module Quota {
  import opened Options
  import opened Objects
  import opened Protocol
  import opened Safety
  import opened History

  /** Past admission and not torn down: the phases that promise a GPU. */
  predicate Holding(l: Lease) {
    l.phase == Admitted || l.phase == Activating || l.phase == Bound
  }

  predicate Admits(workloads: map<WorkloadKey, Workload>, k: WorkloadKey) {
    k in workloads && workloads[k].admitted
  }

  /** The lease whose Workload is deleted but whose failure is not written yet. */
  function Failing(w: Worker): Option<string> {
    if (w.LookupForRelease? || w.DeleteLease? || w.RevertPod? || w.Finish?) && w.why.ForFailure?
    then Some(w.l.name) else None
  }

  ghost predicate Reserved(leases: map<string, Lease>, workloads: map<WorkloadKey, Workload>, except: Option<string>) {
    forall n :: n in leases && Holding(leases[n]) && Some(n) != except ==> Admits(workloads, KeyOf(leases[n]))
  }

  ghost predicate Booked(s: Sys) {
    && Reserved(s.leases, s.workloads, Failing(s.worker))
    && (s.worker.WriteAdmitted? && Current(s, s.worker.l) ==> Admits(s.workloads, KeyOf(s.worker.l)))
  }

  /** A lease past admission, or about to be written so, relies on the Workload. */
  predicate InUse(s: Sys, k: WorkloadKey) {
    || (k.name in s.leases && Holding(s.leases[k.name]) && KeyOf(s.leases[k.name]) == k)
    || (s.worker.WriteAdmitted? && Current(s, s.worker.l) && KeyOf(s.worker.l) == k)
  }

  /**
   For a lease past admission, the deletion of its Workload is acknowledged if it takes effect and
   the failure is then persisted; Kueue evicts no Workload in use.
   */
  predicate Recorded(s: Sys, l: Label) {
    match l
    case Work(_, r) =>
      (s.worker.DropWorkload? || s.worker.Finish?) && s.worker.why.ForFailure? && Holding(s.worker.l) ==>
        if s.worker.DropWorkload? then (r.Effective() ==> r.ok) else r.Effective() && Current(s, s.worker.l)
    case Env(Kueue(k, admitted, _, _)) => Admits(s.workloads, k) && InUse(s, k) ==> admitted
    case _ => true
  }

  // The pool and the environment.

  ghost predicate NoNewHolder(before: map<string, Lease>, after: map<string, Lease>) {
    forall n :: n in after && Holding(after[n]) ==>
      n in before && Holding(before[n]) && KeyOf(after[n]) == KeyOf(before[n])
  }

  ghost predicate StayAdmitted(before: map<WorkloadKey, Workload>, after: map<WorkloadKey, Workload>) {
    forall k :: Admits(before, k) ==> Admits(after, k)
  }

  lemma OthersHolders(s: Sys, t: Sys)
    requires LeasesOk(s.leases, s.rev) && LeaseHistory(s, t.leases) && Spares(s, t)
    ensures NoNewHolder(s.leases, t.leases)
  {
    forall n | n in t.leases && Holding(t.leases[n])
      ensures n in s.leases && Holding(s.leases[n]) && KeyOf(t.leases[n]) == KeyOf(s.leases[n])
    {
      if n in s.leases {
        assert LeaseOk(s.rev, n, s.leases[n]);
        if s.leases[n].phase != Failed { assert Spared(s, t, n); }
      }
    }
  }

  lemma OthersBooked(s: Sys, t: Sys)
    requires Booked(s) && NoNewHolder(s.leases, t.leases) && StayAdmitted(s.workloads, t.workloads)
    requires StoreOk(s) && WorkerOk(s) && Evolves(s, t) && t.worker == s.worker
    ensures Booked(t)
  {
    if s.worker.WriteAdmitted? { assert LeaseOk(s.rev, s.worker.l.name, s.leases[s.worker.l.name]); }
  }

  lemma EnvWorkloads(s: Sys, e: Event)
    requires EnvEnabled(s, e) && !e.Kueue?
    ensures EnvNext(s, e).workloads == s.workloads
  {
  }

  /** The holder of a Workload that Kueue still has is not the one being failed. */
  lemma KueueBooked(s: Sys, k: WorkloadKey, admitted: bool, inadmissible: bool, quotaReserved: Condition)
    requires LeasesOk(s.leases, s.rev) && WorkerOk(s) && Booked(s) && k in s.workloads
    ensures Booked(EnvNext(s, Kueue(k, admitted, inadmissible, quotaReserved))) <==>
            (Admits(s.workloads, k) && InUse(s, k) ==> admitted)
  {
    var t := EnvNext(s, Kueue(k, admitted, inadmissible, quotaReserved));
    assert forall j :: j != k ==> (Admits(t.workloads, j) <==> Admits(s.workloads, j));
    assert forall n :: n in s.leases ==> LeaseOk(s.rev, n, s.leases[n]) && KeyOf(s.leases[n]).name == n;
    assert Failing(s.worker).Some? ==> KeyOf(s.worker.l) !in s.workloads;
  }

  // The worker.

  lemma PutBooked(s: Sys, m: Lease, except: Option<string>)
    requires Reserved(s.leases, s.workloads, except)
    requires Current(s, m) && Holding(m) ==> Admits(s.workloads, KeyOf(m))
    ensures Reserved(Put(s, m).leases, s.workloads, except)
    ensures Current(s, m) && !Holding(m) && except == Some(m.name) ==> Reserved(Put(s, m).leases, s.workloads, None)
  {
  }

  lemma WrittenBooked(s: Sys)
    requires StoreOk(s) && WorkerOk(s) && Booked(s) && Writes(s.worker) && Current(s, s.worker.l)
    ensures Holding(Written(s.worker, s.now)) ==> Admits(s.workloads, KeyOf(Written(s.worker, s.now)))
    ensures s.worker.Finish? ==> !Holding(Written(s.worker, s.now))
  {
  }

  lemma WriteBooked(s: Sys, t: Sys, m: Lease, r: Reply)
    requires Booked(s) && Failing(s.worker).None? && (Current(s, m) && Holding(m) ==> Admits(s.workloads, KeyOf(m)))
    requires t == TryPut(s, m, r).(worker := t.worker) && (t.worker.Idle? || t.worker.DropWorkload?)
    ensures Booked(t)
  {
    PutBooked(s, m, None);
  }

  /** The write that ends a failure: the books balance iff it takes effect, where there is something to book. */
  lemma FinishBooked(s: Sys, l: Lease, why: Why, r: Reply)
    requires StoreOk(s) && Booked(s) && s.worker == Finish(l, why) && Cleaned(s, l, why)
    ensures Booked(StepFinish(s, l, why, r)) <==>
            (why.ForFailure? && Holding(l) ==> r.Effective() && Current(s, l))
  {
    var t := StepFinish(s, l, why, r);
    assert LeaseOk(s.rev, l.name, s.leases[l.name]);
    PutBooked(s, Finished(l, why, s.now), Failing(s.worker));
    if Holding(l) && !(r.Effective() && Current(s, l)) {
      assert t.leases == s.leases && Holding(t.leases[l.name]) && KeyOf(t.leases[l.name]) == KeyOf(l);
    }
  }

  lemma GetWorkloadBooked(s: Sys, l: Lease, r: Reply)
    requires Booked(s) && s.worker == GetWorkload(l)
    ensures Booked(StepGetWorkload(s, l, r))
  {
  }

  lemma ReadBooked(s: Sys, t: Sys)
    requires Booked(s) && (Reads(s.worker) || s.worker.Idle?) && t == s.(worker := t.worker)
    requires StaysFailing(s, t)
    ensures Booked(t)
  {
  }

  lemma DropBooked(s: Sys, l: Lease, why: Why, r: Reply)
    requires LeasesOk(s.leases, s.rev) && CleaningUp(s.leases, l, why) && s.worker == DropWorkload(l, why) && Booked(s)
    ensures Booked(StepDropWorkload(s, l, why, r)) <==>
            (why.ForFailure? && Holding(l) ==> (r.Effective() ==> r.ok))
  {
    var t := StepDropWorkload(s, l, why, r);
    assert forall n :: n in s.leases ==> LeaseOk(s.rev, n, s.leases[n]) && KeyOf(s.leases[n]).name == n;
    if r.Effective() && !r.ok && Holding(l) {
      assert Holding(t.leases[l.name]) && KeyOf(t.leases[l.name]) == KeyOf(l);
    }
  }

  lemma WorkloadBooked(s: Sys, l: Lease, r: Reply)
    requires LeasesOk(s.leases, s.rev) && HeldIn(s.leases, l, Pending) && Booked(s)
    requires Failing(s.worker).None?
    ensures Booked(StepCreateWorkload(s, l, r)) && Booked(StepDropStaleWorkload(s, l, r))
  {
    assert forall n :: n in s.leases ==> LeaseOk(s.rev, n, s.leases[n]);
  }

  lemma PodCallBooked(s: Sys, t: Sys)
    requires Booked(s) && TalksToPod(s.worker) && t.leases == s.leases && t.workloads == s.workloads
    requires StaysFailing(s, t)
    ensures Booked(t)
  {
  }

  /** A read or a pod call of a cleanup stays in that cleanup, and none but reading the Workload leads to Admitted. */
  ghost predicate StaysFailing(s: Sys, t: Sys) {
    Failing(t.worker) == Failing(s.worker) && !t.worker.WriteAdmitted?
  }

  lemma ReadStaysFailing(s: Sys, start: string, r: Reply)
    requires s.worker.Idle? || s.worker.LookupPod? || s.worker.PollState? || s.worker.LookupForRelease?
    ensures StaysFailing(s, WorkerNext(s, start, r))
  {
    match s.worker
    case LookupPod(l) => assert WorkerNext(s, start, r) == StepLookupPod(s, l, r);
    case LookupForRelease(l, why) => assert WorkerNext(s, start, r) == StepLookupForRelease(s, l, why, r);
    case _ =>
  }

  lemma PodCallStaysFailing(s: Sys, start: string, r: Reply)
    requires TalksToPod(s.worker)
    ensures StaysFailing(s, WorkerNext(s, start, r))
  {
    match s.worker
    case PostLease(l, uid) => assert WorkerNext(s, start, r) == StepPostLease(s, l, uid, r);
    case _ =>
  }

  lemma OtherCallBooked(s: Sys, start: string, r: Reply)
    requires Inv(s) && Booked(s) && !s.worker.DropWorkload? && !s.worker.Finish?
    ensures Booked(WorkerNext(s, start, r))
  {
    var t := WorkerNext(s, start, r);
    if Writes(s.worker) {
      WriteStep(s, start, r);
      if Current(s, s.worker.l) { WrittenBooked(s); }
      WriteBooked(s, t, Written(s.worker, s.now), r);
    } else if s.worker.GetWorkload? {
      GetWorkloadBooked(s, s.worker.l, r);
    } else if TalksToPod(s.worker) || Reads(s.worker) || s.worker.Idle? {
      QuietCallBooked(s, start, r);
    } else {
      WorkloadBooked(s, s.worker.l, r);
    }
  }

  lemma QuietCallBooked(s: Sys, start: string, r: Reply)
    requires StoreOk(s) && WorkerOk(s) && Booked(s) && (TalksToPod(s.worker) || Reads(s.worker) || s.worker.Idle?)
    requires !s.worker.GetWorkload?
    ensures Booked(WorkerNext(s, start, r))
  {
    var t := WorkerNext(s, start, r);
    if TalksToPod(s.worker) {
      PodCall(s, start, r);
      PodCallStaysFailing(s, start, r);
      PodCallBooked(s, t);
    } else {
      if s.worker.Idle? { IdleCall(s, start, r); } else { ReadCall(s, start, r); }
      ReadStaysFailing(s, start, r);
      ReadBooked(s, t);
    }
  }

  lemma CleanupBooked(s: Sys, start: string, r: Reply)
    requires StoreOk(s) && WorkerOk(s) && Booked(s) && (s.worker.DropWorkload? || s.worker.Finish?)
    ensures Booked(WorkerNext(s, start, r)) <==> Recorded(s, Work(start, r))
  {
    match s.worker
    case DropWorkload(l, why) => DropBooked(s, l, why, r);
    case Finish(l, why) => FinishBooked(s, l, why, r);
  }

  lemma WorkerBooked(s: Sys, start: string, r: Reply)
    requires Inv(s) && Booked(s)
    ensures Booked(WorkerNext(s, start, r)) <==> Recorded(s, Work(start, r))
  {
    if s.worker.DropWorkload? || s.worker.Finish? { CleanupBooked(s, start, r); } else { OtherCallBooked(s, start, r); }
  }

  /** Exactly the steps that record what they take away keep every lease past admission booked. */
  lemma BookedIffRecorded(s: Sys, l: Label)
    requires Inv(s) && Booked(s) && Enabled(s, l)
    ensures Booked(Next(s, l)) <==> Recorded(s, l)
  {
    var t := Next(s, l);
    match l {
      case Work(start, r) => WorkerBooked(s, start, r);
      case PoolStep(c, r) =>
        PoolSound(s, c, r); PoolHistory(s, c, r); PoolWorkloads(s, c, r);
        OthersHolders(s, t); OthersBooked(s, t);
      case Env(Kueue(k, admitted, inadmissible, quotaReserved)) => KueueBooked(s, k, admitted, inadmissible, quotaReserved);
      case Env(e) =>
        EnvSound(s, e); EnvHistory(s, e); EnvWorkloads(s, e);
        OthersHolders(s, t); OthersBooked(s, t);
    }
  }

  // Over runs.

  ghost predicate RecordedRun(run: Run)
    requires IsRun(run)
  {
    forall i :: 0 <= i < |run.labels| ==> Recorded(run.states[i], run.labels[i])
  }

  lemma {:induction false} RunBooked(run: Run, i: nat)
    requires IsRun(run) && RecordedRun(run) && i < |run.states|
    ensures Booked(run.states[i])
  {
    if i > 0 {
      RunInv(run, i - 1);
      RunBooked(run, i - 1);
      assert StepAt(run, i - 1);
      BookedIffRecorded(run.states[i - 1], run.labels[i - 1]);
    }
  }

  // Counting.

  /** The leases on a node that hold a GPU promise, but for the one being failed right now. */
  ghost function HoldersOn(s: Sys, node: string): set<string> {
    set n | n in s.leases && Holding(s.leases[n]) && s.leases[n].spec.node == node && Some(n) != Failing(s.worker)
  }

  ghost function AdmittedOn(s: Sys, node: string): set<WorkloadKey> {
    set k | k in s.workloads && s.workloads[k].admitted && s.workloads[k].spec.nodeSelector == node
  }

  lemma {:induction false} NoMoreThan(names: set<string>, keys: set<WorkloadKey>)
    requires forall n :: n in names ==> exists k :: k in keys && k.name == n
    ensures |names| <= |keys|
  {
    if names != {} {
      var n :| n in names;
      var k :| k in keys && k.name == n;
      forall m | m in names - {n} ensures exists j :: j in keys - {k} && j.name == m {
        var j :| j in keys && j.name == m;
        assert j in keys - {k};
      }
      NoMoreThan(names - {n}, keys - {k});
    }
  }

  /** Every state of a run that records its failures: the holders on a node fit in the quota Kueue keeps to. */
  lemma HoldersWithinQuota(run: Run, i: nat, node: string, quota: nat)
    requires IsRun(run) && RecordedRun(run) && i < |run.states|
    requires |AdmittedOn(run.states[i], node)| <= quota
    ensures |HoldersOn(run.states[i], node)| <= quota
  {
    RunInv(run, i);
    RunBooked(run, i);
    var s := run.states[i];
    forall n | n in HoldersOn(s, node) ensures exists k :: k in AdmittedOn(s, node) && k.name == n {
      var k := KeyOf(s.leases[n]);
      assert LeaseOk(s.rev, n, s.leases[n]);
      assert Admits(s.workloads, k);
      assert Backed(s.leases, k, s.workloads[k]);
      assert k in AdmittedOn(s, node) && k.name == n;
    }
    NoMoreThan(HoldersOn(s, node), AdmittedOn(s, node));
  }
}
