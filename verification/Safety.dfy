/**
 What every reachable state keeps, with any call allowed to fail: the store is well formed,
 the reconcilers' copies of leases are no staler than the protocol allows, and a Kueue
 Workload never outlives the lease that reserved it.
 */
module Safety {
  import opened PodMachine
  import opened Objects
  import opened Protocol

  // The store.

  /** QuotaReserved is set by admission and stays. */
  predicate QuotaOk(l: Lease) {
    && (l.phase == Pending ==> l.quotaReserved.Absent?)
    && (l.phase == Admitted || l.phase == Activating || l.phase == Bound ==> l.quotaReserved.IsTrue?)
  }

  /** Ready is not set before Bound, True there, and False from Failed on. */
  predicate ReadyOk(l: Lease) {
    && (l.phase == Pending || l.phase == Admitted || l.phase == Activating ==> l.ready.Absent?)
    && (l.phase == Bound ==> l.ready.IsTrue?)
    && (l.phase == Failed ==> l.ready.IsFalse?)
  }

  /** PodActivated is not set before Activating, False there and True in Bound. */
  predicate ActivationOk(l: Lease) {
    && (l.phase == Pending || l.phase == Admitted ==> l.podActivated.Absent?)
    && (l.phase == Activating ==> l.podActivated.IsFalse?)
    && (l.phase == Bound ==> l.podActivated.IsTrue?)
  }

  predicate LeaseOk(rev: nat, n: string, l: Lease) {
    && l.name == n
    && l.uid <= rev
    && l.rv <= rev
    && 0 < l.spec.claim.uid <= rev && l.spec.node != ""
    && (l.phase != Failed ==> l.finalizer)
    && (l.deleting ==> l.finalizer)
    && (l.phase == Releasing ==> l.deleting)
    && (l.workloadName == "" || l.workloadName == n)
    && QuotaOk(l) && ReadyOk(l) && ActivationOk(l)
  }

  ghost predicate LeasesOk(leases: map<string, Lease>, rev: nat) {
    forall n :: n in leases ==> LeaseOk(rev, n, leases[n])
  }

  ghost predicate PodsOk(pods: map<PodKey, Pod>, rev: nat) {
    forall k :: k in pods ==> 0 < pods[k].uid <= rev
  }

  ghost predicate StoreOk(s: Sys) {
    LeasesOk(s.leases, s.rev) && PodsOk(s.pods, s.rev)
  }

  // Copies of leases held between two calls.

  /** Equal resourceVersions mean equal objects. */
  predicate Coherent(s: Sys, l: Lease) {
    l.rv <= s.rev && (Current(s, l) ==> s.leases[l.name] == l)
  }

  /** While the worker holds a lease, all that can happen to it is a deletion timestamp. */
  predicate Held(leases: map<string, Lease>, l: Lease) {
    && l.finalizer
    && l.name in leases
    && (var c := leases[l.name];
        c == l || (!l.deleting && c.rv > l.rv && c == l.(deleting := true, rv := c.rv)))
  }

  predicate HeldIn(leases: map<string, Lease>, l: Lease, phase: Phase) {
    Held(leases, l) && l.phase == phase && !l.deleting
  }

  /** A lease on the shared cleanup path. */
  predicate CleaningUp(leases: map<string, Lease>, l: Lease, why: Why) {
    && Held(leases, l)
    && (why.ForRelease? ==> l.phase == Releasing && l.deleting)
    && (why.ForFailure? ==> l.phase != Releasing && l.phase != Failed && !l.deleting)
  }

  predicate Cleaned(s: Sys, l: Lease, why: Why) {
    CleaningUp(s.leases, l, why) && KeyOf(l) !in s.workloads
  }

  predicate WorkerOk(s: Sys) {
    match s.worker
    case Idle => true
    case AddFinalizer(l) => Coherent(s, l) && l.phase == Failed && !l.deleting && !l.finalizer
    case GetWorkload(l) => HeldIn(s.leases, l, Pending)
    case CreateWorkload(l) => HeldIn(s.leases, l, Pending)
    case RecordWorkload(l) => HeldIn(s.leases, l, Pending) && KeyOf(l) in s.workloads
    case DropStaleWorkload(l) => HeldIn(s.leases, l, Pending)
    case WriteAdmitted(l) => HeldIn(s.leases, l, Pending)
    case LookupPod(l) =>
      HeldIn(s.leases, l, Admitted) || HeldIn(s.leases, l, Activating) || HeldIn(s.leases, l, Bound)
    case PostLease(l, uid) => HeldIn(s.leases, l, Admitted) && uid == l.spec.claim.uid
    case WriteActivating(l) => HeldIn(s.leases, l, Admitted)
    case PollState(l, pod) => HeldIn(s.leases, l, Activating) && pod.uid == l.spec.claim.uid
    case MarkHot(l, _, seen) => HeldIn(s.leases, l, Activating) && seen.Hot?
    case WriteBound(l, seen) => HeldIn(s.leases, l, Activating) && seen.Hot?
    case WriteReleasing(l) => Held(s.leases, l) && l.deleting && l.phase != Releasing
    case DropWorkload(l, why) => CleaningUp(s.leases, l, why)
    case LookupForRelease(l, why) => Cleaned(s, l, why)
    case DeleteLease(l, why, pod) => Cleaned(s, l, why) && pod.uid == l.spec.claim.uid
    case RevertPod(l, why, _) => Cleaned(s, l, why)
    case Finish(l, why) => Cleaned(s, l, why)
  }

  predicate PoolOk(s: Sys) {
    match s.pool
    case PoolCreate(_, pod) => 0 < pod.uid <= s.rev && pod.node != ""
    case PoolStrip(l) => Coherent(s, l) && l.phase == Failed && !l.deleting
    case _ => true
  }

  // Workloads.

  /**
   The lease behind a Workload exists, will not vanish without cleanup, claims a pod of the Workload's
   namespace, and has the Workload's queue and node.
   */
  predicate Backed(leases: map<string, Lease>, k: WorkloadKey, w: Workload) {
    && k.name in leases
    && (var l := leases[k.name];
        && l.name == k.name && l.spec.claim.pod.namespace == k.namespace
        && l.finalizer && l.phase != Failed
        && w.spec.queue == l.spec.queue && w.spec.nodeSelector == l.spec.node)
  }

  ghost predicate AllBacked(leases: map<string, Lease>, workloads: map<WorkloadKey, Workload>) {
    forall k :: k in workloads ==> Backed(leases, k, workloads[k])
  }

  ghost predicate NoLeak(s: Sys) {
    AllBacked(s.leases, s.workloads)
  }

  ghost predicate Inv(s: Sys) {
    StoreOk(s) && WorkerOk(s) && PoolOk(s) && NoLeak(s)
  }

  // What a step does to other actors' copies.

  /** Every written lease carries a new resourceVersion. */
  ghost predicate Evolves(s: Sys, t: Sys) {
    && s.rev <= t.rev
    && forall n :: n in t.leases ==> (n in s.leases && t.leases[n] == s.leases[n]) || s.rev < t.leases[n].rv
  }

  /** What the pool and the environment do to a lease the worker may be holding: mark it deleted. */
  predicate Spared(s: Sys, t: Sys, n: string)
    requires n in s.leases
  {
    && n in t.leases
    && (var l, m := s.leases[n], t.leases[n];
        m == l || (!l.deleting && m.rv > s.rev && m == l.(deleting := true, rv := m.rv)))
  }

  ghost predicate Spares(s: Sys, t: Sys) {
    && Evolves(s, t)
    && t.worker == s.worker
    && t.workloads.Keys == s.workloads.Keys
    && forall n :: n in s.leases && s.leases[n].finalizer && (s.leases[n].deleting || s.leases[n].phase != Failed)
         ==> Spared(s, t, n)
  }

  lemma SparesHeld(s: Sys, t: Sys, l: Lease)
    requires StoreOk(s) && Spares(s, t) && Held(s.leases, l) && (l.deleting || l.phase != Failed)
    ensures Held(t.leases, l)
  {
    assert LeaseOk(s.rev, l.name, s.leases[l.name]);
    assert Spared(s, t, l.name);
  }

  lemma EvolvesCoherent(s: Sys, t: Sys, l: Lease)
    requires Evolves(s, t) && Coherent(s, l)
    ensures Coherent(t, l)
  {
  }

  lemma SparesWorker(s: Sys, t: Sys)
    requires StoreOk(s) && Spares(s, t) && WorkerOk(s)
    ensures WorkerOk(t)
  {
    if s.worker.AddFinalizer? {
      EvolvesCoherent(s, t, s.worker.l);
    } else if !s.worker.Idle? {
      SparesHeld(s, t, s.worker.l);
    }
  }

  lemma EvolvesPool(s: Sys, t: Sys)
    requires Evolves(s, t) && PoolOk(s) && t.pool == s.pool
    ensures PoolOk(t)
  {
    if s.pool.PoolStrip? { EvolvesCoherent(s, t, s.pool.l); }
  }

  // The four ways the lease store changes.

  ghost predicate Sound(s: Sys) {
    StoreOk(s) && NoLeak(s)
  }

  /** A write that gives up the finalizer, or enters Failed, must come after the Workload's deletion. */
  lemma PutSound(s: Sys, l: Lease)
    requires Sound(s)
    requires Current(s, l) ==>
      && l.spec == s.leases[l.name].spec
      && ((l.deleting && !l.finalizer) || LeaseOk(s.rev, l.name, l))
      && (!l.finalizer ==> KeyOf(l) !in s.workloads)
      && (l.phase == Failed && s.leases[l.name].phase != Failed ==> KeyOf(l) !in s.workloads)
    ensures Sound(Put(s, l)) && Evolves(s, Put(s, l))
  {
  }

  lemma Later(leases: map<string, Lease>, pods: map<PodKey, Pod>, rev: nat, n: string, l: Lease)
    requires LeasesOk(leases, rev) && PodsOk(pods, rev)
    ensures PodsOk(pods, rev + 1) && LeasesOk(leases - {n}, rev + 1)
    ensures LeaseOk(rev + 1, n, l) ==> LeasesOk(leases[n := l], rev + 1)
  {
    forall m | m in leases ensures LeaseOk(rev + 1, m, leases[m]) {
      assert LeaseOk(rev, m, leases[m]);
    }
  }

  lemma RemoveStore(s: Sys, n: string)
    requires Sound(s)
    ensures Sound(Remove(s, n))
  {
    if n in s.leases && !s.leases[n].deleting {
      assert LeaseOk(s.rev, n, s.leases[n]);
      Later(s.leases, s.pods, s.rev, n, s.leases[n].(deleting := true, rv := s.rev + 1));
    }
  }

  lemma RemoveSpares(s: Sys, n: string)
    requires LeasesOk(s.leases, s.rev)
    ensures Spares(s, Remove(s, n))
  {
    if n in s.leases { assert LeaseOk(s.rev, n, s.leases[n]); }
  }

  lemma RemoveSound(s: Sys, n: string)
    requires Sound(s)
    ensures Sound(Remove(s, n)) && Spares(s, Remove(s, n))
  {
    RemoveStore(s, n);
    RemoveSpares(s, n);
  }

  lemma StripSound(s: Sys, l: Lease)
    requires Sound(s) && Coherent(s, l) && l.phase == Failed && !l.deleting
    ensures Sound(Put(s, l.(finalizer := false))) && Spares(s, Put(s, l.(finalizer := false)))
  {
    if Current(s, l) {
      assert LeaseOk(s.rev, l.name, s.leases[l.name]);
      Later(s.leases, s.pods, s.rev, l.name, l.(finalizer := false, rv := s.rev + 1));
    }
  }

  lemma CreateStore(s: Sys, l: Lease)
    requires Sound(s) && l.name !in s.leases && LeaseOk(s.rev + 1, l.name, l)
    ensures Sound(s.(leases := s.leases[l.name := l], rev := s.rev + 1))
  {
    Later(s.leases, s.pods, s.rev, l.name, l);
  }

  lemma CreateSound(s: Sys, l: Lease, key: PodKey, pod: Pod, r: Reply)
    requires Sound(s) && PoolOk(s) && LeaseOk(s.rev + 1, l.name, l) && l.rv == s.rev + 1
    ensures var t := PoolCreateLease(s, l, key, pod, r); Sound(t) && Spares(s, t) && PoolOk(t)
  {
    if l.name !in s.leases { CreateStore(s, l); }
  }

  /** Steps that leave the leases alone and create no Workload. */
  ghost predicate Quiet(s: Sys, t: Sys) {
    && t.leases == s.leases
    && s.rev <= t.rev
    && (forall k :: k in t.workloads ==> k in s.workloads && t.workloads[k].spec == s.workloads[k].spec)
    && (forall k :: k in t.pods ==> (k in s.pods && t.pods[k].uid == s.pods[k].uid) || t.pods[k].uid == t.rev > 0)
  }

  lemma QuietSound(s: Sys, t: Sys)
    requires Sound(s) && Quiet(s, t)
    ensures Sound(t) && Evolves(s, t)
    ensures t.worker == s.worker && t.workloads.Keys == s.workloads.Keys ==> Spares(s, t)
  {
    forall n | n in t.leases ensures LeaseOk(t.rev, n, t.leases[n]) {
      assert LeaseOk(s.rev, n, s.leases[n]);
    }
    forall k | k in t.workloads ensures Backed(t.leases, k, t.workloads[k]) {
      assert Backed(s.leases, k, s.workloads[k]);
    }
  }

  // The pool and the environment.

  /** The calls of the pool that write no lease. */
  lemma PoolQuiet(s: Sys, c: PoolCall, r: Reply)
    requires StoreOk(s) && PoolOk(s) && PoolEnabled(s, c) && !c.CreateLease? && !c.StripFinalizer? && !c.DeleteObject?
    ensures var t := PoolNext(s, c, r); PoolOk(t) && Quiet(s, t) && t.worker == s.worker && t.workloads == s.workloads
  {
    match c
    case BeginSweep(name, _) => assert LeaseOk(s.rev, name, s.leases[name]);
    case BeginPromote(key) => assert 0 < s.pods[key].uid <= s.rev;
    case _ =>
  }

  lemma PoolSound(s: Sys, c: PoolCall, r: Reply)
    requires Sound(s) && PoolOk(s) && PoolEnabled(s, c)
    ensures Sound(PoolNext(s, c, r)) && PoolOk(PoolNext(s, c, r)) && Spares(s, PoolNext(s, c, r))
  {
    match c {
      case CreateLease(id, model, deployment, queue) =>
        CreateSound(s, NewLease(s, s.pool.key, s.pool.pod, id, model, deployment, queue), s.pool.key, s.pool.pod, r);
      case StripFinalizer => PoolStripSound(s, r);
      case DeleteObject => PoolDeleteSound(s, r);
      case _ => PoolQuiet(s, c, r); QuietSound(s, PoolNext(s, c, r));
    }
  }

  lemma PoolStripSound(s: Sys, r: Reply)
    requires Sound(s) && PoolOk(s) && s.pool.PoolStrip?
    ensures var t := PoolNext(s, StripFinalizer, r); Sound(t) && PoolOk(t) && Spares(s, t)
  {
    StripSound(s, s.pool.l);
  }

  lemma PoolDeleteSound(s: Sys, r: Reply)
    requires Sound(s) && s.pool.PoolDelete?
    ensures var t := PoolNext(s, DeleteObject, r); Sound(t) && PoolOk(t) && Spares(s, t)
  {
    RemoveSound(s, s.pool.name);
  }

  lemma EnvQuiet(s: Sys, e: Event)
    requires PodsOk(s.pods, s.rev) && EnvEnabled(s, e) && !e.OperatorDelete?
    ensures var t := EnvNext(s, e);
      Quiet(s, t) && t.worker == s.worker && t.pool == s.pool && t.workloads.Keys == s.workloads.Keys
  {
  }

  lemma EnvSound(s: Sys, e: Event)
    requires Sound(s) && EnvEnabled(s, e)
    ensures Sound(EnvNext(s, e)) && Spares(s, EnvNext(s, e)) && EnvNext(s, e).pool == s.pool
  {
    match e {
      case OperatorDelete(n) => RemoveSound(s, n);
      case _ => EnvQuiet(s, e); QuietSound(s, EnvNext(s, e));
    }
  }

  // The worker.

  // Calls that read: only the program counter moves.

  lemma GetWorkloadOk(s: Sys, l: Lease, r: Reply)
    requires HeldIn(s.leases, l, Pending)
    ensures WorkerOk(StepGetWorkload(s, l, r))
  {
  }

  lemma LookupPodOk(s: Sys, l: Lease, r: Reply)
    requires Held(s.leases, l) && !l.deleting && l.spec.claim.uid != 0
    requires l.phase == Admitted || l.phase == Activating || l.phase == Bound
    ensures WorkerOk(StepLookupPod(s, l, r))
  {
  }

  lemma PollStateOk(s: Sys, l: Lease, pod: Pod, r: Reply)
    requires HeldIn(s.leases, l, Activating)
    ensures WorkerOk(StepPollState(s, l, pod, r))
  {
  }

  lemma LookupForReleaseOk(s: Sys, l: Lease, why: Why, r: Reply)
    requires Cleaned(s, l, why) && l.spec.claim.uid != 0
    ensures WorkerOk(StepLookupForRelease(s, l, why, r))
  {
  }

  // Calls to the pod and its object.

  lemma PostLeaseOk(s: Sys, l: Lease, uid: nat, r: Reply)
    requires HeldIn(s.leases, l, Admitted)
    ensures var t := StepPostLease(s, l, uid, r); WorkerOk(t) && Quiet(s, t) && t.workloads == s.workloads
  {
  }

  lemma MarkHotOk(s: Sys, l: Lease, pod: Pod, seen: Machine, r: Reply)
    requires HeldIn(s.leases, l, Activating) && seen.Hot?
    ensures var t := StepMarkHot(s, l, pod, seen, r); WorkerOk(t) && Quiet(s, t) && t.workloads == s.workloads
  {
  }

  lemma DeleteLeaseOk(s: Sys, l: Lease, why: Why, pod: Pod, r: Reply)
    requires Cleaned(s, l, why)
    ensures var t := StepDeleteLease(s, l, why, pod, r); WorkerOk(t) && Quiet(s, t) && t.workloads == s.workloads
  {
  }

  lemma RevertPodOk(s: Sys, l: Lease, why: Why, pod: Pod, r: Reply)
    requires Cleaned(s, l, why)
    ensures var t := StepRevertPod(s, l, why, pod, r); WorkerOk(t) && Quiet(s, t) && t.workloads == s.workloads
  {
  }

  // Calls that create or delete the Workload.

  lemma CreateWorkloadSound(s: Sys, l: Lease, r: Reply)
    requires Sound(s) && HeldIn(s.leases, l, Pending)
    ensures var t := StepCreateWorkload(s, l, r); WorkerOk(t) && Sound(t) && Evolves(s, t)
  {
  }

  lemma DropWorkloadOk(s: Sys, l: Lease, why: Why, r: Reply)
    requires CleaningUp(s.leases, l, why)
    ensures var t := StepDropWorkload(s, l, why, r); WorkerOk(t) && Quiet(s, t) && t.pods == s.pods
  {
  }

  // Calls that write the lease.

  /** The object a write of the worker sends. */
  function Written(w: Worker, now: nat): Lease
    requires Writes(w)
  {
    match w
    case AddFinalizer(l) => l.(finalizer := true)
    case RecordWorkload(l) => l.(workloadName := l.name)
    case WriteAdmitted(l) => AdmittedLease(l, now)
    case WriteActivating(l) => ActivatingLease(l, now)
    case WriteBound(l, _) => BoundLease(l, now)
    case WriteReleasing(l) => ReleasingLease(l)
    case Finish(l, why) => Finished(l, why, now)
  }

  predicate Writes(w: Worker) {
    w.AddFinalizer? || w.RecordWorkload? || w.WriteAdmitted? || w.WriteActivating? || w.WriteBound?
    || w.WriteReleasing? || w.Finish?
  }

  lemma WrittenOk(s: Sys)
    requires StoreOk(s) && WorkerOk(s) && Writes(s.worker) && Current(s, s.worker.l)
    ensures var m := Written(s.worker, s.now);
      && Current(s, m)
      && m.spec == s.leases[m.name].spec
      && ((m.deleting && !m.finalizer) || LeaseOk(s.rev, m.name, m))
      && (!m.finalizer ==> KeyOf(m) !in s.workloads)
      && (m.phase == Failed && s.leases[m.name].phase != Failed ==> s.worker.Finish? && KeyOf(m) !in s.workloads)
      && (!m.finalizer ==> s.worker.Finish?)
  {
    assert LeaseOk(s.rev, s.worker.l.name, s.leases[s.worker.l.name]);
  }

  lemma WriteShape(s: Sys, start: string, r: Reply)
    requires Writes(s.worker)
    ensures var t := WorkerNext(s, start, r);
      && t == TryPut(s, Written(s.worker, s.now), r).(worker := t.worker)
      && t.worker == if s.worker.WriteReleasing? && PutOk(s, s.worker.l, r)
                     then DropWorkload(Written(s.worker, s.now).(rv := s.rev + 1), ForRelease) else Idle
  {
  }

  lemma WriteStep(s: Sys, start: string, r: Reply)
    requires WorkerOk(s) && Writes(s.worker)
    ensures var t := WorkerNext(s, start, r);
      && WorkerOk(t) && t == TryPut(s, Written(s.worker, s.now), r).(worker := t.worker)
      && (t.worker.Idle? || t.worker.DropWorkload?)
  {
    WriteShape(s, start, r);
  }

  lemma WriteSound(s: Sys, r: Reply)
    requires Sound(s) && WorkerOk(s) && Writes(s.worker)
    ensures var u := TryPut(s, Written(s.worker, s.now), r); Sound(u) && Evolves(s, u)
  {
    if Current(s, s.worker.l) { WrittenOk(s); }
    PutSound(s, Written(s.worker, s.now));
    QuietSound(s, s);
  }

  predicate TalksToPod(w: Worker) {
    w.PostLease? || w.MarkHot? || w.DeleteLease? || w.RevertPod?
  }

  lemma PodCall(s: Sys, start: string, r: Reply)
    requires StoreOk(s) && WorkerOk(s) && TalksToPod(s.worker)
    ensures var t := WorkerNext(s, start, r);
      WorkerOk(t) && Quiet(s, t) && t.pool == s.pool && t.workloads == s.workloads
  {
    match s.worker {
      case PostLease(l, uid) => PostLeaseOk(s, l, uid, r);
      case MarkHot(l, pod, seen) => MarkHotOk(s, l, pod, seen, r);
      case DeleteLease(l, why, pod) => DeleteLeaseOk(s, l, why, pod, r);
      case RevertPod(l, why, pod) => RevertPodOk(s, l, why, pod, r);
    }
  }

  predicate Reads(w: Worker) {
    w.GetWorkload? || w.LookupPod? || w.PollState? || w.LookupForRelease?
  }

  lemma ReadCall(s: Sys, start: string, r: Reply)
    requires StoreOk(s) && WorkerOk(s) && Reads(s.worker)
    ensures var t := WorkerNext(s, start, r); WorkerOk(t) && t == s.(worker := t.worker)
  {
    assert LeaseOk(s.rev, s.worker.l.name, s.leases[s.worker.l.name]);
    match s.worker {
      case GetWorkload(l) => GetWorkloadOk(s, l, r);
      case LookupPod(l) => LookupPodOk(s, l, r);
      case PollState(l, pod) => PollStateOk(s, l, pod, r);
      case LookupForRelease(l, why) => LookupForReleaseOk(s, l, why, r);
    }
  }

  lemma IdleCall(s: Sys, start: string, r: Reply)
    requires StoreOk(s) && s.worker.Idle?
    ensures var t := WorkerNext(s, start, r); WorkerOk(t) && t == s.(worker := t.worker)
  {
    if start in s.leases { assert LeaseOk(s.rev, start, s.leases[start]); }
  }

  lemma DropCall(s: Sys, start: string, r: Reply)
    requires WorkerOk(s) && (s.worker.DropWorkload? || s.worker.DropStaleWorkload?)
    ensures var t := WorkerNext(s, start, r); WorkerOk(t) && Quiet(s, t) && t.pool == s.pool && t.pods == s.pods
    ensures WorkerNext(s, start, r).worker.LookupForRelease? || WorkerNext(s, start, r).worker.Idle?
  {
    if s.worker.DropWorkload? { DropWorkloadOk(s, s.worker.l, s.worker.why, r); }
  }

  predicate WritesStore(w: Worker) {
    Writes(w) || w.CreateWorkload?
  }

  lemma StoreCall(s: Sys, start: string, r: Reply)
    requires Sound(s) && WorkerOk(s) && WritesStore(s.worker)
    ensures var t := WorkerNext(s, start, r); WorkerOk(t) && Sound(t) && Evolves(s, t) && t.pool == s.pool
  {
    if Writes(s.worker) {
      WriteStep(s, start, r);
      WriteSound(s, r);
    } else {
      CreateWorkloadSound(s, s.worker.l, r);
    }
  }

  lemma QuietCall(s: Sys, start: string, r: Reply)
    requires StoreOk(s) && WorkerOk(s) && !WritesStore(s.worker)
    ensures var t := WorkerNext(s, start, r); WorkerOk(t) && Quiet(s, t) && t.pool == s.pool
  {
    if s.worker.Idle? { IdleCall(s, start, r); }
    else if Reads(s.worker) { ReadCall(s, start, r); }
    else if TalksToPod(s.worker) { PodCall(s, start, r); }
    else { DropCall(s, start, r); }
  }

  lemma WorkerSound(s: Sys, start: string, r: Reply)
    requires Sound(s) && WorkerOk(s)
    ensures var t := WorkerNext(s, start, r); WorkerOk(t) && Sound(t) && Evolves(s, t) && t.pool == s.pool
  {
    if WritesStore(s.worker) {
      StoreCall(s, start, r);
    } else {
      QuietCall(s, start, r);
      QuietSound(s, WorkerNext(s, start, r));
    }
  }

  lemma NextEvolves(s: Sys, l: Label)
    requires Inv(s) && Enabled(s, l)
    ensures Evolves(s, Next(s, l))
  {
    match l {
      case Work(start, r) => WorkerSound(s, start, r);
      case PoolStep(c, r) => PoolSound(s, c, r);
      case Env(e) => EnvSound(s, e);
    }
  }

  lemma NextInv(s: Sys, l: Label)
    requires Inv(s) && Enabled(s, l)
    ensures Inv(Next(s, l))
  {
    var t := Next(s, l);
    match l {
      case Work(start, r) => WorkerSound(s, start, r); EvolvesPool(s, t);
      case PoolStep(c, r) => PoolSound(s, c, r); SparesWorker(s, t);
      case Env(e) => EnvSound(s, e); SparesWorker(s, t); EvolvesPool(s, t);
    }
  }

  lemma {:induction false} RunInv(run: Run, i: nat)
    requires IsRun(run) && i < |run.states|
    ensures Inv(run.states[i])
  {
    if i > 0 {
      RunInv(run, i - 1);
      assert StepAt(run, i - 1);
      NextInv(run.states[i - 1], run.labels[i - 1]);
    }
  }

  /**
   No quota leak, in any state of any run, with any call failing: a Workload in the store has its
   lease in the store, holding the finalizer and not Failed, and asks for what that lease needs.
   */
  lemma NoQuotaLeak(run: Run, i: nat, k: WorkloadKey)
    requires IsRun(run) && i < |run.states| && k in run.states[i].workloads
    ensures var leases, w := run.states[i].leases, run.states[i].workloads[k];
      && k.name in leases && leases[k.name].finalizer && leases[k.name].phase != Failed
      && leases[k.name].spec.claim.pod.namespace == k.namespace
      && w.spec.queue == leases[k.name].spec.queue && w.spec.nodeSelector == leases[k.name].spec.node
  {
    RunInv(run, i);
  }

  /** The conditions of a lease that is under way tell its phase, in any state of any run. */
  lemma ConditionsTellPhase(run: Run, i: nat, n: string)
    requires IsRun(run) && i < |run.states| && n in run.states[i].leases
    requires var phase := run.states[i].leases[n].phase; phase != Failed && phase != Releasing
    ensures var l := run.states[i].leases[n];
      && (l.quotaReserved.IsTrue? <==> l.phase != Pending) && !l.quotaReserved.IsFalse?
      && (l.podActivated.IsFalse? <==> l.phase == Activating) && (l.podActivated.IsTrue? <==> l.phase == Bound)
      && (l.ready.IsTrue? <==> l.phase == Bound) && !l.ready.IsFalse?
  {
    RunInv(run, i);
    assert LeaseOk(run.states[i].rev, n, run.states[i].leases[n]);
  }

  /** No step takes a lease out of the store, or into Failed, with a Workload left behind. */
  lemma NoWorkloadLeftBehind(run: Run, i: nat, n: string, namespace: string)
    requires IsRun(run) && i < |run.states|
    requires n !in run.states[i].leases || run.states[i].leases[n].phase == Failed
    ensures WorkloadKey(namespace, n) !in run.states[i].workloads
  {
    if WorkloadKey(namespace, n) in run.states[i].workloads {
      NoQuotaLeak(run, i, WorkloadKey(namespace, n));
    }
  }

  lemma NextNotStale(s: Sys, start: string, r: Reply)
    requires NoLeak(s) && WorkerOk(s) && !s.worker.DropStaleWorkload?
    ensures !WorkerNext(s, start, r).worker.DropStaleWorkload?
  {
    match s.worker
    case GetWorkload(l) =>
      assert WorkerNext(s, start, r) == StepGetWorkload(s, l, r);
      if KeyOf(l) in s.workloads { assert Backed(s.leases, KeyOf(l), s.workloads[KeyOf(l)]); }
    case Idle =>
    case _ =>
  }

  /** The delete-and-recreate branch for a mismatched Workload is never taken: there is none. */
  lemma {:induction false} NoStaleWorkload(run: Run, i: nat)
    requires IsRun(run) && i < |run.states|
    ensures !run.states[i].worker.DropStaleWorkload?
  {
    if i > 0 {
      NoStaleWorkload(run, i - 1);
      RunInv(run, i - 1);
      assert StepAt(run, i - 1);
      var s, l := run.states[i - 1], run.labels[i - 1];
      match l {
        case Work(start, r) => NextNotStale(s, start, r);
        case PoolStep(c, r) => PoolSound(s, c, r);
        case Env(e) => EnvSound(s, e);
      }
    }
  }
}
