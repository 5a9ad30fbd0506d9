/**
 Reconciles get through. Once the worker has decided what to do with a lease, and its lease and
 Workload calls work, a fixed number of calls later that is done, whatever becomes of the pod
 lookup, of DELETE /lease and of the revert of a release, and whatever the other actors do in
 between. Deletion in particular always gets through, wherever an earlier attempt was cut short.
 */
module Release {
  import opened PodMachine
  import opened Objects
  import opened Protocol
  import opened Safety

  /** What a worker that has decided is about to bring about. */
  datatype Goal = WorkloadCreated | LeaseIn(phase: Phase) | LeaseGone

  /** How many calls are left until then, 0 if the worker has not decided anything. */
  function CallsLeft(w: Worker): nat {
    match w
    case CreateWorkload(_) => 2
    case RecordWorkload(_) => 1
    case WriteAdmitted(_) => 1
    case WriteActivating(_) => 1
    case MarkHot(_, _, _) => 2
    case WriteBound(_, _) => 1
    case WriteReleasing(_) => 6
    case DropWorkload(_, _) => 5
    case LookupForRelease(_, _) => 4
    case DeleteLease(_, _, _) => 3
    case RevertPod(_, _, _) => 2
    case Finish(_, _) => 1
    case _ => 0
  }

  function GoalOf(w: Worker): Goal
    requires CallsLeft(w) > 0
  {
    match w
    case CreateWorkload(_) => WorkloadCreated
    case RecordWorkload(_) => WorkloadCreated
    case WriteAdmitted(_) => LeaseIn(Admitted)
    case WriteActivating(_) => LeaseIn(Activating)
    case MarkHot(_, _, _) => LeaseIn(Bound)
    case WriteBound(_, _) => LeaseIn(Bound)
    case WriteReleasing(_) => LeaseGone
    case DropWorkload(_, why) => EndOf(why)
    case LookupForRelease(_, why) => EndOf(why)
    case DeleteLease(_, why, _) => EndOf(why)
    case RevertPod(_, why, _) => EndOf(why)
    case Finish(_, why) => EndOf(why)
  }

  function EndOf(why: Why): Goal {
    if why.ForRelease? then LeaseGone else LeaseIn(Failed)
  }

  /** The lease and Workload calls work, and the pod to be marked hot is there; the calls of a release to the pod may do anything. */
  predicate StoreWorks(s: Sys, l: Label) {
    l.Work? ==>
      && (WritesStore(s.worker) || s.worker.DropWorkload? || s.worker.MarkHot? ==> l.r.ok)
      && (s.worker.MarkHot? ==> s.worker.l.spec.claim.pod in s.pods)
  }

  predicate Gone(s: Sys, k: WorkloadKey) {
    k.name !in s.leases && k !in s.workloads
  }

  predicate StillThere(s: Sys, l: Lease) {
    l.name in s.leases && s.leases[l.name].uid == l.uid
  }

  /** What has been brought about; a lease that is to stay may have been deleted meanwhile. */
  predicate Reached(s: Sys, l: Lease, goal: Goal) {
    var key := WorkloadKey(l.spec.claim.pod.namespace, l.name);
    match goal
    case LeaseGone => Gone(s, key)
    case LeaseIn(phase) =>
      && StillThere(s, l) && (s.leases[l.name].deleting || s.leases[l.name].phase == phase)
      && (phase == Failed ==> key !in s.workloads)
    case WorkloadCreated =>
      && StillThere(s, l) && (s.leases[l.name].deleting || s.leases[l.name].workloadName == l.name)
      && key in s.workloads
  }

  predicate SameLease(l: Lease, m: Lease) {
    m.name == l.name && m.uid == l.uid && m.spec == l.spec
  }

  /** Where a call leads: to the goal, or closer to it. */
  ghost predicate Closer(s: Sys, t: Sys) {
    && CallsLeft(s.worker) > 0
    && if t.worker.Idle? then Reached(t, s.worker.l, GoalOf(s.worker))
       else 0 < CallsLeft(t.worker) < CallsLeft(s.worker) && GoalOf(t.worker) == GoalOf(s.worker) && SameLease(s.worker.l, t.worker.l)
  }

  lemma ReleaseBegins(s: Sys, l: Lease, r: Reply)
    requires StoreOk(s) && WorkerOk(s) && s.worker == WriteReleasing(l) && r.ok
    ensures Closer(s, StepWriteReleasing(s, l, r))
  {
  }

  lemma CleanupEnds(s: Sys, l: Lease, why: Why, r: Reply)
    requires StoreOk(s) && WorkerOk(s) && s.worker == Finish(l, why) && r.ok
    ensures Closer(s, StepFinish(s, l, why, r))
  {
  }

  lemma CleanupGoesOn(s: Sys, start: string, r: Reply)
    requires s.worker.DropWorkload? || s.worker.LookupForRelease? || s.worker.DeleteLease? || s.worker.RevertPod?
    requires StoreWorks(s, Work(start, r))
    ensures Closer(s, WorkerNext(s, start, r))
  {
    match s.worker
    case DropWorkload(l, why) => assert WorkerNext(s, start, r) == StepDropWorkload(s, l, why, r);
    case LookupForRelease(l, why) => assert WorkerNext(s, start, r) == StepLookupForRelease(s, l, why, r);
    case DeleteLease(l, why, pod) => assert WorkerNext(s, start, r) == StepDeleteLease(s, l, why, pod, r);
    case RevertPod(l, why, pod) => assert WorkerNext(s, start, r) == StepRevertPod(s, l, why, pod, r);
  }

  lemma WriteEnds(s: Sys, start: string, r: Reply)
    requires StoreOk(s) && WorkerOk(s) && r.ok
    requires s.worker.RecordWorkload? || s.worker.WriteAdmitted? || s.worker.WriteActivating? || s.worker.WriteBound?
    ensures Closer(s, WorkerNext(s, start, r))
  {
    WriteShape(s, start, r);
  }

  lemma CreateGoesOn(s: Sys, l: Lease, r: Reply)
    requires HeldIn(s.leases, l, Pending) && s.worker == CreateWorkload(l) && r.ok
    ensures Closer(s, StepCreateWorkload(s, l, r))
  {
  }

  lemma MarkHotGoesOn(s: Sys, l: Lease, pod: Pod, seen: Machine, r: Reply)
    requires s.worker == MarkHot(l, pod, seen) && r.ok && l.spec.claim.pod in s.pods
    ensures Closer(s, StepMarkHot(s, l, pod, seen, r))
  {
  }

  /** Each working call of a worker that has decided brings its goal closer. */
  lemma WorkingCall(s: Sys, start: string, r: Reply)
    requires StoreOk(s) && WorkerOk(s) && CallsLeft(s.worker) > 0 && StoreWorks(s, Work(start, r))
    ensures Closer(s, WorkerNext(s, start, r))
  {
    match s.worker
    case WriteReleasing(l) => ReleaseBegins(s, l, r);
    case Finish(l, why) => CleanupEnds(s, l, why, r);
    case CreateWorkload(l) => CreateGoesOn(s, l, r);
    case MarkHot(l, pod, seen) => MarkHotGoesOn(s, l, pod, seen, r);
    case _ => if Writes(s.worker) { WriteEnds(s, start, r); } else { CleanupGoesOn(s, start, r); }
  }

  /** The number of calls the worker makes. */
  function Calls(labels: seq<Label>): nat {
    if labels == [] then 0 else (if labels[0].Work? then 1 else 0) + Calls(labels[1..])
  }

  lemma {:induction false} Finishes(run: Run, i: nat, j: nat) returns (k: nat)
    requires IsRun(run) && i <= j < |run.states| && CallsLeft(run.states[i].worker) > 0
    requires forall p :: i <= p < j ==> StoreWorks(run.states[p], run.labels[p])
    requires Calls(run.labels[i..j]) >= CallsLeft(run.states[i].worker)
    ensures i < k <= j && run.states[k].worker.Idle?
    ensures Reached(run.states[k], run.states[i].worker.l, GoalOf(run.states[i].worker))
    decreases j - i
  {
    assert i < j;
    var s, l := run.states[i], run.labels[i];
    RunInv(run, i);
    assert StepAt(run, i);
    assert run.labels[i..j][0] == l && run.labels[i..j][1..] == run.labels[i + 1..j];
    assert StoreWorks(s, l);
    match l {
      case Work(start, r) =>
        WorkingCall(s, start, r);
        if run.states[i + 1].worker.Idle? { k := i + 1; return; }
      case PoolStep(c, r) => PoolSound(s, c, r);
      case Env(e) => EnvSound(s, e);
    }
    k := Finishes(run, i + 1, j);
  }

  /**
   From any reachable state in which the worker takes up a lease with a deletion timestamp, however
   far earlier attempts got: within six of its calls lease and Workload are gone.
   */
  lemma DeletionCompletes(run: Run, i: nat, j: nat, n: string) returns (k: nat)
    requires IsRun(run) && i < j < |run.states| && run.states[i].worker.Idle?
    requires run.labels[i].Work? && run.labels[i].start == n && run.labels[i].r.ok
    requires n in run.states[i].leases && run.states[i].leases[n].deleting
    requires forall p :: i < p < j ==> StoreWorks(run.states[p], run.labels[p])
    requires Calls(run.labels[i + 1..j]) >= 6
    ensures i < k <= j && run.states[k].worker.Idle?
    ensures n !in run.states[k].leases
    ensures WorkloadKey(run.states[i].leases[n].spec.claim.pod.namespace, n) !in run.states[k].workloads
  {
    RunInv(run, i);
    assert StepAt(run, i);
    assert LeaseOk(run.states[i].rev, n, run.states[i].leases[n]);
    k := Finishes(run, i + 1, j);
  }
}
