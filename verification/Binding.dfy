/**
 A lease becomes Bound only on its own GPU. The reconciler binds as soon as the claim pod
 reports "hot" and never compares names; what makes this right is that the pod accepts one
 lease at a time. Each step keeps it right if and only if it is not a POST that wakes a pod
 while another lease is waiting for that pod.
 */
module Binding {
  import opened Options
  import opened Names
  import opened PodMachine
  import opened Objects
  import opened Protocol
  import opened Safety
  import opened History
  import Exclusivity

  predicate Waits(l: Lease) {
    l.phase == Activating && !l.deleting
  }

  /** If the claimed pod computes, it computes for l. */
  predicate OnOwn(pods: map<PodKey, Pod>, l: Lease) {
    var k := l.spec.claim.pod;
    k in pods && pods[k].uid == l.spec.claim.uid && pods[k].machine.Active() ==> pods[k].machine.req.lease == l.name
  }

  ghost predicate AllOnOwn(leases: map<string, Lease>, pods: map<PodKey, Pod>) {
    forall n :: n in leases && Waits(leases[n]) ==> OnOwn(pods, leases[n])
  }

  ghost predicate NoRival(leases: map<string, Lease>, l: Lease) {
    forall n :: n in leases && n != l.name && Waits(leases[n]) ==> leases[n].spec.claim != l.spec.claim
  }

  /** The POST the worker is about to send finds the claim pod warm, on the right node, and is delivered. */
  predicate Wakes(s: Sys, l: Label) {
    && l.Work? && s.worker.PostLease? && l.r.Effective()
    && (var k := s.worker.l.spec.claim.pod;
        && Reaches(s, k, s.worker.uid) && s.pods[k].machine.Warm? && s.pods[k].node == s.worker.l.spec.node)
  }

  /** A POST that wakes a pod is sent only while no other lease is waiting for that pod. */
  ghost predicate Unrivalled(s: Sys, l: Label) {
    Wakes(s, l) ==> NoRival(s.leases, s.worker.l)
  }

  ghost predicate WorkerOnOwn(s: Sys) {
    match s.worker
    case LookupPod(l) => l.phase == Activating ==> OnOwn(s.pods, l)
    case WriteActivating(l) => OnOwn(s.pods, l)
    case PollState(l, _) => OnOwn(s.pods, l)
    case MarkHot(l, _, seen) => seen.Hot? && seen.req.lease == l.name
    case WriteBound(l, seen) => seen.Hot? && seen.req.lease == l.name
    case _ => true
  }

  ghost predicate Own(s: Sys) {
    AllOnOwn(s.leases, s.pods) && WorkerOnOwn(s)
  }

  // The pool and the environment.

  /** Nothing starts waiting. */
  ghost predicate NoNewWaiter(before: map<string, Lease>, after: map<string, Lease>) {
    forall n :: n in after && Waits(after[n]) ==>
      n in before && Waits(before[n]) && after[n].spec == before[n].spec && after[n].name == before[n].name
  }

  lemma OthersWaiters(s: Sys, t: Sys)
    requires LeasesOk(s.leases, s.rev) && LeaseHistory(s, t.leases) && Spares(s, t)
    ensures NoNewWaiter(s.leases, t.leases)
  {
    forall n | n in t.leases && Waits(t.leases[n])
      ensures n in s.leases && Waits(s.leases[n])
    {
      if n in s.leases {
        assert LeaseOk(s.rev, n, s.leases[n]);
        if s.leases[n].phase != Failed { assert Spared(s, t, n); }
      }
    }
  }

  lemma OthersOwn(s: Sys, t: Sys)
    requires StoreOk(s) && Own(s) && NoNewWaiter(s.leases, t.leases) && t.worker == s.worker
    requires Exclusivity.Calm(s.pods, t.pods, s.rev) && WorkerOk(s)
    ensures Own(t)
  {
    forall n | n in t.leases && Waits(t.leases[n]) ensures OnOwn(t.pods, t.leases[n]) {
      assert OnOwn(s.pods, s.leases[n]);
      assert LeaseOk(s.rev, n, s.leases[n]);
    }
    if !s.worker.Idle? && s.worker.l.name in s.leases {
      assert LeaseOk(s.rev, s.worker.l.name, s.leases[s.worker.l.name]);
    }
  }

  // The worker.

  lemma DispatchOwn(s: Sys, start: string, r: Reply)
    requires StoreOk(s) && Own(s) && s.worker.Idle?
    ensures Own(WorkerNext(s, start, r))
  {
    if start in s.leases { assert LeaseOk(s.rev, start, s.leases[start]); }
  }

  /** A POST that does not wake the pod does not change it, and is accepted only for the lease the pod computes for. */
  lemma FutilePostOwn(s: Sys, l: Lease, uid: nat, start: string, r: Reply)
    requires AllOnOwn(s.leases, s.pods) && s.worker == PostLease(l, uid) && uid == l.spec.claim.uid
    requires !Wakes(s, Work(start, r))
    ensures Own(StepPostLease(s, l, uid, r))
  {
    var t := StepPostLease(s, l, uid, r);
    assert t.pods == s.pods;
  }

  lemma WakingPostOwn(s: Sys, l: Lease, uid: nat, start: string, r: Reply)
    requires AllOnOwn(s.leases, s.pods) && LeasesOk(s.leases, s.rev) && HeldIn(s.leases, l, Admitted)
    requires s.worker == PostLease(l, uid) && uid == l.spec.claim.uid && Wakes(s, Work(start, r))
    ensures Own(StepPostLease(s, l, uid, r)) <==> NoRival(s.leases, l)
  {
    var t, k := StepPostLease(s, l, uid, r), l.spec.claim.pod;
    assert t.pods == s.pods[k := s.pods[k].(machine := WarmingUp(RequestOf(l)))];
    forall n | n in s.leases && Waits(s.leases[n])
      ensures OnOwn(t.pods, s.leases[n]) <==> n == l.name || s.leases[n].spec.claim != l.spec.claim
    {
      assert OnOwn(s.pods, s.leases[n]);
      assert LeaseOk(s.rev, n, s.leases[n]);
    }
  }

  lemma PutOwn(s: Sys, m: Lease)
    requires AllOnOwn(s.leases, s.pods)
    requires Current(s, m) && Waits(m) ==> OnOwn(s.pods, m)
    ensures AllOnOwn(Put(s, m).leases, s.pods)
  {
  }

  lemma WrittenOwn(s: Sys)
    requires WorkerOk(s) && Own(s) && Writes(s.worker) && Current(s, s.worker.l)
    ensures Waits(Written(s.worker, s.now)) ==> OnOwn(s.pods, Written(s.worker, s.now))
  {
  }

  lemma WriteOwn(s: Sys, t: Sys, m: Lease, r: Reply)
    requires Own(s) && (Current(s, m) && Waits(m) ==> OnOwn(s.pods, m))
    requires t == TryPut(s, m, r).(worker := t.worker) && (t.worker.Idle? || t.worker.DropWorkload?)
    ensures Own(t)
  {
    PutOwn(s, m);
  }

  lemma LookupPodOwn(s: Sys, l: Lease, r: Reply)
    requires Own(s) && s.worker == LookupPod(l)
    ensures Own(StepLookupPod(s, l, r))
  {
  }

  lemma PollStateOwn(s: Sys, l: Lease, pod: Pod, r: Reply)
    requires Own(s) && s.worker == PollState(l, pod) && pod.uid == l.spec.claim.uid
    ensures Own(StepPollState(s, l, pod, r))
  {
  }

  lemma ReadOwn(s: Sys, start: string, r: Reply)
    requires WorkerOk(s) && Own(s) && Reads(s.worker)
    ensures Own(WorkerNext(s, start, r))
  {
    match s.worker
    case LookupPod(l) => LookupPodOwn(s, l, r);
    case PollState(l, pod) => PollStateOwn(s, l, pod, r);
    case GetWorkload(l) => assert WorkerNext(s, start, r) == StepGetWorkload(s, l, r);
    case LookupForRelease(l, why) => assert WorkerNext(s, start, r) == StepLookupForRelease(s, l, why, r);
  }

  /** MarkHot, DELETE /lease and the revert wake nobody up. */
  lemma PodCallOwn(s: Sys, start: string, r: Reply)
    requires StoreOk(s) && WorkerOk(s) && Own(s) && TalksToPod(s.worker) && !s.worker.PostLease?
    ensures Own(WorkerNext(s, start, r))
  {
    PodCall(s, start, r);
    Exclusivity.WorkerCalm(s, start, r);
    CalmOwn(s, WorkerNext(s, start, r).pods);
  }

  lemma CalmOwn(s: Sys, pods: map<PodKey, Pod>)
    requires StoreOk(s) && AllOnOwn(s.leases, s.pods) && Exclusivity.Calm(s.pods, pods, s.rev)
    ensures AllOnOwn(s.leases, pods)
  {
    forall n | n in s.leases && Waits(s.leases[n]) ensures OnOwn(pods, s.leases[n]) {
      assert OnOwn(s.pods, s.leases[n]);
      assert LeaseOk(s.rev, n, s.leases[n]);
    }
  }

  lemma WriteCallOwn(s: Sys, start: string, r: Reply)
    requires StoreOk(s) && WorkerOk(s) && Own(s) && Writes(s.worker)
    ensures Own(WorkerNext(s, start, r))
  {
    WriteStep(s, start, r);
    if Current(s, s.worker.l) { WrittenOwn(s); }
    WriteOwn(s, WorkerNext(s, start, r), Written(s.worker, s.now), r);
  }

  lemma OtherCallOwn(s: Sys, start: string, r: Reply)
    requires Inv(s) && Own(s) && !s.worker.PostLease?
    ensures Own(WorkerNext(s, start, r))
  {
    if Writes(s.worker) { WriteCallOwn(s, start, r); }
    else if s.worker.Idle? { DispatchOwn(s, start, r); }
    else if Reads(s.worker) { ReadOwn(s, start, r); }
    else if TalksToPod(s.worker) { PodCallOwn(s, start, r); }
    else if !s.worker.CreateWorkload? { DropCall(s, start, r); }
  }

  lemma WorkerOwn(s: Sys, start: string, r: Reply)
    requires Inv(s) && Own(s)
    ensures Own(WorkerNext(s, start, r)) <==> Unrivalled(s, Work(start, r))
  {
    match s.worker {
      case PostLease(l, uid) =>
        if Wakes(s, Work(start, r)) { WakingPostOwn(s, l, uid, start, r); } else { FutilePostOwn(s, l, uid, start, r); }
      case _ => OtherCallOwn(s, start, r);
    }
  }

  /** Exactly the steps that wake no pod another lease waits for keep every waiting lease on its own GPU. */
  lemma OwnIffUnrivalled(s: Sys, l: Label)
    requires Inv(s) && Own(s) && Enabled(s, l)
    ensures Own(Next(s, l)) <==> Unrivalled(s, l)
  {
    var t := Next(s, l);
    match l {
      case Work(start, r) => WorkerOwn(s, start, r);
      case PoolStep(c, r) =>
        PoolSound(s, c, r); PoolHistory(s, c, r); Exclusivity.PoolCalm(s, c, r);
        OthersWaiters(s, t); OthersOwn(s, t);
      case Env(e) =>
        EnvSound(s, e); EnvHistory(s, e); Exclusivity.EnvCalm(s, e);
        OthersWaiters(s, t); OthersOwn(s, t);
    }
  }

  // Over runs.

  ghost predicate UnrivalledRun(run: Run)
    requires IsRun(run)
  {
    forall i :: 0 <= i < |run.labels| ==> Unrivalled(run.states[i], run.labels[i])
  }

  lemma {:induction false} RunOwn(run: Run, i: nat)
    requires IsRun(run) && UnrivalledRun(run) && i < |run.states|
    ensures Own(run.states[i])
  {
    if i > 0 {
      RunInv(run, i - 1);
      RunOwn(run, i - 1);
      assert StepAt(run, i - 1);
      OwnIffUnrivalled(run.states[i - 1], run.labels[i - 1]);
    }
  }

  /** What a pod computes for is named after the GPU it was given. */
  predicate Named(q: Request) {
    q.lease == LeaseName(q.node, q.gpu)
  }

  ghost predicate GrantsNamed(pods: map<PodKey, Pod>) {
    forall k :: k in pods && pods[k].machine.Active() ==> Named(pods[k].machine.req)
  }

  lemma PostNamed(s: Sys, l: Lease, uid: nat, r: Reply)
    requires GrantsNamed(s.pods) && Named(RequestOf(l))
    ensures GrantsNamed(StepPostLease(s, l, uid, r).pods)
  {
  }

  lemma {:induction false} RunGrantsNamed(run: Run, i: nat)
    requires IsRun(run) && i < |run.states|
    ensures GrantsNamed(run.states[i].pods)
  {
    if i > 0 {
      var s, t, l := run.states[i - 1], run.states[i], run.labels[i - 1];
      RunInv(run, i - 1);
      RunGrantsNamed(run, i - 1);
      assert StepAt(run, i - 1);
      match l {
        case Work(start, r) =>
          if s.worker.PostLease? {
            NamedAfterGPU(run, i - 1, s.worker.l.name);
            PostNamed(s, s.worker.l, s.worker.uid, r);
          } else {
            Exclusivity.WorkerCalm(s, start, r);
          }
        case PoolStep(c, r) => Exclusivity.PoolCalm(s, c, r);
        case Env(e) => Exclusivity.EnvCalm(s, e);
      }
    }
  }

  /** The "hot" a lease is being bound on, if any. */
  function Seen(w: Worker): Option<(Lease, Machine)> {
    match w
    case MarkHot(l, _, seen) => Some((l, seen))
    case WriteBound(l, seen) => Some((l, seen))
    case _ => None
  }

  lemma SeenStep(s: Sys, start: string, r: Reply)
    requires WorkerOk(s) && Seen(WorkerNext(s, start, r).worker).Some?
    ensures var (l, seen) := Seen(WorkerNext(s, start, r).worker).value;
      || Seen(s.worker) == Some((l, seen))
      || (s.worker.PollState? && s.worker.l == l
          && Reaches(s, l.spec.claim.pod, l.spec.claim.uid) && s.pods[l.spec.claim.pod].machine == seen)
  {
    match s.worker
    case PollState(l, pod) => assert WorkerNext(s, start, r) == StepPollState(s, l, pod, r);
    case MarkHot(l, pod, seen) => assert WorkerNext(s, start, r) == StepMarkHot(s, l, pod, seen, r);
    case _ => NothingSeen(s, start, r);
  }

  lemma NothingSeen(s: Sys, start: string, r: Reply)
    requires !s.worker.PollState? && !s.worker.MarkHot?
    ensures Seen(WorkerNext(s, start, r).worker).None?
  {
    match s.worker
    case Idle =>
    case LookupPod(_) =>
    case _ =>
  }

  /** What the worker saw, the claim pod was, earlier in the run. */
  lemma {:induction false} SeenBefore(run: Run, j: nat) returns (i: nat)
    requires IsRun(run) && j < |run.states| && Seen(run.states[j].worker).Some?
    ensures var (l, seen) := Seen(run.states[j].worker).value;
      i < j && Reaches(run.states[i], l.spec.claim.pod, l.spec.claim.uid)
      && run.states[i].pods[l.spec.claim.pod].machine == seen
  {
    assert j > 0;
    RunInv(run, j - 1);
    assert StepAt(run, j - 1);
    var s, l := run.states[j - 1], run.labels[j - 1];
    match l {
      case Work(start, r) => SeenStep(s, start, r);
      case PoolStep(c, r) => PoolSound(s, c, r);
      case Env(e) => EnvSound(s, e);
    }
    if Seen(s.worker).Some? { i := SeenBefore(run, j - 1); } else { i := j - 1; }
  }

  /** Of the worker's writes only one makes a lease Bound. */
  lemma WrittenBound(s: Sys, n: string, r: Reply)
    requires StoreOk(s) && WorkerOk(s) && Writes(s.worker)
    requires n in s.leases && s.leases[n].phase != Bound
    requires n in TryPut(s, Written(s.worker, s.now), r).leases && TryPut(s, Written(s.worker, s.now), r).leases[n].phase == Bound
    ensures s.worker.WriteBound? && s.worker.l.name == n && s.worker.l.spec == s.leases[n].spec
  {
  }

  lemma BoundByWorker(s: Sys, start: string, r: Reply, n: string)
    requires StoreOk(s) && WorkerOk(s) && n in s.leases && n in WorkerNext(s, start, r).leases
    requires s.leases[n].phase != Bound && WorkerNext(s, start, r).leases[n].phase == Bound
    ensures s.worker.WriteBound? && s.worker.l.name == n && s.worker.l.spec == s.leases[n].spec
  {
    if Writes(s.worker) { WriteStep(s, start, r); WrittenBound(s, n, r); }
    else if !s.worker.CreateWorkload? { QuietCall(s, start, r); }
  }

  lemma BoundByWriteBound(s: Sys, l: Label, n: string)
    requires Inv(s) && Enabled(s, l) && n in s.leases && n in Next(s, l).leases
    requires s.leases[n].phase != Bound && Next(s, l).leases[n].phase == Bound
    ensures s.worker.WriteBound? && s.worker.l.name == n && s.worker.l.spec == s.leases[n].spec
  {
    match l {
      case Work(start, r) => BoundByWorker(s, start, r, n);
      case PoolStep(c, r) => PoolSound(s, c, r); PoolHistory(s, c, r); StaysUnbound(s, Next(s, l), n);
      case Env(e) => EnvSound(s, e); EnvHistory(s, e); StaysUnbound(s, Next(s, l), n);
    }
  }

  lemma StaysUnbound(s: Sys, t: Sys, n: string)
    requires LeasesOk(s.leases, s.rev) && LeaseHistory(s, t.leases) && Spares(s, t)
    requires n in s.leases && n in t.leases && s.leases[n].phase != Bound
    ensures t.leases[n].phase != Bound
  {
    assert LeaseOk(s.rev, n, s.leases[n]);
    if s.leases[n].phase != Failed { assert Spared(s, t, n); }
  }

  /**
   In every run in which no POST wakes a pod that another lease waits for, a lease enters Bound only after its claim
   pod was hot on this very lease, on the node and GPU of its spec.
   */
  lemma BindsOwnGPU(run: Run, j: nat, n: string) returns (i: nat)
    requires IsRun(run) && UnrivalledRun(run) && j < |run.labels|
    requires n in run.states[j].leases && run.states[j].leases[n].phase != Bound
    requires n in run.states[j + 1].leases && run.states[j + 1].leases[n].phase == Bound
    ensures var spec := run.states[j].leases[n].spec;
      && i < j && Reaches(run.states[i], spec.claim.pod, spec.claim.uid)
      && (var m := run.states[i].pods[spec.claim.pod].machine;
          m.Hot? && m.req.lease == n && m.req.node == spec.node && m.req.gpu == spec.gpu)
  {
    var s := run.states[j];
    RunInv(run, j);
    assert StepAt(run, j);
    BoundByWriteBound(s, run.labels[j], n);
    RunOwn(run, j);
    i := SeenBefore(run, j);
    RunGrantsNamed(run, i);
    NamedAfterGPU(run, j, n);
    var q := s.worker.seen.req;
    LeaseNameInjective(q.node, q.gpu, s.leases[n].spec.node, s.leases[n].spec.gpu);
  }
}
