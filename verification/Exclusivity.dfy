/**
 No two pods ever compute on the same GPU, as long as a release that finds its claim pod still
 computing for the lease gets through to it. The reason: a pod that is warming up or hot for
 a lease is the pod that lease claims, and that lease is neither gone nor Failed. Each step
 keeps this if and only if it is not a release call lost on a computing pod.
 */
module Exclusivity {
  import opened Options
  import opened Names
  import opened Objects
  import opened Protocol
  import opened Safety
  import opened History

  /** The claim pod computes for the lease. */
  predicate Computes(s: Sys, l: Lease) {
    l.spec.claim.pod in s.pods && s.pods[l.spec.claim.pod].machine.ActiveOn(l.name)
  }

  /** The two calls that quiet a pod before its lease ends get through, where there is a pod to quiet. */
  predicate Delivered(s: Sys, l: Label) {
    l.Work? && (s.worker.LookupForRelease? || s.worker.DeleteLease?) && Computes(s, s.worker.l) ==>
      if s.worker.DeleteLease? then l.r.Effective() else l.r.ok
  }

  /** The lease a pod computes for exists, is not Failed, claims this pod and is what was asked for. */
  predicate Entitled(leases: map<string, Lease>, k: PodKey, p: Pod) {
    p.machine.Active() ==>
      && p.machine.req.lease in leases
      && (var l := leases[p.machine.req.lease];
          && p.machine.req == RequestOf(l)
          && l.spec.claim == ClaimRef(k, p.uid)
          && l.phase != Failed
          && p.hasIP && p.node == l.spec.node)
  }

  ghost predicate AllEntitled(leases: map<string, Lease>, pods: map<PodKey, Pod>) {
    forall k :: k in pods ==> Entitled(leases, k, pods[k])
  }

  ghost predicate NobodyOn(pods: map<PodKey, Pod>, name: string) {
    forall k :: k in pods ==> !pods[k].machine.ActiveOn(name)
  }

  /** Past the DELETE, nobody computes for the lease that is about to end. */
  ghost predicate Quieted(s: Sys) {
    s.worker.RevertPod? || s.worker.Finish? ==> NobodyOn(s.pods, s.worker.l.name)
  }

  /** A pod about to be POSTed to was seen with an IP, which it does not lose. */
  predicate Posting(s: Sys) {
    s.worker.PostLease? && Reaches(s, s.worker.l.spec.claim.pod, s.worker.uid) ==>
      s.pods[s.worker.l.spec.claim.pod].hasIP
  }

  ghost predicate Core(s: Sys) {
    AllEntitled(s.leases, s.pods) && Quieted(s) && Posting(s)
  }

  /** No live lease, but possibly `except`, is lost, failed or altered. */
  ghost predicate Keeps(before: map<string, Lease>, after: map<string, Lease>, except: Option<string>) {
    forall n :: n in before && before[n].phase != Failed && Some(n) != except ==>
      && n in after && after[n].phase != Failed
      && after[n].spec == before[n].spec && after[n].name == before[n].name
  }

  lemma KeepsEntitled(before: map<string, Lease>, after: map<string, Lease>, except: Option<string>, pods: map<PodKey, Pod>)
    requires AllEntitled(before, pods) && Keeps(before, after, except)
    requires except.Some? ==> NobodyOn(pods, except.value)
    ensures AllEntitled(after, pods)
  {
    forall k | k in pods ensures Entitled(after, k, pods[k]) {
      assert Entitled(before, k, pods[k]);
    }
  }

  lemma SparesKeeps(s: Sys, t: Sys)
    requires StoreOk(s) && Spares(s, t)
    ensures Keeps(s.leases, t.leases, None)
  {
    forall n | n in s.leases && s.leases[n].phase != Failed ensures Spared(s, t, n) {
      assert LeaseOk(s.rev, n, s.leases[n]);
    }
  }

  /** Whoever computes afterwards was computing before, for the same request. */
  predicate CalmPod(before: Pod, after: Pod) {
    && after.uid == before.uid && after.node == before.node && (before.hasIP ==> after.hasIP)
    && (after.machine.Active() ==> before.machine.Active() && after.machine.req == before.machine.req)
  }

  ghost predicate Calm(before: map<PodKey, Pod>, after: map<PodKey, Pod>, rev: nat) {
    forall k :: k in after ==>
      (k in before && CalmPod(before[k], after[k])) || (after[k].machine.Warm? && after[k].uid > rev)
  }

  lemma CalmCore(leases: map<string, Lease>, before: map<PodKey, Pod>, after: map<PodKey, Pod>, rev: nat)
    requires Calm(before, after, rev)
    ensures AllEntitled(leases, before) ==> AllEntitled(leases, after)
    ensures forall n :: NobodyOn(before, n) ==> NobodyOn(after, n)
  {
    if AllEntitled(leases, before) {
      forall k | k in after && after[k].machine.Active() ensures Entitled(leases, k, after[k]) {
        assert Entitled(leases, k, before[k]);
      }
    }
  }

  lemma PatchCalm(s: Sys, key: PodKey, read: Pod, state: StateLabel, r: Reply)
    ensures Calm(s.pods, PatchState(s, key, read, state, r).pods, s.rev)
  {
  }

  lemma PoolCalm(s: Sys, c: PoolCall, r: Reply)
    requires PoolEnabled(s, c)
    ensures Calm(s.pods, PoolNext(s, c, r).pods, s.rev)
  {
    if c.PatchLabel? {
      PatchCalm(s, s.pool.key, s.pool.pod, if s.pool.PoolLabel? then LabelActivating else LabelReleasing, r);
    } else {
      assert PoolNext(s, c, r).pods == s.pods;
    }
  }

  lemma EnvCalm(s: Sys, e: Event)
    requires EnvEnabled(s, e)
    ensures Calm(s.pods, EnvNext(s, e).pods, s.rev)
  {
  }

  lemma OthersCore(s: Sys, t: Sys)
    requires StoreOk(s) && WorkerOk(s) && Core(s) && Spares(s, t) && Calm(s.pods, t.pods, s.rev)
    ensures Core(t)
  {
    SparesKeeps(s, t);
    KeepsEntitled(s.leases, t.leases, None, s.pods);
    CalmCore(t.leases, s.pods, t.pods, s.rev);
    if s.worker.PostLease? { assert LeaseOk(s.rev, s.worker.l.name, s.leases[s.worker.l.name]); }
  }

  // The worker.

  lemma PostEntitled(s: Sys, l: Lease, uid: nat, r: Reply)
    requires AllEntitled(s.leases, s.pods) && HeldIn(s.leases, l, Admitted) && uid == l.spec.claim.uid
    requires Reaches(s, l.spec.claim.pod, uid) ==> s.pods[l.spec.claim.pod].hasIP
    ensures AllEntitled(s.leases, StepPostLease(s, l, uid, r).pods)
  {
    var t := StepPostLease(s, l, uid, r);
    forall k | k in t.pods ensures Entitled(s.leases, k, t.pods[k]) {
      assert Entitled(s.leases, k, s.pods[k]);
    }
  }

  /** Whoever computes for a lease is the pod it claims. */
  lemma OnlyTheClaimPod(s: Sys, l: Lease)
    requires AllEntitled(s.leases, s.pods) && Held(s.leases, l)
    ensures NobodyOn(s.pods, l.name) <==> !Computes(s, l)
    ensures Computes(s, l) ==> s.pods[l.spec.claim.pod].uid == l.spec.claim.uid && s.pods[l.spec.claim.pod].hasIP
  {
    forall k | k in s.pods && s.pods[k].machine.ActiveOn(l.name)
      ensures k == l.spec.claim.pod && s.pods[k].uid == l.spec.claim.uid && s.pods[k].hasIP
    {
      assert Entitled(s.leases, k, s.pods[k]);
    }
  }

  lemma LookupCore(s: Sys, l: Lease, why: Why, r: Reply)
    requires AllEntitled(s.leases, s.pods) && Held(s.leases, l) && l.spec.claim.uid > 0
    requires s.worker == LookupForRelease(l, why)
    ensures Core(StepLookupForRelease(s, l, why, r)) <==> (Computes(s, l) ==> r.ok)
  {
    OnlyTheClaimPod(s, l);
  }

  lemma DeleteCore(s: Sys, l: Lease, why: Why, pod: Pod, r: Reply)
    requires AllEntitled(s.leases, s.pods) && Held(s.leases, l) && pod.uid == l.spec.claim.uid
    requires s.worker == DeleteLease(l, why, pod)
    ensures Core(StepDeleteLease(s, l, why, pod, r)) <==> (Computes(s, l) ==> r.Effective())
  {
    var t := StepDeleteLease(s, l, why, pod, r);
    OnlyTheClaimPod(s, l);
    DeleteCalm(s, l, why, pod, r);
    CalmCore(s.leases, s.pods, t.pods, s.rev);
    OnlyTheClaimPod(t, l);
  }

  lemma PutKeeps(s: Sys, m: Lease, except: Option<string>)
    requires Current(s, m) ==>
      && m.spec == s.leases[m.name].spec
      && (Some(m.name) != except ==> m.finalizer && (m.phase == Failed ==> s.leases[m.name].phase == Failed))
      && s.leases[m.name].name == m.name
    ensures Keeps(s.leases, Put(s, m).leases, except)
  {
  }

  /** The lease whose life a write of the worker ends. */
  function Ending(w: Worker): Option<string> {
    if w.Finish? then Some(w.l.name) else None
  }

  lemma WriteKeeps(s: Sys, r: Reply)
    requires StoreOk(s) && WorkerOk(s) && Writes(s.worker)
    ensures Keeps(s.leases, TryPut(s, Written(s.worker, s.now), r).leases, Ending(s.worker))
  {
    var m := Written(s.worker, s.now);
    if Current(s, s.worker.l) {
      WrittenOk(s);
      assert LeaseOk(s.rev, m.name, s.leases[m.name]);
    }
    PutKeeps(s, m, Ending(s.worker));
  }

  lemma WriteCore(s: Sys, t: Sys)
    requires Core(s) && Keeps(s.leases, t.leases, Ending(s.worker)) && t.pods == s.pods
    requires t.worker.Idle? || t.worker.DropWorkload?
    ensures Core(t)
  {
    KeepsEntitled(s.leases, t.leases, Ending(s.worker), s.pods);
  }

  lemma LookupPodCore(s: Sys, l: Lease, r: Reply)
    requires Core(s) && l.spec.claim.uid > 0
    ensures Core(StepLookupPod(s, l, r))
  {
  }

  lemma DeleteCalm(s: Sys, l: Lease, why: Why, pod: Pod, r: Reply)
    ensures Calm(s.pods, StepDeleteLease(s, l, why, pod, r).pods, s.rev)
  {
  }

  /** Only a POST wakes a pod. */
  lemma WorkerCalm(s: Sys, start: string, r: Reply)
    requires StoreOk(s) && WorkerOk(s) && !s.worker.PostLease?
    ensures Calm(s.pods, WorkerNext(s, start, r).pods, s.rev)
  {
    match s.worker {
      case MarkHot(l, pod, _) => PatchCalm(s, l.spec.claim.pod, pod, LabelHot, r);
      case DeleteLease(l, why, pod) => DeleteCalm(s, l, why, pod, r);
      case RevertPod(l, _, pod) => PatchCalm(s, l.spec.claim.pod, pod, LabelWarm, r);
      case _ => PodsStay(s, start, r);
    }
  }

  lemma PodsStay(s: Sys, start: string, r: Reply)
    requires !TalksToPod(s.worker)
    ensures WorkerNext(s, start, r).pods == s.pods
  {
    if Writes(s.worker) { WriteShape(s, start, r); } else { PodsStayUnwritten(s, start, r); }
  }

  lemma PodsStayUnwritten(s: Sys, start: string, r: Reply)
    requires !TalksToPod(s.worker) && !Writes(s.worker)
    ensures WorkerNext(s, start, r).pods == s.pods
  {
    match s.worker
    case GetWorkload(l) => assert WorkerNext(s, start, r) == StepGetWorkload(s, l, r);
    case CreateWorkload(l) => assert WorkerNext(s, start, r) == StepCreateWorkload(s, l, r);
    case LookupPod(l) => assert WorkerNext(s, start, r) == StepLookupPod(s, l, r);
    case _ =>
  }

  lemma PostCore(s: Sys, l: Lease, uid: nat, r: Reply)
    requires Core(s) && s.worker == PostLease(l, uid) && HeldIn(s.leases, l, Admitted) && uid == l.spec.claim.uid
    ensures Core(StepPostLease(s, l, uid, r))
  {
    PostEntitled(s, l, uid, r);
  }

  /** The two patches of the pod object. */
  lemma PatchCore(s: Sys, start: string, r: Reply)
    requires Core(s) && (s.worker.MarkHot? || s.worker.RevertPod?)
    ensures Core(WorkerNext(s, start, r))
  {
    match s.worker
    case MarkHot(l, pod, seen) =>
      PatchCalm(s, l.spec.claim.pod, pod, LabelHot, r);
      CalmCore(s.leases, s.pods, StepMarkHot(s, l, pod, seen, r).pods, s.rev);
    case RevertPod(l, why, pod) =>
      PatchCalm(s, l.spec.claim.pod, pod, LabelWarm, r);
      CalmCore(s.leases, s.pods, StepRevertPod(s, l, why, pod, r).pods, s.rev);
  }

  lemma WriteCallCore(s: Sys, start: string, r: Reply)
    requires StoreOk(s) && WorkerOk(s) && Core(s) && Writes(s.worker)
    ensures Core(WorkerNext(s, start, r))
  {
    WriteStep(s, start, r);
    WriteKeeps(s, r);
    WriteCore(s, WorkerNext(s, start, r));
  }

  /** Calls that touch neither leases nor pods and lead to none that need something of them. */
  lemma SilentCall(s: Sys, start: string, r: Reply)
    requires s.worker.Idle? || s.worker.GetWorkload? || s.worker.PollState? || s.worker.CreateWorkload?
             || s.worker.DropWorkload? || s.worker.DropStaleWorkload?
    ensures var t := WorkerNext(s, start, r);
      t.leases == s.leases && t.pods == s.pods && !t.worker.RevertPod? && !t.worker.Finish? && !t.worker.PostLease?
  {
    match s.worker
    case GetWorkload(l) => assert WorkerNext(s, start, r) == StepGetWorkload(s, l, r);
    case PollState(l, pod) => assert WorkerNext(s, start, r) == StepPollState(s, l, pod, r);
    case CreateWorkload(l) => assert WorkerNext(s, start, r) == StepCreateWorkload(s, l, r);
    case _ =>
  }

  /** Calls other than those of a release keep the core whatever becomes of them. */
  lemma OtherCallCore(s: Sys, start: string, r: Reply)
    requires Inv(s) && Core(s) && !s.worker.LookupForRelease? && !s.worker.DeleteLease?
    ensures Core(WorkerNext(s, start, r))
  {
    if Writes(s.worker) { WriteCallCore(s, start, r); }
    else if s.worker.PostLease? { PostCore(s, s.worker.l, s.worker.uid, r); }
    else if TalksToPod(s.worker) { PatchCore(s, start, r); }
    else if s.worker.LookupPod? {
      assert LeaseOk(s.rev, s.worker.l.name, s.leases[s.worker.l.name]);
      LookupPodCore(s, s.worker.l, r);
    }
    else { SilentCall(s, start, r); }
  }

  lemma ReleaseCallCore(s: Sys, start: string, r: Reply)
    requires StoreOk(s) && WorkerOk(s) && Core(s) && (s.worker.LookupForRelease? || s.worker.DeleteLease?)
    ensures Core(WorkerNext(s, start, r)) <==> Delivered(s, Work(start, r))
  {
    assert LeaseOk(s.rev, s.worker.l.name, s.leases[s.worker.l.name]);
    match s.worker
    case LookupForRelease(l, why) => LookupCore(s, l, why, r);
    case DeleteLease(l, why, pod) => DeleteCore(s, l, why, pod, r);
  }

  lemma WorkerCore(s: Sys, start: string, r: Reply)
    requires Inv(s) && Core(s)
    ensures Core(WorkerNext(s, start, r)) <==> Delivered(s, Work(start, r))
  {
    if s.worker.LookupForRelease? || s.worker.DeleteLease? { ReleaseCallCore(s, start, r); } else { OtherCallCore(s, start, r); }
  }

  /** Exactly the steps that do not lose a release call on a computing pod keep the core. */
  lemma CoreIffDelivered(s: Sys, l: Label)
    requires Inv(s) && Core(s) && Enabled(s, l)
    ensures Core(Next(s, l)) <==> Delivered(s, l)
  {
    match l {
      case Work(start, r) => WorkerCore(s, start, r);
      case PoolStep(c, r) => PoolSound(s, c, r); PoolCalm(s, c, r); OthersCore(s, Next(s, l));
      case Env(e) => EnvSound(s, e); EnvCalm(s, e); OthersCore(s, Next(s, l));
    }
  }

  ghost predicate DeliveredRun(run: Run)
    requires IsRun(run)
  {
    forall i :: 0 <= i < |run.labels| ==> Delivered(run.states[i], run.labels[i])
  }

  lemma {:induction false} RunCore(run: Run, i: nat)
    requires IsRun(run) && DeliveredRun(run) && i < |run.states|
    ensures Core(run.states[i])
  {
    if i > 0 {
      RunInv(run, i - 1);
      RunCore(run, i - 1);
      assert StepAt(run, i - 1);
      CoreIffDelivered(run.states[i - 1], run.labels[i - 1]);
    }
  }

  /** A pod that computes does so on the GPU its lease names, with the lease alive and claiming it. */
  lemma ComputingPodIsClaimed(run: Run, i: nat, k: PodKey)
    requires IsRun(run) && DeliveredRun(run) && i < |run.states|
    requires k in run.states[i].pods && run.states[i].pods[k].machine.Active()
    ensures var s, q := run.states[i], run.states[i].pods[k].machine.req;
      && q.lease == LeaseName(q.node, q.gpu)
      && q.lease in s.leases && s.leases[q.lease].phase != Failed
      && s.leases[q.lease].spec.claim == ClaimRef(k, s.pods[k].uid)
      && s.leases[q.lease].spec.node == q.node == s.pods[k].node
      && s.leases[q.lease].spec.gpu == q.gpu && s.leases[q.lease].spec.model == q.model
  {
    RunCore(run, i);
    var q := run.states[i].pods[k].machine.req;
    assert Entitled(run.states[i].leases, k, run.states[i].pods[k]);
    NamedAfterGPU(run, i, q.lease);
    RunInv(run, i);
    assert LeaseOk(run.states[i].rev, q.lease, run.states[i].leases[q.lease]);
  }

  /** No two pods are ever warming up or hot on the same GPU of the same node. */
  lemma NoSharedGPU(run: Run, i: nat, k1: PodKey, k2: PodKey)
    requires IsRun(run) && DeliveredRun(run) && i < |run.states|
    requires k1 in run.states[i].pods && run.states[i].pods[k1].machine.Active()
    requires k2 in run.states[i].pods && run.states[i].pods[k2].machine.Active()
    requires run.states[i].pods[k1].machine.req.node == run.states[i].pods[k2].machine.req.node
    requires run.states[i].pods[k1].machine.req.gpu == run.states[i].pods[k2].machine.req.gpu
    ensures k1 == k2
  {
    ComputingPodIsClaimed(run, i, k1);
    ComputingPodIsClaimed(run, i, k2);
  }
}
