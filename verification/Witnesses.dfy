/**
 Why the hypotheses are there: reachable states in which exclusivity, binding on one's own
 GPU and the quota bound fail, each reached by a step that breaks the condition it needs.
 */
module Witnesses {
  import opened Durations
  import opened Names
  import opened PodMachine
  import opened Objects
  import opened Protocol
  import opened Safety
  import opened History
  import Binding
  import Exclusivity
  import Placement
  import Quota
  import Retention

  /** A path of the protocol from one state to another. */
  ghost predicate IsPath(run: Run, s: Sys, t: Sys) {
    && |run.states| == |run.labels| + 1 && run.states[0] == s && run.states[|run.labels|] == t
    && forall i :: 0 <= i < |run.labels| ==> StepAt(run, i)
  }

  ghost predicate Leads(s: Sys, t: Sys) {
    exists run :: IsPath(run, s, t)
  }

  ghost predicate Reachable(s: Sys) {
    Leads(START, s)
  }

  lemma Stay(s: Sys)
    ensures Leads(s, s)
  {
    assert IsPath(Run([s], []), s, s);
  }

  lemma Go(root: Sys, s: Sys, l: Label) returns (t: Sys)
    requires Leads(root, s) && Enabled(s, l)
    ensures Leads(root, t) && t == Next(s, l)
  {
    var run :| IsPath(run, root, s);
    t := Next(s, l);
    var longer := Run(run.states + [t], run.labels + [l]);
    forall i | 0 <= i < |longer.labels| ensures StepAt(longer, i) {
      if i < |run.labels| { assert StepAt(run, i); }
    }
    assert IsPath(longer, root, t);
  }

  lemma Onwards(s: Sys, t: Sys, u: Sys)
    requires Leads(s, t) && Leads(t, u)
    ensures Leads(s, u)
  {
    var p :| IsPath(p, s, t);
    var q :| IsPath(q, t, u);
    var run := Run(p.states + q.states[1..], p.labels + q.labels);
    forall i | 0 <= i < |run.labels| ensures StepAt(run, i) {
      if i < |p.labels| { assert StepAt(p, i); } else { assert StepAt(q, i - |p.labels|); }
    }
    assert IsPath(run, s, u);
  }

  const OK := Reply(true, true, 1)
  const LOST := Reply(false, false, 1)     // the call never arrives
  const UNSEEN := Reply(false, true, 1)    // the call takes effect, its reply is lost

  const NODE := "node"
  const RETENTION: nat := 60 * SECOND
  const NONE := PodKey("", "")

  function Fresh(s: Sys, node: string): Pod {
    Pod(s.rev + 1, node, true, true, true, false, LabelWarm, Warm)
  }

  /** A warm, ready pod appears on the node. */
  lemma NewPod(root: Sys, s: Sys, k: PodKey, node: string) returns (t: Sys)
    requires Leads(root, s) && k !in s.pods
    ensures Leads(root, t) && t == s.(rev := s.rev + 1, pods := s.pods[k := Fresh(s, node)])
  {
    t := Go(root, s, Env(AddPod(k, node, LabelWarm)));
    t := Go(root, t, Env(ChangePod(k, true, true, true, false)));
  }

  function Proposed(s: Sys, k: PodKey, id: nat): Lease
    requires k in s.pods
  {
    NewLease(s, k, s.pods[k], id, "", NONE, "")
  }

  lemma Creates(root: Sys, s: Sys, id: nat) returns (t: Sys)
    requires Leads(root, s) && s.pool.PoolCreate? && LeaseName(s.pool.pod.node, id) !in s.leases
    ensures Leads(root, t)
    ensures var l := NewLease(s, s.pool.key, s.pool.pod, id, "", NONE, "");
      t == s.(rev := s.rev + 1, leases := s.leases[l.name := l], pool := PoolLabel(s.pool.key, s.pool.pod))
  {
    t := Go(root, s, PoolStep(CreateLease(id, "", NONE, ""), OK));
  }

  /** The pool creates a lease for the pod; the label patch that should follow is lost. */
  lemma Propose(root: Sys, s: Sys, k: PodKey, id: nat) returns (t: Sys)
    requires Leads(root, s) && s.pool.PoolIdle? && k in s.pods && Considered(s.pods[k]) && LabelledWarm(s.pods[k])
    requires LeaseName(s.pods[k].node, id) !in s.leases
    ensures Leads(root, t)
    ensures t == s.(rev := s.rev + 1, leases := s.leases[LeaseName(s.pods[k].node, id) := Proposed(s, k, id)])
  {
    t := Go(root, s, PoolStep(BeginPromote(k), OK));
    assert t == s.(pool := PoolCreate(k, s.pods[k]));
    t := Creates(root, t, id);
    t := PoolSettles(root, t);
  }

  function ItsWorkload(s: Sys, l: Lease): Workload {
    Workload(BuildWorkload(l), MetaTime(s.now), true, false, Absent)
  }

  lemma CreatesWorkload(root: Sys, s: Sys, n: string, l: Lease) returns (t: Sys)
    requires Leads(root, s) && s.worker.Idle? && n in s.leases && s.leases[n] == l && l.name == n
    requires l.phase == Pending && l.finalizer && !l.deleting && l.workloadName == "" != n
    requires KeyOf(l) !in s.workloads
    ensures Leads(root, t)
    ensures t == s.(rev := s.rev + 1, leases := s.leases[n := l.(workloadName := n, rv := s.rev + 1)],
                    workloads := s.workloads[KeyOf(l) := ItsWorkload(s, l)])
  {
    t := Go(root, s, Work(n, OK));
    t := Go(root, t, Work(n, OK));
    t := Go(root, t, Work(n, OK));
    t := Go(root, t, Work(n, OK));
    t := Go(root, t, Env(Kueue(KeyOf(l), true, false, Absent)));
  }

  /** Kueue having admitted its Workload, the lease is Admitted. */
  lemma BecomesAdmitted(root: Sys, s: Sys, n: string, l: Lease) returns (t: Sys)
    requires Leads(root, s) && s.worker.Idle? && n in s.leases && s.leases[n] == l && l.name == n
    requires l.phase == Pending && l.finalizer && !l.deleting
    requires KeyOf(l) in s.workloads && s.workloads[KeyOf(l)].spec == BuildWorkload(l) && s.workloads[KeyOf(l)].admitted
    ensures Leads(root, t)
    ensures t == s.(rev := s.rev + 1, leases := s.leases[n := AdmittedLease(l, s.now).(rv := s.rev + 1)])
  {
    t := Go(root, s, Work(n, OK));
    t := Go(root, t, Work(n, OK));
    t := Go(root, t, Work(n, OK));
  }

  /** A new lease for the pod, all the way to Admitted. */
  lemma Leased(root: Sys, s: Sys, k: PodKey, id: nat) returns (t: Sys, l: Lease)
    requires Leads(root, s) && s.pool.PoolIdle? && s.worker.Idle?
    requires k in s.pods && Considered(s.pods[k]) && LabelledWarm(s.pods[k])
    requires LeaseName(s.pods[k].node, id) !in s.leases
    requires WorkloadKey(k.namespace, LeaseName(s.pods[k].node, id)) !in s.workloads
    ensures Leads(root, t)
    ensures l.name == LeaseName(s.pods[k].node, id) && l.phase == Admitted && l.finalizer && !l.deleting
    ensures l.podActivated.Absent? && l.ready.Absent?
    ensures l.spec == Spec(s.pods[k].node, id, "", ClaimRef(k, s.pods[k].uid), NONE, "")
    ensures t.workloads == s.workloads[KeyOf(l) := ItsWorkload(s, l)]
    ensures t == s.(rev := t.rev, leases := s.leases[l.name := l], workloads := t.workloads)
  {
    var n := LeaseName(s.pods[k].node, id);
    t := Propose(root, s, k, id);
    assert n[|s.pods[k].node|] == '-';
    t := CreatesWorkload(root, t, n, t.leases[n]);
    t := BecomesAdmitted(root, t, n, t.leases[n]);
    l := t.leases[n];
  }

  /** POST /lease to a warm claim pod, and the lease is Activating. */
  lemma Activates(root: Sys, s: Sys, n: string, l: Lease, k: PodKey) returns (t: Sys)
    requires Leads(root, s) && s.worker.Idle? && n in s.leases && s.leases[n] == l && l.name == n
    requires l.phase == Admitted && l.finalizer && !l.deleting && l.podActivated.Absent?
    requires l.spec.claim.pod == k && k in s.pods && s.pods[k].uid == l.spec.claim.uid
    requires Considered(s.pods[k]) && s.pods[k].hasIP && s.pods[k].machine.Warm? && s.pods[k].node == l.spec.node
    ensures Leads(root, t)
    ensures t == s.(rev := s.rev + 1, leases := s.leases[n := ActivatingLease(l, s.now).(rv := s.rev + 1)],
                    pods := s.pods[k := s.pods[k].(machine := WarmingUp(RequestOf(l)))])
  {
    t := Go(root, s, Work(n, OK));
    t := Go(root, t, Work(n, OK));
    t := Go(root, t, Work(n, OK));
    t := Go(root, t, Work(n, OK));
  }

  lemma {:induction false} PathInv(run: Run, s: Sys, t: Sys, i: nat)
    requires IsPath(run, s, t) && Inv(s) && i < |run.states|
    ensures Inv(run.states[i])
  {
    if i > 0 {
      PathInv(run, s, t, i - 1);
      assert StepAt(run, i - 1);
      NextInv(run.states[i - 1], run.labels[i - 1]);
    }
  }

  lemma LeadsInv(root: Sys, s: Sys)
    requires Inv(root) && Leads(root, s)
    ensures Inv(s)
  {
    var run :| IsPath(run, root, s);
    PathInv(run, root, s, |run.labels|);
  }

  ghost predicate SharedGPU(s: Sys, k1: PodKey, k2: PodKey) {
    && k1 != k2 && k1 in s.pods && k2 in s.pods
    && s.pods[k1].machine.Active() && s.pods[k2].machine.Active()
    && s.pods[k1].machine.req.node == s.pods[k2].machine.req.node
    && s.pods[k1].machine.req.gpu == s.pods[k2].machine.req.gpu
  }

  /** The pool abandons what it is doing. */
  lemma PoolSettles(root: Sys, s: Sys) returns (t: Sys)
    requires Leads(root, s)
    ensures Leads(root, t) && t == s.(pool := PoolIdle)
  {
    match s.pool
    case PoolIdle => t := s;
    case PoolCreate(_, _) => t := Go(root, s, PoolStep(GiveUp, LOST));
    case PoolLabel(_, _) => t := Go(root, s, PoolStep(PatchLabel, LOST));
    case PoolLabelReleasing(_, _, _) => t := Go(root, s, PoolStep(PatchLabel, LOST));
    case PoolSweep(_) => t := Go(root, s, PoolStep(GetClaimPod(true), LOST));
    case PoolStrip(_) => t := Go(root, s, PoolStep(StripFinalizer, LOST));
    case PoolDelete(_) => t := Go(root, s, PoolStep(DeleteObject, LOST));
  }

  /** A lease is gone and so is its Workload, while the pod it claimed still computes; nothing else is under way. */
  ghost predicate Abandoned(s: Sys, l: Lease) {
    && s.worker.Idle? && s.pool.PoolIdle? && l.name !in s.leases
    && l.spec.claim.pod in s.pods && s.pods[l.spec.claim.pod].machine.ActiveOn(l.name)
  }

  /** The end of a release. */
  lemma EndsByRelease(root: Sys, s: Sys, l: Lease) returns (t: Sys)
    requires Inv(root) && Leads(root, s) && s.worker == Finish(l, ForRelease) && s.pool.PoolIdle?
    ensures Leads(root, t) && t == s.(worker := Idle, rev := s.rev + 1, leases := s.leases - {l.name})
  {
    LeadsInv(root, s);
    t := Go(root, s, Work("", OK));
  }

  /** The end of a Failed lease: once the retention period is over, the sweep strips and deletes it. */
  lemma SweptAway(root: Sys, s: Sys, n: string) returns (t: Sys)
    requires Leads(root, s) && s.pool.PoolIdle? && n in s.leases && s.leases[n].name == n
    requires s.leases[n].phase == Failed && !s.leases[n].deleting && s.leases[n].finalizer
    ensures Leads(root, t) && t == s.(now := t.now, rev := s.rev + 2, leases := s.leases - {n})
  {
    t := Go(root, s, Env(Tick(FailedSince(s.leases[n]) + RETENTION)));
    t := Go(root, t, PoolStep(BeginSweep(n, RETENTION), OK));
    t := Go(root, t, PoolStep(StripFinalizer, OK));
    t := Go(root, t, PoolStep(DeleteObject, OK));
  }

  /** The deletion reconcile of a lease, up to the deletion of its Workload. */
  lemma BeginsRelease(root: Sys, s: Sys, n: string) returns (t: Sys, m: Lease)
    requires Leads(root, s) && s.worker.Idle? && n in s.leases && s.leases[n].name == n
    requires s.leases[n].deleting && s.leases[n].finalizer && s.leases[n].phase != Releasing
    ensures Leads(root, t) && m == ReleasingLease(s.leases[n]).(rv := s.rev + 1)
    ensures t == s.(worker := DropWorkload(m, ForRelease), rev := s.rev + 1, leases := s.leases[n := m])
  {
    t := Go(root, s, Work(n, OK));
    assert t == s.(worker := WriteReleasing(s.leases[n]));
    t := Go(root, t, Work(n, OK));
    m := t.leases[n];
  }

  lemma UpToLookup(root: Sys, s: Sys, n: string) returns (t: Sys, m: Lease)
    requires Leads(root, s) && s.worker.Idle? && n in s.leases && s.leases[n].name == n
    requires s.leases[n].deleting && s.leases[n].finalizer && s.leases[n].phase != Releasing
    ensures Leads(root, t) && m == ReleasingLease(s.leases[n]).(rv := s.rev + 1)
    ensures t == s.(worker := LookupForRelease(m, ForRelease), rev := s.rev + 1, leases := s.leases[n := m],
                    workloads := s.workloads - {KeyOf(m)})
  {
    t, m := BeginsRelease(root, s, n);
    t := Go(root, t, Work(n, OK));
  }

  /** The failure of a lease that was deleted meanwhile is not recorded; the deletion reconcile takes over. */
  lemma DeletedMeanwhile(root: Sys, s: Sys, n: string) returns (t: Sys)
    requires Leads(root, s) && s.worker.Idle? && n in s.leases && s.leases[n].name == n
    requires s.leases[n].deleting && s.leases[n].finalizer && s.leases[n].phase != Releasing
    requires KeyOf(s.leases[n]) !in s.workloads
    ensures Leads(root, t) && t.worker.Finish? && t.worker.why.ForRelease? && t.worker.l.name == n
    ensures t == s.(worker := t.worker, rev := s.rev + 1, leases := t.leases) && t.leases == s.leases[n := t.worker.l]
  {
    var m: Lease;
    t, m := UpToLookup(root, s, n);
    t := Go(root, t, Work(n, LOST));
  }

  /** Past a lost release call, the lease ends one way or another with its pod still computing. */
  lemma EndsAnyway(root: Sys, s: Sys, l: Lease, why: Why) returns (t: Sys)
    requires Inv(root) && Leads(root, s) && s.worker == Finish(l, why) && s.pool.PoolIdle? && Exclusivity.Computes(s, l)
    ensures Leads(root, t) && Abandoned(t, l) && t.pods == s.pods
    ensures forall ns :: WorkloadKey(ns, l.name) !in t.workloads
  {
    LeadsInv(root, s);
    if why.ForRelease? {
      t := EndsByRelease(root, s, l);
    } else {
      t := Go(root, s, Work("", OK));
      if s.leases[l.name] == l {
        t := SweptAway(root, t, l.name);
      } else {
        t := DeletedMeanwhile(root, t, l.name);
        t := EndsByRelease(root, t, t.worker.l);
      }
    }
    LeadsInv(root, t);
  }

  /** The GPU of an abandoned lease is leased again, and a second pod computes on it. */
  lemma LeasedAgain(root: Sys, s: Sys, l: Lease, k: PodKey) returns (t: Sys)
    requires Leads(root, s) && Abandoned(s, l) && k !in s.pods && l.name == LeaseName(l.spec.node, l.spec.gpu) && l.spec.node != ""
    requires s.pods[l.spec.claim.pod].machine.req.node == l.spec.node && s.pods[l.spec.claim.pod].machine.req.gpu == l.spec.gpu
    requires WorkloadKey(k.namespace, l.name) !in s.workloads
    ensures Leads(root, t) && SharedGPU(t, l.spec.claim.pod, k)
  {
    var m: Lease;
    t := NewPod(root, s, k, l.spec.node);
    t, m := Leased(root, t, k, l.spec.gpu);
    t := Activates(root, t, m.name, m, k);
  }

  /** What a pod computes for bears the name of its GPU, so it is the lease's GPU if it is the lease's name. */
  lemma ComputesOnItsGPU(s: Sys, l: Lease)
    requires Reachable(s) && l.name in s.leases && s.leases[l.name].spec == l.spec && Exclusivity.Computes(s, l)
    ensures l.name == LeaseName(l.spec.node, l.spec.gpu)
    ensures s.pods[l.spec.claim.pod].machine.req.node == l.spec.node && s.pods[l.spec.claim.pod].machine.req.gpu == l.spec.gpu
  {
    var run :| IsPath(run, START, s);
    NamedAfterGPU(run, |run.labels|, l.name);
    Binding.RunGrantsNamed(run, |run.labels|);
    var q := s.pods[l.spec.claim.pod].machine.req;
    LeaseNameInjective(q.node, q.gpu, l.spec.node, l.spec.gpu);
  }

  /** What a lost release call leaves: everything as it was, the worker one call further. */
  lemma Lost(s: Sys, r: Reply)
    requires !Exclusivity.Delivered(s, Work("", r))
    ensures var w := s.worker;
      Next(s, Work("", r)) == s.(worker := if w.DeleteLease? then RevertPod(w.l, w.why, w.pod) else Finish(w.l, w.why))
  {
    match s.worker
    case LookupForRelease(l, why) => assert Next(s, Work("", r)) == StepLookupForRelease(s, l, why, r);
    case DeleteLease(l, why, pod) => assert Next(s, Work("", r)) == StepDeleteLease(s, l, why, pod, r);
  }

  lemma Unpatched(root: Sys, s: Sys) returns (t: Sys)
    requires Leads(root, s) && s.worker.RevertPod?
    ensures Leads(root, t) && t == s.(worker := Finish(s.worker.l, s.worker.why))
  {
    t := Go(root, s, Work("", LOST));
  }

  /** Past the lost call: the worker gets to its last write with the pod untouched. */
  lemma LostCall(s: Sys, r: Reply) returns (t: Sys)
    requires !Exclusivity.Delivered(s, Work("", r))
    ensures Leads(Next(s, Work("", r)), t) && t == s.(worker := Finish(s.worker.l, s.worker.why), pool := PoolIdle)
  {
    var root := Next(s, Work("", r));
    Stay(root);
    Lost(s, r);
    t := root;
    if s.worker.DeleteLease? { t := Unpatched(root, t); }
    t := PoolSettles(root, t);
  }

  /**
   The condition of exclusivity is exact. Whenever a release call is lost on a pod that computes for the
   lease, on the way to Failed or out of the store, a state follows in which two pods compute on one GPU.
   */
  lemma LostReleaseSharesGPU(s: Sys, r: Reply, k: PodKey) returns (t: Sys)
    requires Reachable(s) && Enabled(s, Work("", r)) && !Exclusivity.Delivered(s, Work("", r)) && k !in s.pods
    ensures Leads(Next(s, Work("", r)), t) && SharedGPU(t, s.worker.l.spec.claim.pod, k)
  {
    assert Inv(START);
    LeadsInv(START, s);
    var root, l := Next(s, Work("", r)), s.worker.l;
    NextInv(s, Work("", r));
    ComputesOnItsGPU(s, l);
    assert LeaseOk(s.rev, l.name, s.leases[l.name]);
    t := LostCall(s, r);
    t := EndsAnyway(root, t, l, s.worker.why);
    t := LeasedAgain(root, t, l, k);
  }

  const POD1 := PodKey("ns", "pod1")
  const POD2 := PodKey("ns", "pod2")

  lemma TwoNames()
    ensures LeaseName(NODE, 0) != LeaseName(NODE, 1)
  {
    if LeaseName(NODE, 0) == LeaseName(NODE, 1) { LeaseNameInjective(NODE, 0, NODE, 1); }
  }

  lemma OnePod() returns (s: Sys)
    ensures Reachable(s) && s == START.(rev := 1, pods := map[POD1 := Fresh(START, NODE)])
  {
    Stay(START);
    s := NewPod(START, START, POD1, NODE);
  }

  lemma TwoPods() returns (s: Sys)
    ensures Reachable(s)
    ensures s == START.(rev := 2, pods := map[POD1 := Fresh(START, NODE), POD2 := Fresh(START.(rev := 1), NODE)])
  {
    s := OnePod();
    s := NewPod(START, s, POD2, NODE);
  }

  /** Exclusivity needs the release to arrive: here is a run in which it does not hold. */
  lemma ExclusivityCanFail() returns (t: Sys)
    ensures Reachable(t) && SharedGPU(t, POD1, POD2)
  {
    t := OnePod();
    var l: Lease;
    t, l := Leased(START, t, POD1, 0);
    t := Activates(START, t, l.name, l, POD1);
    t := Go(START, t, Env(OperatorDelete(l.name)));
    t, l := UpToLookup(START, t, l.name);
    var s := t;
    t := LostReleaseSharesGPU(s, LOST, POD2);
    var root := Go(START, s, Work("", LOST));
    Onwards(START, root, t);
  }

  lemma Polls(root: Sys, s: Sys, n: string, l: Lease, k: PodKey) returns (t: Sys)
    requires Leads(root, s) && s.worker.Idle? && n in s.leases && s.leases[n] == l && l.name == n
    requires l.phase == Activating && l.finalizer && !l.deleting
    requires l.spec.claim.pod == k && k in s.pods && s.pods[k].uid == l.spec.claim.uid
    requires Considered(s.pods[k]) && s.pods[k].hasIP && s.pods[k].machine.Hot? && s.pods[k].node == l.spec.node
    ensures Leads(root, t) && t == s.(worker := MarkHot(l, s.pods[k], s.pods[k].machine))
  {
    t := Go(root, s, Work(n, OK));
    t := Go(root, t, Work(n, OK));
    t := Go(root, t, Work(n, OK));
  }

  /** The claim pod is hot: the worker polls it and binds. */
  lemma Binds(root: Sys, s: Sys, n: string, l: Lease, k: PodKey) returns (t: Sys)
    requires Leads(root, s) && s.worker.Idle? && n in s.leases && s.leases[n] == l && l.name == n
    requires l.phase == Activating && l.finalizer && !l.deleting
    requires l.spec.claim.pod == k && k in s.pods && s.pods[k].uid == l.spec.claim.uid
    requires Considered(s.pods[k]) && s.pods[k].hasIP && s.pods[k].machine.Hot? && s.pods[k].node == l.spec.node
    ensures Leads(root, t) && t.leases == s.leases[n := BoundLease(l, s.now).(rv := s.rev + 1)]
    ensures k in t.pods && t.pods[k].machine == s.pods[k].machine && t.pods[k].uid == s.pods[k].uid
  {
    t := Polls(root, s, n, l, k);
    t := Go(root, t, Work(n, OK));
    t := Go(root, t, Work(n, OK));
  }

  /** The pod restarts, takes the second lease, and warms up for it. */
  lemma Switches(root: Sys, s: Sys, n: string, l: Lease, k: PodKey) returns (t: Sys)
    requires Leads(root, s) && s.worker.Idle? && n in s.leases && s.leases[n] == l && l.name == n
    requires l.phase == Admitted && l.finalizer && !l.deleting && l.podActivated.Absent?
    requires l.spec.claim.pod == k && k in s.pods && s.pods[k].uid == l.spec.claim.uid
    requires Considered(s.pods[k]) && s.pods[k].hasIP && s.pods[k].node == l.spec.node
    ensures Leads(root, t)
    ensures t == s.(rev := s.rev + 1, leases := s.leases[n := ActivatingLease(l, s.now).(rv := s.rev + 1)],
                    pods := s.pods[k := s.pods[k].(machine := Hot(RequestOf(l)))])
  {
    t := Go(root, s, Env(RestartPod(k)));
    t := Activates(root, t, n, l, k);
    t := Go(root, t, Env(ExpireTimer(k)));
  }

  lemma Woken(s: Sys, r: Reply)
    requires WorkerOk(s) && Binding.Wakes(s, Work("", r))
    ensures var t, k := Next(s, Work("", r)), s.worker.l.spec.claim.pod;
      && t == s.(worker := t.worker, pods := s.pods[k := s.pods[k].(machine := WarmingUp(RequestOf(s.worker.l)))])
      && (t.worker.WriteActivating? || t.worker.DropWorkload?)
  {
    assert Next(s, Work("", r)) == StepPostLease(s, s.worker.l, s.worker.uid, r);
  }

  /** A warming pod turns hot, and is up. */
  lemma WarmsUp(root: Sys, s: Sys, k: PodKey) returns (t: Sys)
    requires Leads(root, s) && k in s.pods && s.pods[k].machine.WarmingUp?
    ensures Leads(root, t)
    ensures t == s.(pods := s.pods[k := s.pods[k].(machine := Hot(s.pods[k].machine.req), hasIP := true, running := true, ready := true)])
  {
    t := Go(root, s, Env(ExpireTimer(k)));
    t := Go(root, t, Env(ChangePod(k, true, true, true, false)));
  }

  lemma GivesUp(root: Sys, s: Sys) returns (t: Sys)
    requires Leads(root, s) && (s.worker.WriteActivating? || s.worker.DropWorkload?)
    ensures Leads(root, t) && t == s.(worker := Idle)
  {
    t := Go(root, s, Work("", LOST));
  }

  /** After a POST that woke the pod, with no more of the worker's calls getting through, the pod turns hot. */
  lemma TurnsHot(s: Sys, r: Reply) returns (t: Sys)
    requires WorkerOk(s) && Binding.Wakes(s, Work("", r))
    ensures var k := s.worker.l.spec.claim.pod;
      && Leads(Next(s, Work("", r)), t) && k in t.pods
      && t == s.(worker := Idle, pods := s.pods[k := t.pods[k]])
      && t.pods[k] == s.pods[k].(machine := Hot(RequestOf(s.worker.l)), hasIP := true, running := true, ready := true)
  {
    var root := Next(s, Work("", r));
    Stay(root);
    Woken(s, r);
    t := GivesUp(root, root);
    t := WarmsUp(root, t, s.worker.l.spec.claim.pod);
  }

  /**
   The condition of binding is exact. Whenever a POST wakes a pod on which another Activating lease
   waits, a state follows in which that other lease is Bound while the pod is hot on the first one.
   */
  lemma RivalPostMisbinds(s: Sys, r: Reply, n: string) returns (t: Sys)
    requires Reachable(s) && Binding.Wakes(s, Work("", r))
    requires n in s.leases && n != s.worker.l.name && Binding.Waits(s.leases[n]) && s.leases[n].spec.claim == s.worker.l.spec.claim
    requires !s.pods[s.worker.l.spec.claim.pod].terminating
    ensures Leads(Next(s, Work("", r)), t) && n in t.leases && t.leases[n].phase == Bound
    ensures var k := s.worker.l.spec.claim.pod;
      t.leases[n].spec.claim.pod == k && k in t.pods && t.pods[k].machine == Hot(RequestOf(s.worker.l))
  {
    assert Inv(START);
    LeadsInv(START, s);
    assert LeaseOk(s.rev, n, s.leases[n]);
    var run :| IsPath(run, START, s);
    Placement.ClaimedOnItsNode(run, |run.labels|, n);
    t := TurnsHot(s, r);
    t := Binds(Next(s, Work("", r)), t, n, s.leases[n], s.worker.l.spec.claim.pod);
  }

  /**
   A POST can find a rival waiting. After a lost label patch the pool promotes the same pod twice, and
   the pod restarts after taking the first lease; the first lease is then bound on the second one's GPU.
   */
  lemma BindingCanMiss() returns (t: Sys, n: string)
    ensures Leads(START, t) && n in t.leases && t.leases[n].phase == Bound
    ensures t.leases[n].spec.claim.pod == POD1 && POD1 in t.pods && t.pods[POD1].uid == t.leases[n].spec.claim.uid
    ensures t.pods[POD1].machine.Hot? && t.pods[POD1].machine.req.lease != n
    ensures t.pods[POD1].machine.req.gpu != t.leases[n].spec.gpu
  {
    var l0: Lease, l1: Lease;
    t := TwoPods();
    t, l0 := Leased(START, t, POD1, 0);
    TwoNames();
    t, l1 := Leased(START, t, POD1, 1);
    t := Activates(START, t, l0.name, l0, POD1);
    t := Switches(START, t, l1.name, l1, POD1);
    n := l0.name;
    t := Binds(START, t, n, t.leases[n], POD1);
  }


  /** The claim pod is not ready: the worker deletes the Workload. */
  lemma DropsWorkload(root: Sys, s: Sys, n: string, l: Lease, k: PodKey, r: Reply) returns (t: Sys)
    requires Leads(root, s) && s.worker.Idle? && n in s.leases && s.leases[n] == l && l.name == n
    requires l.phase == Admitted && l.finalizer && !l.deleting
    requires l.spec.claim.pod == k && k in s.pods && s.pods[k].uid == l.spec.claim.uid
    requires r == OK || r == UNSEEN
    ensures Leads(root, t) && k in t.pods
    ensures t == s.(pods := s.pods[k := t.pods[k]], workloads := s.workloads - {KeyOf(l)},
                    worker := if r.ok then LookupForRelease(l, ForFailure(PodGone)) else Idle)
    ensures t.pods[k].hasIP && t.pods[k].uid == s.pods[k].uid
  {
    t := Go(root, s, Env(ChangePod(k, true, true, false, false)));
    t := Go(root, t, Work(n, OK));
    t := Go(root, t, Work(n, OK));
    t := Go(root, t, Work(n, r));
  }

  lemma QuietsPod(root: Sys, s: Sys, l: Lease, k: PodKey) returns (t: Sys)
    requires Leads(root, s) && s.worker == LookupForRelease(l, ForFailure(PodGone))
    requires l.spec.claim.pod == k && k in s.pods && s.pods[k].uid == l.spec.claim.uid && s.pods[k].hasIP
    ensures Leads(root, t) && k in t.pods
    ensures t == s.(worker := RevertPod(l, ForFailure(PodGone), s.pods[k]), pods := s.pods[k := t.pods[k]])
  {
    t := Go(root, s, Work("", OK));
    assert t == s.(worker := DeleteLease(l, ForFailure(PodGone), s.pods[k]));
    t := Go(root, t, Work("", OK));
  }

  /** It releases the pod, but its record of the failure never arrives. */
  lemma FailsUnrecorded(root: Sys, s: Sys, l: Lease, k: PodKey) returns (t: Sys)
    requires Leads(root, s) && s.worker == LookupForRelease(l, ForFailure(PodGone))
    requires l.spec.claim.pod == k && k in s.pods && s.pods[k].uid == l.spec.claim.uid && s.pods[k].hasIP
    ensures Leads(root, t) && k in t.pods && t == s.(worker := Idle, pods := s.pods[k := t.pods[k]])
  {
    t := QuietsPod(root, s, l, k);
    t := Go(root, t, Work("", LOST));
    t := Go(root, t, Work("", LOST));
  }

  // Quota.

  /** How many of its calls a worker whose calls are all lost still makes. */
  function CallsLeft(w: Worker): nat {
    match w
    case Idle => 0
    case PostLease(_, _) => 2
    case PollState(_, _) => 2
    case LookupForRelease(_, _) => 2
    case RevertPod(_, _, _) => 2
    case DeleteLease(_, _, _) => 3
    case _ => 1
  }

  lemma LosesWrite(s: Sys)
    requires Writes(s.worker)
    ensures WorkerNext(s, "", LOST) == s.(worker := Idle)
  {
    WriteShape(s, "", LOST);
  }

  lemma LosesCall(s: Sys)
    requires !s.worker.Idle?
    ensures var t := WorkerNext(s, "", LOST); t == s.(worker := t.worker) && CallsLeft(t.worker) < CallsLeft(s.worker)
  {
    if Writes(s.worker) { LosesWrite(s); }
    else if TalksToPod(s.worker) { LosesPodCall(s); }
    else { LosesOther(s); }
  }

  lemma LosesPodCall(s: Sys)
    requires TalksToPod(s.worker)
    ensures var t := WorkerNext(s, "", LOST); t == s.(worker := t.worker) && CallsLeft(t.worker) < CallsLeft(s.worker)
  {
    match s.worker
    case PostLease(l, uid) => assert WorkerNext(s, "", LOST) == StepPostLease(s, l, uid, LOST);
    case _ =>
  }

  lemma LosesOther(s: Sys)
    requires !s.worker.Idle? && !Writes(s.worker) && !TalksToPod(s.worker)
    ensures var t := WorkerNext(s, "", LOST); t == s.(worker := t.worker) && CallsLeft(t.worker) < CallsLeft(s.worker)
  {
    match s.worker
    case PollState(l, pod) => assert WorkerNext(s, "", LOST) == StepPollState(s, l, pod, LOST);
    case LookupForRelease(l, why) => assert WorkerNext(s, "", LOST) == StepLookupForRelease(s, l, why, LOST);
    case _ =>
  }

  /** The worker abandons what it is doing. */
  lemma {:induction false} WorkerSettles(root: Sys, s: Sys) returns (t: Sys)
    requires Leads(root, s)
    ensures Leads(root, t) && t == s.(worker := Idle)
    decreases CallsLeft(s.worker)
  {
    t := s;
    if !s.worker.Idle? {
      LosesCall(s);
      t := Go(root, s, Work("", LOST));
      t := WorkerSettles(root, t);
    }
  }

  /** Kueue evicts some Workloads. */
  lemma {:induction false} Evicts(root: Sys, s: Sys, keys: set<WorkloadKey>) returns (t: Sys)
    requires Leads(root, s) && keys <= s.workloads.Keys
    ensures Leads(root, t) && t == s.(workloads := t.workloads) && t.workloads.Keys == s.workloads.Keys
    ensures forall k :: k in s.workloads ==> if k in keys then !t.workloads[k].admitted else t.workloads[k] == s.workloads[k]
    decreases keys
  {
    t := s;
    if keys != {} {
      var k :| k in keys;
      t := Evicts(root, s, keys - {k});
      t := Go(root, t, Env(Kueue(k, false, false, Absent)));
    }
  }

  /** More leases of the node are past admission than Workloads are admitted on it, with no cleanup under way. */
  ghost predicate Exceeds(s: Sys, node: string) {
    s.worker.Idle? && |Quota.HoldersOn(s, node)| > |Quota.AdmittedOn(s, node)|
  }

  lemma {:induction false} FewerKeys(keys: set<WorkloadKey>, names: set<string>)
    requires forall k :: k in keys ==> k.name in names
    requires forall j, k :: j in keys && k in keys && j.name == k.name ==> j == k
    ensures |keys| <= |names|
  {
    if keys != {} {
      var k :| k in keys;
      FewerKeys(keys - {k}, names - {k.name});
    }
  }

  /** Counting, once every admitted Workload is in use and one holder has none. */
  lemma CountsFewer(s: Sys, n: string, node: string)
    requires Inv(s) && s.worker.Idle? && n in Quota.HoldersOn(s, node) && !Quota.Admits(s.workloads, KeyOf(s.leases[n]))
    requires forall k :: Quota.Admits(s.workloads, k) ==> Quota.InUse(s, k)
    ensures Exceeds(s, node)
  {
    var admitted, holders := Quota.AdmittedOn(s, node), Quota.HoldersOn(s, node);
    forall k | k in admitted ensures k.name in holders - {n} && KeyOf(s.leases[k.name]) == k {
      assert Quota.Admits(s.workloads, k);
      assert Backed(s.leases, k, s.workloads[k]);
    }
    FewerKeys(admitted, holders - {n});
  }

  /** A lease past admission without an admitted Workload: Kueue takes back what nobody uses, and the leases outnumber the rest. */
  lemma Outnumber(root: Sys, s: Sys, n: string) returns (t: Sys)
    requires Inv(root) && Leads(root, s) && s.worker.Idle? && n in s.leases
    requires Quota.Holding(s.leases[n]) && !Quota.Admits(s.workloads, KeyOf(s.leases[n]))
    ensures Leads(root, t) && Exceeds(t, s.leases[n].spec.node)
  {
    var unused := set k | k in s.workloads && !Quota.InUse(s, k);
    t := Evicts(root, s, unused);
    LeadsInv(root, t);
    forall k | Quota.Admits(t.workloads, k) ensures Quota.InUse(t, k) {
      assert k !in unused;
    }
    CountsFewer(t, n, s.leases[n].spec.node);
  }

  /** After a cleanup that was not recorded, the lease still counts as a holder and has no Workload. */
  lemma Unrecorded(s: Sys, start: string, r: Reply)
    requires Inv(s) && !Quota.Recorded(s, Work(start, r))
    ensures var t, n := WorkerNext(s, start, r), s.worker.l.name;
      t.worker.Idle? && n in t.leases && Quota.Holding(t.leases[n]) && KeyOf(t.leases[n]) !in t.workloads
  {
    match s.worker
    case DropWorkload(l, why) => assert WorkerNext(s, start, r) == StepDropWorkload(s, l, why, r);
    case Finish(l, why) => assert WorkerNext(s, start, r) == StepFinish(s, l, why, r);
  }

  /** After an eviction, the lease that relied on the Workload is past admission, or gets there, all the same. */
  lemma Evicted(s: Sys, k: WorkloadKey, admitted: bool, inadmissible: bool, quotaReserved: Condition) returns (t: Sys)
    requires Inv(s) && k in s.workloads && !Quota.Recorded(s, Env(Kueue(k, admitted, inadmissible, quotaReserved)))
    ensures Leads(Next(s, Env(Kueue(k, admitted, inadmissible, quotaReserved))), t) && t.worker.Idle?
    ensures k.name in t.leases && Quota.Holding(t.leases[k.name]) && !Quota.Admits(t.workloads, KeyOf(t.leases[k.name]))
  {
    var root := Next(s, Env(Kueue(k, admitted, inadmissible, quotaReserved)));
    Stay(root);
    if k.name in s.leases && Quota.Holding(s.leases[k.name]) && KeyOf(s.leases[k.name]) == k {
      t := WorkerSettles(root, root);
    } else {
      t := Go(root, root, Work("", OK));
    }
  }

  /**
   The condition of the quota bound is exact. Whenever a step does not record what it takes away from a
   lease past admission, a state follows in which the leases past admission on that lease's node
   outnumber the Workloads admitted there.
   */
  lemma UnrecordedExceeds(s: Sys, l: Label) returns (t: Sys, node: string)
    requires Reachable(s) && Enabled(s, l) && !Quota.Recorded(s, l)
    ensures Leads(Next(s, l), t) && Exceeds(t, node)
  {
    assert Inv(START);
    LeadsInv(START, s);
    var root := Next(s, l);
    Stay(root);
    NextInv(s, l);
    match l {
      case Work(start, r) =>
        Unrecorded(s, start, r);
        node := root.leases[s.worker.l.name].spec.node;
        t := Outnumber(root, root, s.worker.l.name);
      case Env(Kueue(k, admitted, inadmissible, quotaReserved)) =>
        t := Evicted(s, k, admitted, inadmissible, quotaReserved);
        node := t.leases[k.name].spec.node;
        t := Outnumber(root, t, k.name);
    }
  }

  /** A lease past admission without an admitted Workload, and room for another: the pool fills it. */
  lemma FillsUp(s: Sys, l: Lease) returns (t: Sys)
    requires Reachable(s) && s.worker.Idle? && s.pool.PoolIdle? && s.leases == map[l.name := l]
    requires l.name == LeaseName(NODE, 0) && Quota.Holding(l) && l.spec.node == NODE
    requires forall k :: k in s.workloads ==> k.name == l.name && !s.workloads[k].admitted
    requires POD2 in s.pods && Considered(s.pods[POD2]) && LabelledWarm(s.pods[POD2]) && s.pods[POD2].node == NODE
    ensures Reachable(t) && |Quota.AdmittedOn(t, NODE)| == 1 && Exceeds(t, NODE)
  {
    TwoNames();
    var m: Lease;
    t, m := Leased(START, s, POD2, 1);
    assert Quota.AdmittedOn(t, NODE) == {KeyOf(m)};
    assert Quota.HoldersOn(t, NODE) == {l.name, m.name};
  }

  lemma OneAdmitted() returns (s: Sys, l: Lease)
    ensures Reachable(s) && s.worker.Idle? && s.pool.PoolIdle? && s.now == 0
    ensures s.leases == map[l.name := l] && l.name == LeaseName(NODE, 0)
    ensures l.phase == Admitted && l.finalizer && !l.deleting && l.ready.Absent?
    ensures l.spec.node == NODE && l.spec.claim.pod == POD1 && l.spec.deployment == NONE
    ensures s.workloads.Keys == {KeyOf(l)} && s.pods.Keys == {POD1, POD2} && s.pods[POD1].uid == l.spec.claim.uid
    ensures Considered(s.pods[POD2]) && LabelledWarm(s.pods[POD2]) && s.pods[POD2].node == NODE
  {
    s := TwoPods();
    s, l := Leased(START, s, POD1, 0);
  }

  /** The quota bound needs the failure to be recorded: its status write never arrives. */
  lemma UnrecordedFailureExceeds() returns (t: Sys)
    ensures Reachable(t) && |Quota.AdmittedOn(t, NODE)| == 1 && Exceeds(t, NODE)
  {
    var l: Lease;
    t, l := OneAdmitted();
    t := DropsWorkload(START, t, l.name, l, POD1, OK);
    t := FailsUnrecorded(START, t, l, POD1);
    t := FillsUp(t, l);
  }

  /** It needs the deletion of the Workload to be acknowledged: the reply is lost and the cleanup stops. */
  lemma LostReplyExceeds() returns (t: Sys)
    ensures Reachable(t) && |Quota.AdmittedOn(t, NODE)| == 1 && Exceeds(t, NODE)
  {
    var l: Lease;
    t, l := OneAdmitted();
    t := DropsWorkload(START, t, l.name, l, POD1, UNSEEN);
    t := FillsUp(t, l);
  }

  /** And it needs Kueue not to evict: nobody tells the lease. */
  lemma EvictionExceeds() returns (t: Sys)
    ensures Reachable(t) && |Quota.AdmittedOn(t, NODE)| == 1 && Exceeds(t, NODE)
  {
    var l: Lease;
    t, l := OneAdmitted();
    t := Go(START, t, Env(Kueue(KeyOf(l), false, false, Absent)));
    t := FillsUp(t, l);
  }

  lemma FailsRecorded(root: Sys, s: Sys, l: Lease, k: PodKey) returns (t: Sys)
    requires Leads(root, s) && s.worker == LookupForRelease(l, ForFailure(PodGone))
    requires l.name in s.leases && s.leases[l.name] == l && !l.deleting
    requires l.spec.claim.pod == k && k in s.pods && s.pods[k].uid == l.spec.claim.uid && s.pods[k].hasIP
    ensures Leads(root, t) && t.worker.Idle? && t.now == s.now && t.pool == s.pool
    ensures t.leases == s.leases[l.name := FailedLease(l, s.now).(rv := s.rev + 1)]
  {
    t := QuietsPod(root, s, l, k);
    t := Go(root, t, Work("", LOST));
    t := Go(root, t, Work("", OK));
  }

  /** From an undisturbed start, a Failed lease at time 0. */
  lemma FailsAtOnce() returns (t: Sys, l: Lease)
    ensures Reachable(t) && t.now == 0 && t.leases == map[l.name := l] && Retention.Watched(l, NONE)
  {
    t, l := OneAdmitted();
    t := DropsWorkload(START, t, l.name, l, POD1, OK);
    t := FailsRecorded(START, t, l, POD1);
    l := t.leases[l.name];
  }

  /**
   However long the retention period: when a sweep asks for a requeue beyond it, a lease that fails right
   after the sweep outlives its failure by more than the retention period, with the next sweep on time.
   */
  lemma LateSweepLeavesOverdue(retention: nat, requeue: nat)
      returns (run: Run, v: Retention.Visit, w: Retention.Visit, k: nat, n: string)
    requires requeue > retention
    ensures v.requeue == requeue && Retention.Between(run, v, w, NONE, retention, 0, k, n) && Retention.Overdue(run, k, n, retention)
  {
    var t: Sys, l: Lease;
    t, l := FailsAtOnce();
    var early :| IsPath(early, START, t);
    var tick := Env(Tick(requeue));
    var later := Next(t, tick);
    run := Run(early.states + [later], early.labels + [tick]);
    forall i | 0 <= i < |run.labels| ensures StepAt(run, i) {
      if i < |early.labels| { assert StepAt(early, i); }
    }
    k, n := |run.labels|, l.name;
    v, w := Retention.Visit(0, 0, requeue), Retention.Visit(k, k, requeue);
    var entry := FailedSinceIsEntry(run, k, n, l.uid);
    Retention.TimePasses(early, entry, |early.labels|);
    assert Retention.Fails(run, entry, k, n);
  }

  /**
   The exact condition for reclaiming on time is one on the settings: Failed leases are never overdue,
   in any run with sweeps on schedule, if and only if the requeue asked for is within the retention period.
   */
  lemma OnTimeIffWithinRetention(retention: nat, requeue: nat)
    ensures requeue <= retention <==>
      forall run, v, w, deployment, late, k, n ::
        Retention.Between(run, v, w, deployment, retention, late, k, n) && v.requeue == requeue ==>
        !Retention.Overdue(run, k, n, retention + late)
  {
    if requeue <= retention {
      forall run, v, w, deployment, late, k, n
        | Retention.Between(run, v, w, deployment, retention, late, k, n) && v.requeue == requeue
        ensures !Retention.Overdue(run, k, n, retention + late)
      {
        Retention.NeverOverdue(run, v, w, deployment, retention, late, k, n);
      }
    } else {
      var run, v, w, k, n := LateSweepLeavesOverdue(retention, requeue);
      assert Retention.Overdue(run, k, n, retention + 0);
    }
  }
}
