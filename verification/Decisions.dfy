/**
 What the GPULease reconciler decides, in terms of what it finds: when a lease is given a
 Workload, when it moves on, when it fails and when it waits. Each is an if-and-only-if on the
 call that decides, and over runs a decision is carried out within a fixed number of calls.
 */
module Decisions {
  import opened Options
  import opened Objects
  import opened Protocol
  import opened Safety
  import opened Release
  import opened Timing

  /** The claimed pod is gone, replaced, terminating, not ready, or on another node than the lease. */
  predicate Lost(s: Sys, l: Lease) {
    var k := l.spec.claim.pod;
    || k !in s.pods
    || (l.spec.claim.uid != 0 && s.pods[k].uid != l.spec.claim.uid)
    || s.pods[k].terminating || !s.pods[k].ready || s.pods[k].node != l.spec.node
  }

  /** The reason given for it: a pod that is fine but for its node is a mismatch, any other is gone. */
  lemma WhyLost(s: Sys, l: Lease)
    ensures OrphanReason(GetPod(s, l.spec.claim.pod), l, true) ==
      if !Lost(s, l) then None
      else if l.spec.claim.pod in s.pods && !Lost(s, l.(spec := l.spec.(node := s.pods[l.spec.claim.pod].node)))
      then Some(ReasonNodeMismatch) else Some(PodGone)
  {
  }

  /** The Workload of the lease, as it should be. */
  predicate HasWorkload(s: Sys, l: Lease) {
    var key := WorkloadKey(l.spec.claim.pod.namespace, l.name);
    key in s.workloads && s.workloads[key].spec.queue == l.spec.queue && s.workloads[key].spec.nodeSelector == l.spec.node
  }

  function ItsWorkload(s: Sys, l: Lease): Workload
    requires HasWorkload(s, l)
  {
    s.workloads[WorkloadKey(l.spec.claim.pod.namespace, l.name)]
  }

  /** The POST gets through to a pod of the lease's node that is warm, or computes for this lease already. */
  predicate Accepts(s: Sys, l: Lease, uid: nat, r: Reply) {
    var k := l.spec.claim.pod;
    && r.ok && k in s.pods && s.pods[k].uid == uid && s.pods[k].node == l.spec.node
    && (s.pods[k].machine.Warm? || s.pods[k].machine.ActiveOn(l.name))
  }

  /** The poll gets through to the claimed pod, and it is hot. */
  predicate SeenHot(s: Sys, l: Lease, pod: Pod, r: Reply) {
    var k := l.spec.claim.pod;
    r.ok && pod.hasIP && k in s.pods && s.pods[k].uid == pod.uid && s.pods[k].machine.Hot?
  }

  /** The time from an instant on is used up. */
  predicate TimeUp(s: Sys, since: nat, r: Reply) {
    s.now >= since + r.timeout
  }

  /** The calls that decide. */
  predicate Deciding(w: Worker) {
    w.GetWorkload? || w.LookupPod? || w.PostLease? || w.PollState?
  }

  /** What the call finds condemns the lease. */
  ghost predicate Doomed(s: Sys, r: Reply)
    requires Deciding(s.worker)
  {
    match s.worker
    case GetWorkload(l) =>
      && r.ok && HasWorkload(s, l) && !ItsWorkload(s, l).admitted
      && (ItsWorkload(s, l).inadmissible || exists since :: WaitsSince(ItsWorkload(s, l), since) && TimeUp(s, since, r))
    case LookupPod(l) => r.ok && (Lost(s, l) || (l.phase == Admitted && !s.pods[l.spec.claim.pod].hasIP))
    case PostLease(l, uid) => !Accepts(s, l, uid, r)
    case PollState(l, pod) => !SeenHot(s, l, pod, r) && exists since :: ActivatesSince(l, since) && TimeUp(s, since, r)
  }

  /** What the call finds takes the lease on. */
  predicate Ripe(s: Sys, r: Reply)
    requires Deciding(s.worker)
  {
    match s.worker
    case GetWorkload(l) => r.ok && HasWorkload(s, l) && ItsWorkload(s, l).admitted
    case LookupPod(l) => r.ok && !Lost(s, l) && (l.phase == Activating || (l.phase == Admitted && s.pods[l.spec.claim.pod].hasIP))
    case PostLease(l, uid) => Accepts(s, l, uid, r)
    case PollState(l, pod) => SeenHot(s, l, pod, r)
  }

  /** The call that takes the lease on. */
  predicate GoesOn(w: Worker, next: Worker) {
    match w
    case GetWorkload(l) => next == WriteAdmitted(l)
    case LookupPod(l) => (l.phase == Admitted && next.PostLease? && next.l == l) || (l.phase == Activating && next.PollState? && next.l == l)
    case PostLease(l, _) => next == WriteActivating(l)
    case PollState(l, _) => next.MarkHot? && next.l == l
    case _ => false
  }

  predicate Condemns(w: Worker, next: Worker)
    requires !w.Idle?
  {
    next.DropWorkload? && next.l == w.l && next.why.ForFailure?
  }

  /** The reason a doomed lease is given. */
  function ReasonFor(s: Sys, r: Reply): Reason
    requires Deciding(s.worker)
  {
    match s.worker
    case GetWorkload(l) => if HasWorkload(s, l) && ItsWorkload(s, l).inadmissible then QueueMisconfigured else QuotaExhaustedOnNode
    case LookupPod(l) =>
      if !Lost(s, l) then PodUnreachable
      else if l.spec.claim.pod in s.pods && !Lost(s, l.(spec := l.spec.(node := s.pods[l.spec.claim.pod].node))) then ReasonNodeMismatch
      else PodGone
    case PostLease(l, uid) =>
      if r.ok && l.spec.claim.pod in s.pods && s.pods[l.spec.claim.pod].uid == uid then ReasonNodeMismatch else PodUnreachable
    case PollState(_, _) => ActivationTimeout
  }

  lemma DecidesAdmission(s: Sys, l: Lease, r: Reply)
    requires s.worker == GetWorkload(l)
    ensures var t := StepGetWorkload(s, l, r);
      && t == s.(worker := t.worker)
      && (GoesOn(s.worker, t.worker) <==> Ripe(s, r)) && (Condemns(s.worker, t.worker) <==> Doomed(s, r))
      && (Condemns(s.worker, t.worker) ==> t.worker.why.reason == ReasonFor(s, r))
      && (t.worker == CreateWorkload(l) <==> r.ok && WorkloadKey(l.spec.claim.pod.namespace, l.name) !in s.workloads)
  {
    if HasWorkload(s, l) { assert WaitsSince(ItsWorkload(s, l), AdmissionAnchor(ItsWorkload(s, l))); }
  }

  lemma DecidesLookup(s: Sys, l: Lease, r: Reply)
    requires s.worker == LookupPod(l) && (l.phase == Admitted || l.phase == Activating || l.phase == Bound)
    ensures var t := StepLookupPod(s, l, r);
      && t == s.(worker := t.worker)
      && (GoesOn(s.worker, t.worker) <==> Ripe(s, r)) && (Condemns(s.worker, t.worker) <==> Doomed(s, r))
      && (Condemns(s.worker, t.worker) ==> t.worker.why.reason == ReasonFor(s, r))
  {
    WhyLost(s, l);
  }

  lemma DecidesPost(s: Sys, l: Lease, uid: nat, r: Reply)
    requires s.worker == PostLease(l, uid)
    ensures var t := StepPostLease(s, l, uid, r);
      && (GoesOn(s.worker, t.worker) <==> Ripe(s, r)) && (Condemns(s.worker, t.worker) <==> Doomed(s, r))
      && (Condemns(s.worker, t.worker) ==> t.worker.why.reason == ReasonFor(s, r))
  {
  }

  lemma DecidesPoll(s: Sys, l: Lease, pod: Pod, r: Reply)
    requires s.worker == PollState(l, pod)
    ensures var t := StepPollState(s, l, pod, r);
      && t == s.(worker := t.worker)
      && (GoesOn(s.worker, t.worker) <==> Ripe(s, r)) && (Condemns(s.worker, t.worker) <==> Doomed(s, r))
      && (Condemns(s.worker, t.worker) ==> t.worker.why.reason == ReasonFor(s, r))
  {
    assert ActivatesSince(l, ActivationAnchor(l));
  }

  /** A deciding call takes the lease on if and only if it is ripe, and fails it if and only if it is doomed. */
  lemma DecidesExactly(s: Sys, start: string, r: Reply)
    requires WorkerOk(s) && Deciding(s.worker)
    ensures GoesOn(s.worker, WorkerNext(s, start, r).worker) <==> Ripe(s, r)
    ensures Condemns(s.worker, WorkerNext(s, start, r).worker) <==> Doomed(s, r)
    ensures Doomed(s, r) ==> WorkerNext(s, start, r).worker.why == ForFailure(ReasonFor(s, r))
  {
    match s.worker
    case GetWorkload(l) => DecidesAdmission(s, l, r);
    case LookupPod(l) => DecidesLookup(s, l, r);
    case PostLease(l, uid) => DecidesPost(s, l, uid, r);
    case PollState(l, pod) => DecidesPoll(s, l, pod, r);
  }

  // Over runs.

  /** An acknowledged create leaves the lease with the Workload it needs, whether or not it was there already. */
  lemma CreateGivesWorkload(run: Run, i: nat, l: Lease)
    requires IsRun(run) && i < |run.labels| && run.labels[i].Work? && run.labels[i].r.ok && run.states[i].worker == CreateWorkload(l)
    ensures HasWorkload(run.states[i + 1], l)
  {
    RunInv(run, i);
    assert StepAt(run, i);
  }

  lemma CondemnedFails(run: Run, p: nat, j: nat) returns (k: nat)
    requires IsRun(run) && p < j < |run.states| && !run.states[p].worker.Idle?
    requires Condemns(run.states[p].worker, run.states[p + 1].worker)
    requires forall q :: p < q < j ==> StoreWorks(run.states[q], run.labels[q])
    requires Calls(run.labels[p + 1..j]) >= 5
    ensures p < k <= j && run.states[k].worker.Idle? && Reached(run.states[k], run.states[p].worker.l, LeaseIn(Failed))
  {
    k := Finishes(run, p + 1, j);
  }

  /** A doomed lease fails: five working calls later it is Failed, or deleted by somebody, and its Workload is gone. */
  lemma DoomedFails(run: Run, p: nat, j: nat) returns (k: nat)
    requires IsRun(run) && p < j < |run.states| && Deciding(run.states[p].worker)
    requires run.labels[p].Work? && Doomed(run.states[p], run.labels[p].r)
    requires forall q :: p < q < j ==> StoreWorks(run.states[q], run.labels[q])
    requires Calls(run.labels[p + 1..j]) >= 5
    ensures p < k <= j && run.states[k].worker.Idle? && Reached(run.states[k], run.states[p].worker.l, LeaseIn(Failed))
  {
    RunInv(run, p);
    assert StepAt(run, p);
    DecidesExactly(run.states[p], run.labels[p].start, run.labels[p].r);
    k := CondemnedFails(run, p, j);
  }

  /** A ripe lease moves on: from Pending to Admitted, from Admitted to Activating, from Activating to Bound, within two working calls. */
  lemma RipeMovesOn(run: Run, p: nat, j: nat) returns (k: nat)
    requires IsRun(run) && p < j < |run.states| && run.labels[p].Work?
    requires run.states[p].worker.GetWorkload? || run.states[p].worker.PostLease? || run.states[p].worker.PollState?
    requires Ripe(run.states[p], run.labels[p].r)
    requires forall q :: p < q < j ==> StoreWorks(run.states[q], run.labels[q])
    requires Calls(run.labels[p + 1..j]) >= 2
    ensures p < k <= j && run.states[k].worker.Idle?
    ensures Reached(run.states[k], run.states[p].worker.l,
                    LeaseIn(match run.states[p].worker case GetWorkload(_) => Admitted case PostLease(_, _) => Activating case _ => Bound))
  {
    RunInv(run, p);
    assert StepAt(run, p);
    DecidesExactly(run.states[p], run.labels[p].start, run.labels[p].r);
    k := Finishes(run, p + 1, j);
  }

  /** While the worker makes no call it stands where it stood. */
  lemma {:induction false} Stands(run: Run, i: nat, j: nat)
    requires IsRun(run) && i <= j < |run.states| && forall q :: i <= q < j ==> !run.labels[q].Work?
    ensures run.states[j].worker == run.states[i].worker
    decreases j - i
  {
    if i < j {
      Stands(run, i, j - 1);
      RunInv(run, j - 1);
      assert StepAt(run, j - 1);
      match run.labels[j - 1] {
        case PoolStep(c, r) => PoolSound(run.states[j - 1], c, r);
        case Env(e) => EnvSound(run.states[j - 1], e);
      }
    }
  }

  /** An idle worker takes up the lease at step i, and p is its next call. */
  ghost predicate TakesUp(run: Run, i: nat, p: nat, n: string)
    requires IsRun(run)
  {
    && i < p < |run.labels| && run.states[i].worker.Idle? && n in run.states[i].leases
    && run.labels[i].Work? && run.labels[i].start == n && run.labels[i].r.ok
    && run.labels[p].Work? && forall q :: i < q < p ==> !run.labels[q].Work?
  }

  /** A lease that is not being deleted is looked at: a Pending one for its Workload, one past admission for its pod. */
  lemma IsLookedAt(run: Run, i: nat, p: nat, n: string)
    requires IsRun(run) && TakesUp(run, i, p, n)
    requires var l := run.states[i].leases[n]; !l.deleting && l.phase != Failed
    ensures var l := run.states[i].leases[n];
      run.states[p].worker == if l.phase == Pending then GetWorkload(l) else LookupPod(l)
  {
    RunInv(run, i);
    assert StepAt(run, i);
    assert LeaseOk(run.states[i].rev, n, run.states[i].leases[n]);
    Stands(run, i + 1, p);
  }

  /**
   Failures complete as deletions do. From any reachable state in which the worker takes up a lease past
   admission: if its claim pod is lost when looked up, then with working lease and Workload calls, five
   calls after the lookup the lease is Failed, or deleted by somebody, and its Workload is gone.
   */
  lemma FailureCompletes(run: Run, i: nat, p: nat, j: nat, n: string) returns (k: nat)
    requires IsRun(run) && TakesUp(run, i, p, n) && p < j < |run.states|
    requires var l := run.states[i].leases[n];
      !l.deleting && (l.phase == Admitted || l.phase == Activating || l.phase == Bound)
      && run.labels[p].r.ok && Lost(run.states[p], l)
    requires forall q :: p < q < j ==> StoreWorks(run.states[q], run.labels[q])
    requires Calls(run.labels[p + 1..j]) >= 5
    ensures p < k <= j && run.states[k].worker.Idle?
    ensures var l := run.states[i].leases[n];
      && n in run.states[k].leases && run.states[k].leases[n].uid == l.uid
      && (run.states[k].leases[n].phase == Failed || run.states[k].leases[n].deleting)
      && WorkloadKey(l.spec.claim.pod.namespace, n) !in run.states[k].workloads
  {
    IsLookedAt(run, i, p, n);
    RunInv(run, i);
    assert LeaseOk(run.states[i].rev, n, run.states[i].leases[n]);
    k := DoomedFails(run, p, j);
  }

  /** A Pending lease without a Workload gets one: within two working calls of looking for it. */
  lemma WorkloadIsCreated(run: Run, i: nat, p: nat, j: nat, n: string) returns (k: nat)
    requires IsRun(run) && TakesUp(run, i, p, n) && p < j < |run.states|
    requires var l := run.states[i].leases[n];
      !l.deleting && l.phase == Pending && run.labels[p].r.ok
      && WorkloadKey(l.spec.claim.pod.namespace, n) !in run.states[p].workloads
    requires forall q :: p < q < j ==> StoreWorks(run.states[q], run.labels[q])
    requires Calls(run.labels[p + 1..j]) >= 2
    ensures p < k <= j && run.states[k].worker.Idle? && Reached(run.states[k], run.states[i].leases[n], WorkloadCreated)
  {
    IsLookedAt(run, i, p, n);
    RunInv(run, i);
    assert LeaseOk(run.states[i].rev, n, run.states[i].leases[n]);
    assert StepAt(run, p);
    DecidesAdmission(run.states[p], run.states[i].leases[n], run.labels[p].r);
    k := Finishes(run, p + 1, j);
  }
}
