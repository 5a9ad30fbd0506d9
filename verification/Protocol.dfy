/**
 The lease protocol as a transition system. One transition is one API or pod call of the
 GPULease reconciler (`Worker`, a single goroutine), one call of the WarmPool reconciler
 (`Pool`), or one event of the environment. A program counter holds the objects a
 reconciler has read, so every other actor may run between two calls, and every call may
 fail, or take effect and have its reply lost.
 */
module Protocol {
  import opened Options
  import opened Names
  import opened PodMachine
  import opened Objects

  // Why the shared cleanup path runs.
  datatype Why = ForFailure(reason: Reason) | ForRelease

  /** The next call of the GPULease reconciler, with the lease as last read or written. */
  datatype Worker =
    | Idle
    | AddFinalizer(l: Lease)
    | GetWorkload(l: Lease)
    | CreateWorkload(l: Lease)
    | RecordWorkload(l: Lease)
    | DropStaleWorkload(l: Lease)
    | WriteAdmitted(l: Lease)
    | LookupPod(l: Lease)                              // Admitted, Activating and Bound
    | PostLease(l: Lease, uid: nat)
    | WriteActivating(l: Lease)
    | PollState(l: Lease, pod: Pod)
    | MarkHot(l: Lease, pod: Pod, seen: Machine)       // seen: the body of GET /state
    | WriteBound(l: Lease, seen: Machine)
    | WriteReleasing(l: Lease)
    | DropWorkload(l: Lease, why: Why)
    | LookupForRelease(l: Lease, why: Why)
    | DeleteLease(l: Lease, why: Why, pod: Pod)
    | RevertPod(l: Lease, why: Why, pod: Pod)
    | Finish(l: Lease, why: Why)

  /** The next call of the WarmPool reconciler. */
  datatype Pool =
    | PoolIdle
    | PoolCreate(key: PodKey, pod: Pod)
    | PoolLabel(key: PodKey, pod: Pod)
    | PoolLabelReleasing(key: PodKey, pod: Pod, lease: Option<string>)
    | PoolSweep(l: Lease)
    | PoolStrip(l: Lease)
    | PoolDelete(name: string)

  datatype Sys = Sys(
    now: nat,
    rev: nat,                                 // the store's revision; also the source of UIDs
    leases: map<string, Lease>,
    workloads: map<WorkloadKey, Workload>,
    pods: map<PodKey, Pod>,
    worker: Worker,
    pool: Pool)

  /**
   The fate of a call: `ok` is what the caller sees, `applied` says whether a failed call took
   effect nevertheless. `timeout` is the deployment setting read along with it.
   */
  datatype Reply = Reply(ok: bool, applied: bool, timeout: nat) {
    predicate Effective() {
      ok || applied
    }
  }

  datatype PoolCall =
    | BeginPromote(key: PodKey)
    | CreateLease(id: nat, model: string, deployment: PodKey, queue: string)
    | GiveUp
    | PatchLabel
    | BeginDemote(key: PodKey, lease: Option<string>)
    | BeginSweep(name: string, retention: nat)
    | GetClaimPod(selected: bool)
    | StripFinalizer
    | DeleteObject

  datatype Event =
    | Tick(d: nat)
    | Kueue(workload: WorkloadKey, admitted: bool, inadmissible: bool, quotaReserved: Condition)
    | AddPod(key: PodKey, node: string, state: StateLabel)
    | RemovePod(key: PodKey)
    | ChangePod(key: PodKey, ip: bool, running: bool, ready: bool, terminating: bool)
    | RestartPod(key: PodKey)
    | ExpireTimer(key: PodKey)
    | OperatorDelete(name: string)

  datatype Label =
    | Work(start: string, r: Reply)           // `start` is the request an idle worker takes up
    | PoolStep(c: PoolCall, pr: Reply)
    | Env(e: Event)

  // Calls on leases.

  predicate Current(s: Sys, l: Lease) {
    l.name in s.leases && s.leases[l.name].rv == l.rv
  }

  /** Update and Status().Update: refused on a resourceVersion conflict. */
  function Put(s: Sys, l: Lease): Sys {
    if !Current(s, l) then s
    else if l.deleting && !l.finalizer then s.(leases := s.leases - {l.name}, rev := s.rev + 1)
    else s.(leases := s.leases[l.name := l.(rv := s.rev + 1)], rev := s.rev + 1)
  }

  function TryPut(s: Sys, l: Lease, r: Reply): Sys {
    if r.Effective() then Put(s, l) else s
  }

  /** The caller's view of a Put: it got through and was not refused. */
  predicate PutOk(s: Sys, l: Lease, r: Reply) {
    r.ok && Current(s, l)
  }

  /** Delete: no precondition; waits for the finalizer if there is one. */
  function Remove(s: Sys, name: string): Sys {
    if name !in s.leases || s.leases[name].deleting then s
    else if s.leases[name].finalizer then
      s.(leases := s.leases[name := s.leases[name].(deleting := true, rv := s.rev + 1)], rev := s.rev + 1)
    else s.(leases := s.leases - {name}, rev := s.rev + 1)
  }

  function GetPod(s: Sys, key: PodKey): Option<Pod> {
    if key in s.pods then Some(s.pods[key]) else None
  }

  function SetMachine(s: Sys, key: PodKey, m: Machine): Sys
    requires key in s.pods
  {
    s.(pods := s.pods[key := s.pods[key].(machine := m)])
  }

  /** A merge patch of the state label computed against `read`: an unchanged key is left out. */
  function PatchState(s: Sys, key: PodKey, read: Pod, state: StateLabel, r: Reply): Sys {
    if key in s.pods && r.Effective() && read.state != state
    then s.(pods := s.pods[key := s.pods[key].(state := state)])
    else s
  }

  // The GPULease reconciler.

  function Goto(s: Sys, w: Worker): Sys {
    s.(worker := w)
  }

  /** Reconcile, up to its first call after reading the lease. */
  function Dispatch(l: Lease): Worker {
    if l.deleting then
      if !l.finalizer then Idle
      else if l.phase != Releasing then WriteReleasing(l)
      else DropWorkload(l, ForRelease)
    else if !l.finalizer then AddFinalizer(l)
    else
      match l.phase
      case Pending => GetWorkload(l)
      case Admitted | Activating | Bound => LookupPod(l)
      case Failed | Releasing => Idle
  }

  function StepIdle(s: Sys, start: string, r: Reply): Sys {
    if !r.ok || start !in s.leases then s else Goto(s, Dispatch(s.leases[start]))
  }

  function StepAddFinalizer(s: Sys, l: Lease, r: Reply): Sys {
    Goto(TryPut(s, l.(finalizer := true), r), Idle)
  }

  /** evaluateAdmission. */
  function EvaluateAdmission(l: Lease, w: Workload, now: nat, timeout: nat): Worker {
    if w.admitted then WriteAdmitted(l)
    else if w.inadmissible then DropWorkload(l, ForFailure(QueueMisconfigured))
    else if now - AdmissionAnchor(w) >= timeout then DropWorkload(l, ForFailure(QuotaExhaustedOnNode))
    else Idle
  }

  function StepGetWorkload(s: Sys, l: Lease, r: Reply): Sys {
    if !r.ok then Goto(s, Idle)
    else if KeyOf(l) !in s.workloads then Goto(s, CreateWorkload(l))
    else if s.workloads[KeyOf(l)].spec != BuildWorkload(l) then Goto(s, DropStaleWorkload(l))
    else Goto(s, EvaluateAdmission(l, s.workloads[KeyOf(l)], s.now, r.timeout))
  }

  function StepCreateWorkload(s: Sys, l: Lease, r: Reply): Sys {
    var s1 :=
      if r.Effective() && KeyOf(l) !in s.workloads
      then s.(workloads := s.workloads[KeyOf(l) := Workload(BuildWorkload(l), MetaTime(s.now), false, false, Absent)])
      else s;
    Goto(s1, if r.ok && l.workloadName != l.name then RecordWorkload(l) else Idle)
  }

  function StepRecordWorkload(s: Sys, l: Lease, r: Reply): Sys {
    Goto(TryPut(s, l.(workloadName := l.name), r), Idle)
  }

  function StepDropStaleWorkload(s: Sys, l: Lease, r: Reply): Sys {
    Goto(if r.Effective() then s.(workloads := s.workloads - {KeyOf(l)}) else s, Idle)
  }

  function AdmittedLease(l: Lease, now: nat): Lease {
    l.(phase := Admitted, quotaReserved := SetCondition(l.quotaReserved, true, now))
  }

  function StepWriteAdmitted(s: Sys, l: Lease, r: Reply): Sys {
    Goto(TryPut(s, AdmittedLease(l, s.now), r), Idle)
  }

  /** What follows the claim pod lookup in the three phases that make it. */
  function AfterLookup(l: Lease, pod: Option<Pod>): Worker {
    var orphan := OrphanReason(pod, l, true);
    if orphan.Some? then DropWorkload(l, ForFailure(orphan.value))
    else
      match l.phase
      case Admitted =>
        if pod.value.hasIP then PostLease(l, pod.value.uid) else DropWorkload(l, ForFailure(PodUnreachable))
      case Activating => PollState(l, pod.value)
      case _ => Idle
  }

  function StepLookupPod(s: Sys, l: Lease, r: Reply): Sys {
    Goto(s, if r.ok then AfterLookup(l, GetPod(s, l.spec.claim.pod)) else Idle)
  }

  predicate Reaches(s: Sys, key: PodKey, uid: nat) {
    key in s.pods && s.pods[key].uid == uid
  }

  /** POST /lease: a 409 of either kind counts as a node mismatch, any other failure as unreachable. */
  function StepPostLease(s: Sys, l: Lease, uid: nat, r: Reply): Sys {
    var key := l.spec.claim.pod;
    if !Reaches(s, key, uid) || !r.Effective() then Goto(s, DropWorkload(l, ForFailure(PodUnreachable)))
    else
      var (m, answer) := s.pods[key].machine.Activate(RequestOf(l), s.pods[key].node);
      Goto(SetMachine(s, key, m),
           if !r.ok then DropWorkload(l, ForFailure(PodUnreachable))
           else if answer.Accepted? then WriteActivating(l)
           else DropWorkload(l, ForFailure(ReasonNodeMismatch)))
  }

  function ActivatingLease(l: Lease, now: nat): Lease {
    l.(phase := Activating, podActivated := SetCondition(l.podActivated, false, now))
  }

  function StepWriteActivating(s: Sys, l: Lease, r: Reply): Sys {
    Goto(TryPut(s, ActivatingLease(l, s.now), r), Idle)
  }

  function StepPollState(s: Sys, l: Lease, pod: Pod, r: Reply): Sys {
    var key := l.spec.claim.pod;
    if r.ok && pod.hasIP && Reaches(s, key, pod.uid) && s.pods[key].machine.Hot?
    then Goto(s, MarkHot(l, pod, s.pods[key].machine))
    else Goto(s, if s.now - ActivationAnchor(l) >= r.timeout
                 then DropWorkload(l, ForFailure(ActivationTimeout)) else Idle)
  }

  function StepMarkHot(s: Sys, l: Lease, pod: Pod, seen: Machine, r: Reply): Sys {
    Goto(PatchState(s, l.spec.claim.pod, pod, LabelHot, r),
         if r.ok && l.spec.claim.pod in s.pods then WriteBound(l, seen) else Idle)
  }

  function BoundLease(l: Lease, now: nat): Lease {
    l.(phase := Bound,
       podActivated := SetCondition(l.podActivated, true, now),
       ready := SetCondition(l.ready, true, now))
  }

  function StepWriteBound(s: Sys, l: Lease, r: Reply): Sys {
    Goto(TryPut(s, BoundLease(l, s.now), r), Idle)
  }

  function ReleasingLease(l: Lease): Lease {
    l.(phase := Releasing)
  }

  function StepWriteReleasing(s: Sys, l: Lease, r: Reply): Sys {
    Goto(TryPut(s, ReleasingLease(l), r),
         if PutOk(s, l, r) then DropWorkload(ReleasingLease(l).(rv := s.rev + 1), ForRelease) else Idle)
  }

  // transitionToFailed and the tail of reconcileDeletion.

  function StepDropWorkload(s: Sys, l: Lease, why: Why, r: Reply): Sys {
    Goto(if r.Effective() then s.(workloads := s.workloads - {KeyOf(l)}) else s,
         if r.ok then LookupForRelease(l, why) else Idle)
  }

  function StepLookupForRelease(s: Sys, l: Lease, why: Why, r: Reply): Sys {
    var key := l.spec.claim.pod;
    if !r.ok || key !in s.pods || !ClaimMatches(l.spec.claim, s.pods[key].uid) then Goto(s, Finish(l, why))
    else if s.pods[key].hasIP then Goto(s, DeleteLease(l, why, s.pods[key]))
    else Goto(s, RevertPod(l, why, s.pods[key]))
  }

  /** DELETE /lease names no lease: it releases whatever the pod holds. */
  function StepDeleteLease(s: Sys, l: Lease, why: Why, pod: Pod, r: Reply): Sys {
    var key := l.spec.claim.pod;
    Goto(if Reaches(s, key, pod.uid) && r.Effective() then SetMachine(s, key, s.pods[key].machine.Release()) else s,
         RevertPod(l, why, pod))
  }

  function StepRevertPod(s: Sys, l: Lease, why: Why, pod: Pod, r: Reply): Sys {
    Goto(PatchState(s, l.spec.claim.pod, pod, LabelWarm, r), Finish(l, why))
  }

  function FailedLease(l: Lease, now: nat): Lease {
    l.(phase := Failed, ready := SetCondition(l.ready, false, now))
  }

  function Finished(l: Lease, why: Why, now: nat): Lease {
    match why
    case ForFailure(_) => FailedLease(l, now)
    case ForRelease => l.(finalizer := false)
  }

  function StepFinish(s: Sys, l: Lease, why: Why, r: Reply): Sys {
    Goto(TryPut(s, Finished(l, why, s.now), r), Idle)
  }

  function WorkerNext(s: Sys, start: string, r: Reply): Sys {
    match s.worker
    case Idle => StepIdle(s, start, r)
    case AddFinalizer(l) => StepAddFinalizer(s, l, r)
    case GetWorkload(l) => StepGetWorkload(s, l, r)
    case CreateWorkload(l) => StepCreateWorkload(s, l, r)
    case RecordWorkload(l) => StepRecordWorkload(s, l, r)
    case DropStaleWorkload(l) => StepDropStaleWorkload(s, l, r)
    case WriteAdmitted(l) => StepWriteAdmitted(s, l, r)
    case LookupPod(l) => StepLookupPod(s, l, r)
    case PostLease(l, uid) => StepPostLease(s, l, uid, r)
    case WriteActivating(l) => StepWriteActivating(s, l, r)
    case PollState(l, pod) => StepPollState(s, l, pod, r)
    case MarkHot(l, pod, seen) => StepMarkHot(s, l, pod, seen, r)
    case WriteBound(l, _) => StepWriteBound(s, l, r)
    case WriteReleasing(l) => StepWriteReleasing(s, l, r)
    case DropWorkload(l, why) => StepDropWorkload(s, l, why, r)
    case LookupForRelease(l, why) => StepLookupForRelease(s, l, why, r)
    case DeleteLease(l, why, pod) => StepDeleteLease(s, l, why, pod, r)
    case RevertPod(l, why, pod) => StepRevertPod(s, l, why, pod, r)
    case Finish(l, why) => StepFinish(s, l, why, r)
  }

  // The WarmPool reconciler.

  predicate PoolEnabled(s: Sys, c: PoolCall) {
    match c
    case BeginPromote(key) =>
      s.pool.PoolIdle? && key in s.pods && Considered(s.pods[key]) && LabelledWarm(s.pods[key])
    case CreateLease(_, _, _, _) => s.pool.PoolCreate?
    case GiveUp => s.pool.PoolCreate?
    case PatchLabel => s.pool.PoolLabel? || s.pool.PoolLabelReleasing?
    case BeginDemote(key, lease) =>
      && s.pool.PoolIdle? && key in s.pods && Considered(s.pods[key]) && s.pods[key].state.LabelHot?
      && (lease.Some? ==> lease.value in s.leases && Claims(s.leases[lease.value], key, s.pods[key].uid))
    case BeginSweep(name, _) => s.pool.PoolIdle? && name in s.leases && !s.leases[name].deleting
    case GetClaimPod(_) => s.pool.PoolSweep?
    case StripFinalizer => s.pool.PoolStrip?
    case DeleteObject => s.pool.PoolDelete?
  }

  predicate Claims(l: Lease, key: PodKey, uid: nat) {
    l.spec.claim.pod == key && ClaimMatches(l.spec.claim, uid)
  }

  function NewLease(s: Sys, key: PodKey, pod: Pod, id: nat, model: string, deployment: PodKey, queue: string): Lease {
    Lease(LeaseName(pod.node, id), s.rev + 1, s.rev + 1, MetaTime(s.now),
          Spec(pod.node, id, model, ClaimRef(key, pod.uid), deployment, queue),
          true, false, Pending, "", Absent, Absent, Absent)
  }

  /** Create: AlreadyExists leaves the candidate in place for the next free id. */
  function PoolCreateLease(s: Sys, l: Lease, key: PodKey, pod: Pod, r: Reply): Sys {
    if l.name in s.leases then (if r.ok then s else s.(pool := PoolIdle))
    else
      var s1 := if r.Effective() then s.(leases := s.leases[l.name := l], rev := s.rev + 1) else s;
      s1.(pool := if r.ok then PoolLabel(key, pod) else PoolIdle)
  }

  /** The first decision of the sweep on a lease that is not being deleted. */
  function SweepDecision(l: Lease, now: nat, retention: nat): Pool {
    if l.phase == Failed && now - FailedSince(l) >= retention
    then (if l.finalizer then PoolStrip(l) else PoolDelete(l.name))
    else PoolSweep(l)
  }

  function PoolNext(s: Sys, c: PoolCall, r: Reply): Sys
    requires PoolEnabled(s, c)
  {
    match c
    case BeginPromote(key) => s.(pool := PoolCreate(key, s.pods[key]))
    case CreateLease(id, model, deployment, queue) =>
      var key, pod := s.pool.key, s.pool.pod;
      PoolCreateLease(s, NewLease(s, key, pod, id, model, deployment, queue), key, pod, r)
    case GiveUp => s.(pool := PoolIdle)
    case PatchLabel =>
      if s.pool.PoolLabel? then
        PatchState(s, s.pool.key, s.pool.pod, LabelActivating, r).(pool := PoolIdle)
      else
        PatchState(s, s.pool.key, s.pool.pod, LabelReleasing, r)
        .(pool := if r.ok && s.pool.lease.Some? then PoolDelete(s.pool.lease.value) else PoolIdle)
    case BeginDemote(key, lease) => s.(pool := PoolLabelReleasing(key, s.pods[key], lease))
    case BeginSweep(name, retention) => s.(pool := SweepDecision(s.leases[name], s.now, retention))
    case GetClaimPod(selected) =>
      s.(pool := if r.ok && OrphanReason(GetPod(s, s.pool.l.spec.claim.pod), s.pool.l, selected).Some?
                 then PoolDelete(s.pool.l.name) else PoolIdle)
    case StripFinalizer =>
      TryPut(s, s.pool.l.(finalizer := false), r)
      .(pool := if PutOk(s, s.pool.l, r) then PoolDelete(s.pool.l.name) else PoolIdle)
    case DeleteObject =>
      (if r.Effective() then Remove(s, s.pool.name) else s).(pool := PoolIdle)
  }

  // The environment: the clock, Kueue, the kubelet, pod timers, an operator.

  predicate EnvEnabled(s: Sys, e: Event) {
    match e
    case Tick(_) => true
    case Kueue(key, _, _, _) => key in s.workloads
    case AddPod(key, _, _) => key !in s.pods
    case RemovePod(key) => key in s.pods
    case ChangePod(key, _, _, _, _) => key in s.pods
    case RestartPod(key) => key in s.pods
    case ExpireTimer(key) => key in s.pods && s.pods[key].machine.Waiting()
    case OperatorDelete(_) => true
  }

  function EnvNext(s: Sys, e: Event): Sys
    requires EnvEnabled(s, e)
  {
    match e
    case Tick(d) => s.(now := s.now + d)
    case Kueue(key, admitted, inadmissible, quotaReserved) =>
      var w := s.workloads[key].(admitted := admitted, inadmissible := inadmissible, quotaReserved := quotaReserved);
      s.(workloads := s.workloads[key := w])
    case AddPod(key, node, state) =>
      s.(pods := s.pods[key := Pod(s.rev + 1, node, false, false, false, false, state, Warm)], rev := s.rev + 1)
    case RemovePod(key) => s.(pods := s.pods - {key})
    case ChangePod(key, ip, running, ready, terminating) =>
      var p := s.pods[key];
      s.(pods := s.pods[key := p.(hasIP := p.hasIP || ip, running := running, ready := ready,
                                  terminating := p.terminating || terminating)])
    case RestartPod(key) => SetMachine(s, key, Warm)
    case ExpireTimer(key) => SetMachine(s, key, s.pods[key].machine.Expire())
    case OperatorDelete(name) => Remove(s, name)
  }

  // Runs.

  predicate Enabled(s: Sys, l: Label) {
    match l
    case Work(_, _) => true
    case PoolStep(c, _) => PoolEnabled(s, c)
    case Env(e) => EnvEnabled(s, e)
  }

  function Next(s: Sys, l: Label): Sys
    requires Enabled(s, l)
  {
    match l
    case Work(start, r) => WorkerNext(s, start, r)
    case PoolStep(c, r) => PoolNext(s, c, r)
    case Env(e) => EnvNext(s, e)
  }

  const START: Sys := Sys(0, 0, map[], map[], map[], Idle, PoolIdle)

  datatype Run = Run(states: seq<Sys>, labels: seq<Label>)

  ghost predicate StepAt(run: Run, i: nat)
    requires |run.states| == |run.labels| + 1 && i < |run.labels|
  {
    Enabled(run.states[i], run.labels[i]) && run.states[i + 1] == Next(run.states[i], run.labels[i])
  }

  ghost predicate IsRun(run: Run) {
    && |run.states| == |run.labels| + 1
    && run.states[0] == START
    && forall i :: 0 <= i < |run.labels| ==> StepAt(run, i)
  }
}
