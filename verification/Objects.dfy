/**
 The objects the two reconcilers share through the API server, and the pure decisions
 they take on them. Time is in nanoseconds since the epoch.
 */
module Objects {
  import opened Options
  import opened Durations
  import opened PodMachine

  /** A metav1.Time is written with whole seconds, so a stored time has lost its fraction. */
  function MetaTime(t: nat): (r: nat)
    ensures r <= t < r + SECOND && r % SECOND == 0
  {
    t - t % SECOND
  }

  /** `Pending` stands for both "" and "Pending", which the reconciler treats alike. */
  datatype Phase = Pending | Admitted | Activating | Bound | Failed | Releasing

  /** A status condition: its last transition time moves only when the status flips. */
  datatype Condition = Absent | IsTrue(since: nat) | IsFalse(since: nat)

  function SetCondition(c: Condition, status: bool, now: nat): (r: Condition)
    ensures r.IsTrue? == status && r.IsFalse? == !status
    ensures if c.Absent? || c.IsTrue? != status then r.since == MetaTime(now) else r == c
  {
    if status then (if c.IsTrue? then c else IsTrue(MetaTime(now)))
    else (if c.IsFalse? then c else IsFalse(MetaTime(now)))
  }

  datatype PodKey = PodKey(namespace: string, name: string)

  /** UID 0 stands for the empty UID. */
  datatype ClaimRef = ClaimRef(pod: PodKey, uid: nat)

  datatype Spec = Spec(
    node: string, gpu: nat, model: string, claim: ClaimRef, deployment: PodKey, queue: string)

  datatype Lease = Lease(
    name: string,
    uid: nat,               // identifies the incarnation behind the name
    rv: nat,                // resourceVersion
    created: nat,
    spec: Spec,
    finalizer: bool,
    deleting: bool,         // has a deletion timestamp
    phase: Phase,
    workloadName: string,
    quotaReserved: Condition,
    podActivated: Condition,
    ready: Condition)

  /** Label gpu-lease.llm-d.ai/state. */
  datatype StateLabel = Unlabelled | LabelWarm | LabelActivating | LabelHot | LabelReleasing

  datatype Pod = Pod(
    uid: nat, node: string, hasIP: bool, running: bool, ready: bool, terminating: bool,
    state: StateLabel, machine: Machine)

  datatype WorkloadKey = WorkloadKey(namespace: string, name: string)

  /** The part of a Workload's spec that differs between leases: one unit, pinned to a node. */
  datatype WorkloadSpec = WorkloadSpec(queue: string, nodeSelector: string)

  datatype Workload = Workload(
    spec: WorkloadSpec, created: nat, admitted: bool, inadmissible: bool, quotaReserved: Condition)

  function KeyOf(l: Lease): WorkloadKey {
    WorkloadKey(l.spec.claim.pod.namespace, l.name)
  }

  function BuildWorkload(l: Lease): WorkloadSpec {
    WorkloadSpec(l.spec.queue, l.spec.node)
  }

  function RequestOf(l: Lease): Request {
    Request(l.name, l.spec.node, l.spec.gpu, l.spec.model)
  }

  /** Where admission-timeout starts. */
  function AdmissionAnchor(w: Workload): nat {
    if w.quotaReserved.Absent? then w.created else w.quotaReserved.since
  }

  /** Where activation-timeout starts. */
  function ActivationAnchor(l: Lease): nat {
    if l.podActivated.Absent? then l.created else l.podActivated.since
  }

  /** When the lease entered Failed, as the retention sweep reads it. */
  function FailedSince(l: Lease): nat {
    if l.ready.Absent? then l.created else l.ready.since
  }

  /** A claim without a UID is good for any pod of its name. */
  predicate UidMatches(claimed: nat, uid: nat) {
    claimed == 0 || claimed == uid
  }

  predicate ClaimMatches(c: ClaimRef, uid: nat) {
    UidMatches(c.uid, uid)
  }

  datatype Reason =
    | QuotaExhaustedOnNode | QueueMisconfigured | PodUnreachable | ActivationTimeout
    | PodGone | ReasonNodeMismatch

  /** Why the claimed pod no longer justifies the lease; `selected` is the selector's verdict. */
  function OrphanReason(pod: Option<Pod>, l: Lease, selected: bool): Option<Reason> {
    if pod.None? then Some(PodGone)
    else if !ClaimMatches(l.spec.claim, pod.value.uid) then Some(PodGone)
    else if pod.value.terminating || !pod.value.ready then Some(PodGone)
    else if !selected then Some(PodGone)
    else if pod.value.node != l.spec.node then Some(ReasonNodeMismatch)
    else None
  }

  /** Whether a pod counts towards the pool: scheduled, running, ready and not terminating. */
  predicate Counts(node: string, running: bool, ready: bool, terminating: bool) {
    !terminating && node != "" && running && ready
  }

  predicate Considered(p: Pod) {
    Counts(p.node, p.running, p.ready, p.terminating)
  }

  /** A pod without the label counts as warm. */
  predicate LabelledWarm(p: Pod) {
    p.state.LabelWarm? || p.state.Unlabelled?
  }
}
