/**
 The state labels the reconcilers leave on pods, over whole runs: a lease is written Bound only
 after its pod was labelled hot, a release that finds its pod labels it warm before the lease
 ends, and the pool labels what it promotes activating and what it demotes releasing.
 */
module Marking {
  import opened Objects
  import opened Protocol
  import opened Safety
  import Binding

  /**
   A merge patch of the state label between two states: the pod that is there has the wanted label, unless
   it had that label when it was read; then nothing was sent and the label is whatever it was.
   */
  predicate Labels(s: Sys, t: Sys, key: PodKey, read: Pod, state: StateLabel) {
    key in s.pods ==>
      key in t.pods && t.pods[key].state == if read.state == state then s.pods[key].state else state
  }

  /** Only the patch that marks the pod hot leads to the Bound write. */
  lemma ComesFromMarkHot(s: Sys, start: string, r: Reply)
    ensures var t := WorkerNext(s, start, r);
      t.worker.WriteBound? ==>
        && s.worker.MarkHot? && s.worker.l == t.worker.l && r.ok && s.worker.l.spec.claim.pod in s.pods
        && Labels(s, t, s.worker.l.spec.claim.pod, s.worker.pod, LabelHot)
  {
    match s.worker
    case MarkHot(l, pod, seen) => assert WorkerNext(s, start, r) == StepMarkHot(s, l, pod, seen, r);
    case PollState(l, pod) => assert WorkerNext(s, start, r) == StepPollState(s, l, pod, r);
    case _ => Binding.NothingSeen(s, start, r);
  }

  /** Step i marks the claim pod of the lease hot. */
  predicate MarksHotAt(run: Run, i: nat, l: Lease)
    requires IsRun(run)
  {
    && i < |run.labels| && run.labels[i].Work? && run.labels[i].r.ok && run.states[i].worker.MarkHot? && run.states[i].worker.l == l
    && l.spec.claim.pod in run.states[i].pods
    && Labels(run.states[i], run.states[i + 1], l.spec.claim.pod, run.states[i].worker.pod, LabelHot)
  }

  lemma {:induction false} HotBeforeBound(run: Run, j: nat) returns (i: nat)
    requires IsRun(run) && j < |run.states| && run.states[j].worker.WriteBound?
    ensures i < j && MarksHotAt(run, i, run.states[j].worker.l)
  {
    assert j > 0;
    RunInv(run, j - 1);
    assert StepAt(run, j - 1);
    var s := run.states[j - 1];
    match run.labels[j - 1] {
      case Work(start, r) => ComesFromMarkHot(s, start, r); i := j - 1; return;
      case PoolStep(c, r) => PoolSound(s, c, r);
      case Env(e) => EnvSound(s, e);
    }
    i := HotBeforeBound(run, j - 1);
  }

  /** A release did not come to its pod: the lookup failed, or there was no such pod. */
  predicate NoPodFound(s: Sys, r: Reply)
    requires s.worker.LookupForRelease?
  {
    var claim := s.worker.l.spec.claim;
    !r.ok || claim.pod !in s.pods || (claim.uid != 0 && s.pods[claim.pod].uid != claim.uid)
  }

  /** How a cleanup comes to its last write: past the pod it reverted to warm, or without one. */
  ghost predicate EndsCleanup(s: Sys, t: Sys, r: Reply) {
    && (s.worker.RevertPod? || s.worker.LookupForRelease?) && !t.worker.Idle?
    && s.worker.l == t.worker.l && (t.worker.Finish? ==> s.worker.why == t.worker.why)
    && (s.worker.LookupForRelease? ==> NoPodFound(s, r))
    && (s.worker.RevertPod? && r.Effective() ==> Labels(s, t, s.worker.l.spec.claim.pod, s.worker.pod, LabelWarm))
  }

  lemma ComesFromCleanup(s: Sys, start: string, r: Reply)
    ensures var t := WorkerNext(s, start, r); t.worker.Finish? ==> EndsCleanup(s, t, r)
  {
    if Writes(s.worker) { WriteShape(s, start, r); }
    else if TalksToPod(s.worker) { PodCallEnds(s, start, r); }
    else { ReadEnds(s, start, r); }
  }

  lemma PodCallEnds(s: Sys, start: string, r: Reply)
    requires TalksToPod(s.worker)
    ensures var t := WorkerNext(s, start, r); t.worker.Finish? ==> EndsCleanup(s, t, r)
  {
    match s.worker
    case PostLease(l, uid) => assert WorkerNext(s, start, r) == StepPostLease(s, l, uid, r);
    case RevertPod(l, why, pod) => assert WorkerNext(s, start, r) == StepRevertPod(s, l, why, pod, r);
    case _ =>
  }

  lemma ReadEnds(s: Sys, start: string, r: Reply)
    requires !TalksToPod(s.worker) && !Writes(s.worker)
    ensures var t := WorkerNext(s, start, r); t.worker.Finish? ==> EndsCleanup(s, t, r)
  {
    match s.worker
    case LookupForRelease(l, why) => assert WorkerNext(s, start, r) == StepLookupForRelease(s, l, why, r);
    case LookupPod(l) => assert WorkerNext(s, start, r) == StepLookupPod(s, l, r);
    case GetWorkload(l) => assert WorkerNext(s, start, r) == StepGetWorkload(s, l, r);
    case _ =>
  }

  /** Step i reverts the pod of the lease to warm, as far as the call gets through, or has found no pod to revert. */
  predicate RevertsAt(run: Run, i: nat, l: Lease, why: Why)
    requires IsRun(run)
  {
    && i < |run.labels| && run.labels[i].Work?
    && (var w, r := run.states[i].worker, run.labels[i].r;
        || (w == LookupForRelease(l, why) && NoPodFound(run.states[i], r))
        || (w.RevertPod? && w.l == l && w.why == why
            && (r.Effective() ==> Labels(run.states[i], run.states[i + 1], l.spec.claim.pod, w.pod, LabelWarm))))
  }

  lemma {:induction false} WarmBeforeEnd(run: Run, j: nat) returns (i: nat)
    requires IsRun(run) && j < |run.states| && run.states[j].worker.Finish?
    ensures i < j && RevertsAt(run, i, run.states[j].worker.l, run.states[j].worker.why)
  {
    assert j > 0;
    RunInv(run, j - 1);
    assert StepAt(run, j - 1);
    var s := run.states[j - 1];
    match run.labels[j - 1] {
      case Work(start, r) => ComesFromCleanup(s, start, r); i := j - 1; return;
      case PoolStep(c, r) => PoolSound(s, c, r);
      case Env(e) => EnvSound(s, e);
    }
    i := WarmBeforeEnd(run, j - 1);
  }

  /** What the pool writes: activating on the pod it has a lease for, releasing on the one it takes the lease from. */
  lemma PoolLabels(s: Sys, r: Reply)
    requires PoolEnabled(s, PatchLabel) && r.Effective()
    ensures Labels(s, PoolNext(s, PatchLabel, r), s.pool.key, s.pool.pod,
                   if s.pool.PoolLabel? then LabelActivating else LabelReleasing)
  {
  }
}
