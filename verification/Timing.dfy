/**
 Timeouts: the reconciler polls while a lease waits for admission or for its pod to warm up,
 and gives up at a deadline measured from a condition's transition time.
 */
module Timing {
  import opened Bounds
  import opened Durations
  import opened Objects
  import opened Protocol
  import opened Safety
  import opened History

  const POLL_INTERVAL: nat := 2 * SECOND
  const BOUND_POLL_INTERVAL: nat := 15 * SECOND

  /** A poll interval, cut to what is left of the budget. */
  function NextPoll(remaining: int): (wait: int)
    ensures wait <= remaining && wait <= POLL_INTERVAL && (remaining > 0 ==> wait > 0)
  {
    if remaining < POLL_INTERVAL then remaining else POLL_INTERVAL
  }

  predicate Expired(at: int, anchor: nat, timeout: nat) {
    at - anchor >= timeout
  }

  /** Polls on schedule: each one but the last came too early to give up and asked for the next. */
  ghost predicate Schedule(polls: seq<nat>, anchor: nat, timeout: nat) {
    && polls != []
    && forall k :: 0 <= k < |polls| - 1 ==>
         !Expired(polls[k], anchor, timeout) && polls[k + 1] == polls[k] + NextPoll(timeout - (polls[k] - anchor))
  }

  /** When each poll happens: at the full interval, but never past the deadline. */
  lemma {:induction false} PollTimes(polls: seq<nat>, anchor: nat, timeout: nat, k: nat)
    requires Schedule(polls, anchor, timeout) && k < |polls|
    ensures polls[k] == if k == 0 then polls[0] else Min(polls[0] + k * POLL_INTERVAL, anchor + timeout)
    ensures k > 0 ==> polls[k - 1] < polls[k] <= anchor + timeout
  {
    if k > 0 {
      PollTimes(polls, anchor, timeout, k - 1);
      assert !Expired(polls[k - 1], anchor, timeout);
    }
  }

  /** Polling ends: from any first poll there is a schedule whose last poll gives up. */
  lemma {:induction false} GivesUp(first: nat, anchor: nat, timeout: nat) returns (polls: seq<nat>)
    ensures Schedule(polls, anchor, timeout) && polls[0] == first && Expired(polls[|polls| - 1], anchor, timeout)
    decreases Max(0, anchor + timeout - first)
  {
    if Expired(first, anchor, timeout) {
      polls := [first];
    } else {
      var rest := GivesUp(first + NextPoll(timeout - (first - anchor)), anchor, timeout);
      polls := [first] + rest;
      forall k | 0 <= k < |polls| - 1
        ensures !Expired(polls[k], anchor, timeout) && polls[k + 1] == polls[k] + NextPoll(timeout - (polls[k] - anchor))
      {
        if k > 0 { assert polls[k] == rest[k - 1] && polls[k + 1] == rest[k]; }
      }
    }
  }

  /** The number of polls after the first is the budget left by it, in poll intervals, rounded up. */
  lemma PollCount(polls: seq<nat>, anchor: nat, timeout: nat)
    requires Schedule(polls, anchor, timeout) && Expired(polls[|polls| - 1], anchor, timeout)
    requires !Expired(polls[0], anchor, timeout)
    ensures (|polls| - 2) * POLL_INTERVAL < anchor + timeout - polls[0] <= (|polls| - 1) * POLL_INTERVAL
  {
    var last := |polls| - 1;
    PollTimes(polls, anchor, timeout, last);
    PollTimes(polls, anchor, timeout, last - 1);
    assert !Expired(polls[last - 1], anchor, timeout);
  }

  // In the protocol.

  datatype Waiting = ForAdmission | ForActivation

  function TimeoutReason(w: Waiting): Reason {
    match w
    case ForAdmission => QuotaExhaustedOnNode
    case ForActivation => ActivationTimeout
  }

  /** When Kueue last changed its mind on a reservation, or when the Workload was created if it has not spoken yet. */
  predicate WaitsSince(w: Workload, t: nat) {
    t == match w.quotaReserved
         case Absent => w.created
         case IsTrue(since) => since
         case IsFalse(since) => since
  }

  /** When the pod was last reported activated or not, or when the lease was created if it never was. */
  predicate ActivatesSince(l: Lease, t: nat) {
    t == match l.podActivated
         case Absent => l.created
         case IsTrue(since) => since
         case IsFalse(since) => since
  }

  /** A poll that finds neither success nor another reason to fail. */
  ghost predicate PollsAt(s: Sys, step: Label, w: Waiting, anchor: nat, timeout: nat) {
    && step.Work? && step.r.timeout == timeout
    && match w
       case ForAdmission =>
         && s.worker.GetWorkload? && step.r.ok
         && (var l := s.worker.l;
             var key := WorkloadKey(l.spec.claim.pod.namespace, l.name);
             && key in s.workloads
             && (var wl := s.workloads[key];
                 && wl.spec.queue == l.spec.queue && wl.spec.nodeSelector == l.spec.node
                 && !wl.admitted && !wl.inadmissible && WaitsSince(wl, anchor)))
       case ForActivation =>
         && s.worker.PollState? && ActivatesSince(s.worker.l, anchor)
         && var key, pod := s.worker.l.spec.claim.pod, s.worker.pod;
            !(step.r.ok && pod.hasIP && Reaches(s, key, pod.uid) && s.pods[key].machine.Hot?)
  }

  /** Such a poll gives up exactly when the time is up, and does nothing else. */
  lemma PollDecides(s: Sys, step: Label, w: Waiting, anchor: nat, timeout: nat)
    requires PollsAt(s, step, w, anchor, timeout)
    ensures Next(s, step) == s.(worker :=
      if Expired(s.now, anchor, timeout) then DropWorkload(s.worker.l, ForFailure(TimeoutReason(w))) else Idle)
  {
    match w
    case ForAdmission => assert Next(s, step) == StepGetWorkload(s, s.worker.l, step.r);
    case ForActivation => assert Next(s, step) == StepPollState(s, s.worker.l, s.worker.pod, step.r);
  }

  ghost function TimesOf(run: Run, polls: seq<nat>): seq<nat>
    requires forall j :: 0 <= j < |polls| ==> polls[j] < |run.states|
  {
    seq(|polls|, j requires 0 <= j < |polls| => run.states[polls[j]].now)
  }

  /**
   A lease polled on schedule, whose anchor does not move, is given up by the poll at the deadline and by
   no other, where the deadline is the timeout after the anchor or the first poll, whichever is later.
   */
  lemma FailsAtDeadline(run: Run, polls: seq<nat>, w: Waiting, anchor: nat, timeout: nat, j: nat)
    requires IsRun(run) && j < |polls| && forall i :: 0 <= i < |polls| ==> polls[i] < |run.labels|
    requires forall i :: 0 <= i < |polls| ==> PollsAt(run.states[polls[i]], run.labels[polls[i]], w, anchor, timeout)
    requires Schedule(TimesOf(run, polls), anchor, timeout)
    ensures var s, t, first := run.states[polls[j]], run.states[polls[j] + 1], run.states[polls[0]].now;
      && !s.worker.Idle? && s.now <= Max(first, anchor + timeout)
      && t == s.(worker := if s.now == Max(first, anchor + timeout)
                           then DropWorkload(s.worker.l, ForFailure(TimeoutReason(w))) else Idle)
  {
    var times := TimesOf(run, polls);
    assert times[j] == run.states[polls[j]].now;
    assert StepAt(run, polls[j]);
    PollDecides(run.states[polls[j]], run.labels[polls[j]], w, anchor, timeout);
    PollTimes(times, anchor, timeout, j);
    if j > 0 { assert !Expired(times[0], anchor, timeout); }
  }

  /** For activation the timeout counts from the step that wrote the lease Activating. */
  lemma ActivationFailsAtDeadline(run: Run, polls: seq<nat>, anchor: nat, timeout: nat, j: nat) returns (entry: nat)
    requires IsRun(run) && j < |polls| && forall i :: 0 <= i < |polls| ==> polls[i] < |run.labels|
    requires forall i :: 0 <= i < |polls| ==> PollsAt(run.states[polls[i]], run.labels[polls[i]], ForActivation, anchor, timeout)
    requires Schedule(TimesOf(run, polls), anchor, timeout)
    ensures var s, t, first := run.states[polls[j]], run.states[polls[j] + 1], run.states[polls[0]].now;
      && !s.worker.Idle? && entry < polls[j]
      && EntersActivating(run, entry, s.worker.l)
      && (var deadline := Max(first, MetaTime(run.states[entry].now) + timeout);
          t == s.(worker := if s.now == deadline then DropWorkload(s.worker.l, ForFailure(ActivationTimeout)) else Idle))
  {
    FailsAtDeadline(run, polls, ForActivation, anchor, timeout, j);
    var s := run.states[polls[j]];
    RunInv(run, polls[j]);
    assert PollsAt(s, run.labels[polls[j]], ForActivation, anchor, timeout);
    entry := ActivatingSince(run, polls[j], s.worker.l.name, s.worker.l.uid);
    assert s.leases[s.worker.l.name].podActivated == s.worker.l.podActivated;
  }

  /** Step i takes the lease from Admitted to Activating. */
  predicate EntersActivating(run: Run, i: nat, l: Lease)
    requires IsRun(run)
  {
    && i < |run.labels| && Alive(run, i, l.name, l.uid) && Alive(run, i + 1, l.name, l.uid)
    && run.states[i].leases[l.name].phase == Admitted && run.states[i + 1].leases[l.name].phase == Activating
  }

  /** For admission, as long as Kueue has not spoken, the timeout counts from the step that created the Workload. */
  lemma AdmissionAnchoredAtCreation(run: Run, p: nat, anchor: nat, timeout: nat) returns (created: nat)
    requires IsRun(run) && p < |run.labels| && PollsAt(run.states[p], run.labels[p], ForAdmission, anchor, timeout)
    requires var l := run.states[p].worker.l;
      run.states[p].workloads[WorkloadKey(l.spec.claim.pod.namespace, l.name)].quotaReserved.Absent?
    ensures created < p && run.labels[created].Work? && run.states[created].worker.CreateWorkload?
    ensures run.states[created].worker.l.name == run.states[p].worker.l.name && anchor == MetaTime(run.states[created].now)
  {
    var l := run.states[p].worker.l;
    created := WorkloadSince(run, p, WorkloadKey(l.spec.claim.pod.namespace, l.name));
  }
}
