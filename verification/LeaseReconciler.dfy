/**
 The GPULease reconciler in its own form: methods that call the API server and the pod one
 call at a time, with other actors running after every call. Each call is checked to be the
 next step of the Protocol's worker, so a reconcile, however its calls fare, is a piece of
 a run of the Protocol.
 */
module LeaseReconciler {
  import opened Options
  import opened PodMachine
  import opened Objects
  import opened Protocol
  import opened Safety
  import opened Timing
  import Decisions

  /** How a reconcile asks to be called again; an error is retried with a growing delay. */
  datatype Requeue = Never | AtOnce | After(wait: int) | OnError

  /** Step i of the run: an idle worker takes up the lease. */
  ghost predicate TakesUp(run: Run, i: nat, name: string) {
    i < |run.labels| && i < |run.states| && run.states[i].worker.Idle? && run.labels[i].Work? && run.labels[i].start == name
  }

  /**
   A wait for the next poll: step i of the run is a poll that found neither success nor another reason
   to fail, and the wait is what is left of its budget or one poll interval, whichever is less.
   */
  ghost predicate AwaitsPoll(run: Run, i: nat, w: Waiting, anchor: nat, wait: int) {
    && i < |run.labels| && i < |run.states| && run.labels[i].Work?
    && (var now, timeout := run.states[i].now, run.labels[i].r.timeout;
        && PollsAt(run.states[i], run.labels[i], w, anchor, timeout)
        && wait == NextPoll(timeout - (now - anchor)) && 0 < wait && now + wait <= anchor + timeout)
  }

  /** Step i of the run writes the lease Bound. */
  ghost predicate BindsAt(run: Run, i: nat, lease: Lease) {
    && i < |run.labels| && i < |run.states| && run.labels[i].Work?
    && run.states[i].worker.WriteBound? && run.states[i].worker.l == lease && Succeeds(run.states[i], run.labels[i].r)
  }

  /** The wait of a lease that was Activating: for the next poll, or until a Bound lease is looked at again. */
  ghost predicate InTime(run: Run, i: nat, lease: Lease, wait: int) {
    if BindsAt(run, i, lease) then wait == BOUND_POLL_INTERVAL
    else AwaitsPoll(run, i, ForActivation, ActivationAnchor(lease), wait)
  }

  /** What the caller sees: the call got through, and was not refused. */
  predicate Succeeds(s: Sys, r: Reply) {
    if Writes(s.worker) then PutOk(s, s.worker.l, r)
    else r.ok && (s.worker.MarkHot? ==> s.worker.l.spec.claim.pod in s.pods)
  }

  /** Step i of the run is this call of the worker, with this success. */
  ghost predicate CalledAt(run: Run, i: nat, w: Worker, ok: bool) {
    && i < |run.labels| && i < |run.states| && run.labels[i].Work? && run.states[i].worker == w
    && ok == Succeeds(run.states[i], run.labels[i].r)
  }

  /**
   What a reconcile's answer stands on, at step i: an error on a call that failed; an answer that asks
   for nothing on the acknowledged write that ends the lease's life or records its failure; and an
   immediate requeue on the acknowledged call it follows up.
   */
  ghost predicate Verdict(run: Run, from: nat, i: nat, lease: Lease, res: Requeue) {
    && from <= i < |run.labels| && i < |run.states| && run.labels[i].Work?
    && (var w := run.states[i].worker;
        match res
        case OnError => CalledAt(run, i, w, false)
        case Never => w.Finish? && w.l.name == lease.name && CalledAt(run, i, w, true)
        case AtOnce => (w.AddFinalizer? || w.WriteAdmitted? || w.DropStaleWorkload?) && w.l == lease && CalledAt(run, i, w, true)
        case After(_) => true)
  }

  /** A lease no reconcile does anything about: gone but for other finalizers, or Failed or Releasing without being deleted. */
  predicate AtRest(l: Lease) {
    if l.deleting then !l.finalizer else l.finalizer && (l.phase == Failed || l.phase == Releasing)
  }

  ghost predicate Extends(before: Run, after: Run) {
    before.states <= after.states && before.labels <= after.labels
  }

  /** Extends, beginning with a call of the worker. */
  ghost predicate Calls(before: Run, after: Run) {
    Extends(before, after) && |before.labels| < |after.labels| && after.labels[|before.labels|].Work?
  }

  // Neither the pool nor the environment looks at the worker.

  lemma PoolIgnoresWorker(s: Sys, w: Worker, c: PoolCall, r: Reply)
    requires PoolEnabled(s, c)
    ensures PoolNext(s.(worker := w), c, r) == PoolNext(s, c, r).(worker := w)
  {
    var v := s.(worker := w);
    match c
    case CreateLease(id, model, deployment, queue) =>
      assert NewLease(v, v.pool.key, v.pool.pod, id, model, deployment, queue)
          == NewLease(s, s.pool.key, s.pool.pod, id, model, deployment, queue);
    case PatchLabel =>
    case _ =>
  }

  lemma EnvIgnoresWorker(s: Sys, w: Worker, e: Event)
    requires EnvEnabled(s, e)
    ensures EnvNext(s.(worker := w), e) == EnvNext(s, e).(worker := w)
  {
  }

  lemma OthersIgnoreWorker(s: Sys, w: Worker, l: Label)
    requires !l.Work? && Enabled(s, l)
    ensures Enabled(s.(worker := w), l) && Next(s.(worker := w), l) == Next(s, l).(worker := w)
  {
    match l
    case PoolStep(c, r) => PoolIgnoresWorker(s, w, c, r);
    case Env(e) => EnvIgnoresWorker(s, w, e);
  }

  class Reconciler {
    var now: nat
    var rev: nat
    var leases: map<string, Lease>
    var workloads: map<WorkloadKey, Workload>
    var pods: map<PodKey, Pod>
    var pool: Pool
    ghost var pc: Worker    // where the Protocol's worker stands
    ghost var trace: Run    // the run so far

    function Store(): Sys
      reads this
    {
      Sys(now, rev, leases, workloads, pods, Idle, pool)
    }

    ghost function State(): Sys
      reads this
    {
      Store().(worker := pc)
    }

    ghost predicate Valid()
      reads this
    {
      IsRun(trace) && trace.states[|trace.states| - 1] == State()
    }

    constructor ()
      ensures Valid() && pc.Idle? && State() == START
    {
      now, rev, leases, workloads, pods, pool := 0, 0, map[], map[], map[], PoolIdle;
      pc, trace := Idle, Run([START], []);
    }

    /** Books a step that has taken place in the fields. */
    ghost method Commit(before: Sys, l: Label)
      requires IsRun(trace) && trace.states[|trace.states| - 1] == before && Enabled(before, l)
      requires Next(before, l) == Store().(worker := Next(before, l).worker)
      modifies `pc, `trace
      ensures Valid() && pc == Next(before, l).worker && Extends(old(trace), trace)
      ensures trace.labels == old(trace).labels + [l]
    {
      pc := Next(before, l).worker;
      trace := Run(trace.states + [State()], trace.labels + [l]);
      forall i | 0 <= i < |trace.labels| ensures StepAt(trace, i) {
        if i < |old(trace).labels| { assert StepAt(old(trace), i); }
      }
    }

    /** Books a call of the worker that has taken place in the fields, as the caller saw it. */
    ghost method CommitCall(before: Sys, r: Reply, ok: bool)
      requires IsRun(trace) && trace.states[|trace.states| - 1] == before && ok == Succeeds(before, r)
      requires WorkerNext(before, "", r) == Store().(worker := WorkerNext(before, "", r).worker)
      modifies `pc, `trace
      ensures Valid() && Calls(old(trace), trace) && pc == WorkerNext(before, "", r).worker
      ensures CalledAt(trace, |old(trace).labels|, before.worker, ok)
    {
      Commit(before, Work("", r));
    }

    /** Others run; what was called stays called. */
    method Yield(ghost i: nat, ghost w: Worker, ghost ok: bool)
      requires Valid() && CalledAt(trace, i, w, ok)
      modifies this
      ensures Valid() && pc == old(pc) && Extends(old(trace), trace) && CalledAt(trace, i, w, ok)
    {
      Interfere();
    }

    /** Any number of steps of the pool and the environment. */
    method Interfere()
      requires Valid()
      modifies this
      ensures Valid() && pc == old(pc) && Extends(old(trace), trace)
    {
      var k: nat := *;
      while k > 0
        invariant Valid() && pc == old(pc) && Extends(old(trace), trace)
      {
        k := k - 1;
        var l: Label := *;
        if !l.Work? && Enabled(Store(), l) {
          ghost var before := State();
          OthersIgnoreWorker(Store(), pc, l);
          var t := Next(Store(), l);
          now, rev, leases, workloads, pods, pool := t.now, t.rev, t.leases, t.workloads, t.pods, t.pool;
          Commit(before, l);
        }
      }
    }

    // Calls.

    method Get(name: string) returns (ok: bool, lease: Option<Lease>, ghost at: nat)
      requires Valid() && pc.Idle?
      modifies this
      ensures Valid() && Extends(old(trace), trace) && at == |old(trace).labels| && TakesUp(trace, at, name)
      ensures CalledAt(trace, at, Idle, ok)
      ensures lease == if ok && name in trace.states[at].leases then Some(trace.states[at].leases[name]) else None
      ensures pc == if lease.Some? then Dispatch(lease.value) else Idle
    {
      var r: Reply := *;
      at := |trace.labels|;
      ok, lease := r.ok, if r.ok && name in leases then Some(leases[name]) else None;
      Commit(State(), Work(name, r));
      assert TakesUp(trace, at, name);
      Interfere();
    }

    /** The store's side of an update. */
    method Write(m: Lease, r: Reply) returns (current: bool)
      modifies `leases, `rev
      ensures State() == TryPut(old(State()), m, r) && current == Current(old(State()), m)
    {
      current := m.name in leases && leases[m.name].rv == m.rv;
      if r.Effective() && current {
        if m.deleting && !m.finalizer {
          leases := leases - {m.name};
        } else {
          leases := leases[m.name := m.(rv := rev + 1)];
        }
        rev := rev + 1;
      }
    }

    /** Books a write of the worker. */
    ghost method CommitWrite(before: Sys, r: Reply, ok: bool)
      requires IsRun(trace) && trace.states[|trace.states| - 1] == before && Writes(before.worker) && ok == Succeeds(before, r)
      requires State() == TryPut(before, Written(before.worker, before.now), r)
      modifies `pc, `trace
      ensures Valid() && Calls(old(trace), trace) && CalledAt(trace, |old(trace).labels|, before.worker, ok)
      ensures pc == if before.worker.WriteReleasing? && PutOk(before, before.worker.l, r)
                    then DropWorkload(Written(before.worker, before.now).(rv := before.rev + 1), ForRelease) else Idle
    {
      WriteShape(before, "", r);
      CommitCall(before, r, ok);
    }

    /** Update and Status().Update; on success the caller's copy is the stored object. */
    method Update(m: Lease) returns (ok: bool, l: Lease)
      requires Valid() && Writes(pc) && m == Written(pc, now)
      modifies this
      ensures Valid() && Calls(old(trace), trace) && CalledAt(trace, |old(trace).labels|, old(pc), ok)
      ensures pc == if ok && old(pc).WriteReleasing? then DropWorkload(l, ForRelease) else Idle
      ensures l == m.(rv := l.rv)
    {
      ghost var before := State();
      assert m.name == pc.l.name && m.rv == pc.l.rv;
      var r: Reply := *;
      l := m.(rv := rev + 1);
      var current := Write(m, r);
      ok := r.ok && current;
      CommitWrite(before, r, ok);
      Yield(|old(trace).labels|, before.worker, ok);
    }

    method GetWorkload(lease: Lease) returns (ok: bool, wl: Option<Workload>, at: nat, timeout: nat, ghost i: nat)
      requires Valid() && pc == Worker.GetWorkload(lease)
      modifies this
      ensures Valid() && Extends(old(trace), trace) && i == |old(trace).labels| < |trace.labels|
      ensures trace.labels[i].Work? && trace.states[i] == old(State())
      ensures at == trace.states[i].now && timeout == trace.labels[i].r.timeout && ok == trace.labels[i].r.ok
      ensures wl == if KeyOf(lease) in trace.states[i].workloads then Some(trace.states[i].workloads[KeyOf(lease)]) else None
      ensures pc == if !ok then Idle else if wl.None? then Worker.CreateWorkload(lease)
                    else if wl.value.spec != BuildWorkload(lease) then DropStaleWorkload(lease)
                    else EvaluateAdmission(lease, wl.value, at, timeout)
    {
      var r: Reply := *;
      i := |trace.labels|;
      ok, at, timeout := r.ok, now, r.timeout;
      wl := if KeyOf(lease) in workloads then Some(workloads[KeyOf(lease)]) else None;
      Commit(State(), Work("", r));
      Interfere();
    }

    method Create(lease: Lease) returns (ok: bool)
      requires Valid() && pc == Worker.CreateWorkload(lease)
      modifies this
      ensures Valid() && Calls(old(trace), trace) && CalledAt(trace, |old(trace).labels|, old(pc), ok)
      ensures pc == if ok && lease.workloadName != lease.name then RecordWorkload(lease) else Idle
    {
      ghost var before := State();
      var r: Reply := *;
      ok := r.ok;
      if r.Effective() && KeyOf(lease) !in workloads {
        workloads := workloads[KeyOf(lease) := Workload(BuildWorkload(lease), MetaTime(now), false, false, Absent)];
      }
      CommitCall(before, r, ok);
      Yield(|old(trace).labels|, before.worker, ok);
    }

    method DeleteStale(lease: Lease) returns (ok: bool)
      requires Valid() && pc == DropStaleWorkload(lease)
      modifies this
      ensures Valid() && Calls(old(trace), trace) && CalledAt(trace, |old(trace).labels|, old(pc), ok) && pc.Idle?
    {
      ghost var before := State();
      var r: Reply := *;
      ok := r.ok;
      if r.Effective() {
        workloads := workloads - {KeyOf(lease)};
      }
      CommitCall(before, r, ok);
      Yield(|old(trace).labels|, before.worker, ok);
    }

    method DeleteWorkload(lease: Lease, ghost why: Why) returns (ok: bool)
      requires Valid() && pc == DropWorkload(lease, why)
      modifies this
      ensures Valid() && Calls(old(trace), trace) && CalledAt(trace, |old(trace).labels|, old(pc), ok)
      ensures pc == if ok then LookupForRelease(lease, why) else Idle
    {
      ghost var before := State();
      var r: Reply := *;
      ok := r.ok;
      if r.Effective() {
        workloads := workloads - {KeyOf(lease)};
      }
      CommitCall(before, r, ok);
      Yield(|old(trace).labels|, before.worker, ok);
    }

    /** getClaimPod in the phases Admitted, Activating and Bound. */
    method GetClaimPod(lease: Lease) returns (ok: bool, pod: Option<Pod>)
      requires Valid() && pc == LookupPod(lease)
      modifies this
      ensures Valid() && Calls(old(trace), trace) && CalledAt(trace, |old(trace).labels|, old(pc), ok)
      ensures pod == GetPod(trace.states[|old(trace).labels|], lease.spec.claim.pod)
      ensures pc == if ok then AfterLookup(lease, pod) else Idle
    {
      var r: Reply := *;
      ok, pod := r.ok, if lease.spec.claim.pod in pods then Some(pods[lease.spec.claim.pod]) else None;
      ghost var before := State();
      CommitCall(before, r, ok);
      Yield(|old(trace).labels|, before.worker, ok);
    }

    method Activate(lease: Lease, uid: nat) returns (ok: bool, answer: Answer)
      requires Valid() && pc == PostLease(lease, uid)
      modifies this
      ensures Valid() && Extends(old(trace), trace)
      ensures pc == if !ok then DropWorkload(lease, ForFailure(PodUnreachable))
                    else if answer.Accepted? then WriteActivating(lease)
                    else DropWorkload(lease, ForFailure(ReasonNodeMismatch))
    {
      ghost var before := State();
      var r: Reply := *;
      var key := lease.spec.claim.pod;
      ok, answer := false, LeaseConflict;
      if key in pods && pods[key].uid == uid && r.Effective() {
        var (machine, a) := pods[key].machine.Activate(RequestOf(lease), pods[key].node);
        pods := pods[key := pods[key].(machine := machine)];
        ok, answer := r.ok, a;
      }
      Commit(before, Work("", r));
      Interfere();
    }

    method PodState(lease: Lease, pod: Pod) returns (state: Option<Machine>, at: nat, timeout: nat, ghost i: nat)
      requires Valid() && pc == PollState(lease, pod)
      modifies this
      ensures Valid() && Extends(old(trace), trace) && i == |old(trace).labels| < |trace.labels|
      ensures trace.labels[i].Work? && at == trace.states[i].now && timeout == trace.labels[i].r.timeout
      ensures if state.Some? && state.value.Hot? then pc == Worker.MarkHot(lease, pod, state.value)
              else
                && PollsAt(trace.states[i], trace.labels[i], ForActivation, ActivationAnchor(lease), timeout)
                && pc == if at - ActivationAnchor(lease) >= timeout then DropWorkload(lease, ForFailure(ActivationTimeout)) else Idle
    {
      var r: Reply := *;
      var key := lease.spec.claim.pod;
      i := |trace.labels|;
      at, timeout := now, r.timeout;
      state := if r.ok && pod.hasIP && key in pods && pods[key].uid == pod.uid then Some(pods[key].machine) else None;
      ghost var before := State();
      Commit(before, Work("", r));
      assert trace.states[i] == before && trace.labels[i] == Work("", r);
      Interfere();
    }

    /** A merge patch of the state label. */
    method PatchObject(key: PodKey, pod: Pod, state: StateLabel, r: Reply)
      modifies `pods
      ensures State() == PatchState(old(State()), key, pod, state, r)
    {
      if key in pods && r.Effective() && pod.state != state {
        pods := pods[key := pods[key].(state := state)];
      }
    }

    method MarkPodHot(lease: Lease, pod: Pod, ghost seen: Machine) returns (ok: bool)
      requires Valid() && pc == Worker.MarkHot(lease, pod, seen)
      modifies this
      ensures Valid() && Calls(old(trace), trace) && CalledAt(trace, |old(trace).labels|, old(pc), ok)
      ensures pc == if ok then WriteBound(lease, seen) else Idle
    {
      ghost var before := State();
      var r: Reply := *;
      ok := r.ok && lease.spec.claim.pod in pods;
      PatchObject(lease.spec.claim.pod, pod, LabelHot, r);
      CommitCall(before, r, ok);
      Yield(|old(trace).labels|, before.worker, ok);
    }

    method RevertPodToWarm(lease: Lease, pod: Pod, ghost why: Why)
      requires Valid() && pc == RevertPod(lease, why, pod)
      modifies this
      ensures Valid() && Extends(old(trace), trace) && pc == Finish(lease, why)
    {
      ghost var before := State();
      var r: Reply := *;
      PatchObject(lease.spec.claim.pod, pod, LabelWarm, r);
      Commit(before, Work("", r));
      Interfere();
    }

    method GetPodForRelease(lease: Lease, ghost why: Why) returns (ok: bool, pod: Option<Pod>)
      requires Valid() && pc == LookupForRelease(lease, why)
      modifies this
      ensures Valid() && Extends(old(trace), trace)
      ensures pc == if !ok || pod.None? || !ClaimMatches(lease.spec.claim, pod.value.uid) then Finish(lease, why)
                    else if pod.value.hasIP then DeleteLease(lease, why, pod.value)
                    else RevertPod(lease, why, pod.value)
    {
      var r: Reply := *;
      ok, pod := r.ok, if lease.spec.claim.pod in pods then Some(pods[lease.spec.claim.pod]) else None;
      Commit(State(), Work("", r));
      Interfere();
    }

    method Release(lease: Lease, pod: Pod, ghost why: Why)
      requires Valid() && pc == DeleteLease(lease, why, pod)
      modifies this
      ensures Valid() && Extends(old(trace), trace) && pc == RevertPod(lease, why, pod)
    {
      ghost var before := State();
      var r: Reply := *;
      var key := lease.spec.claim.pod;
      if key in pods && pods[key].uid == pod.uid && r.Effective() {
        pods := pods[key := pods[key].(machine := pods[key].machine.Release())];
      }
      Commit(before, Work("", r));
      Interfere();
    }

    // The reconciler.


    /**
     One reconcile of one lease: from an idle worker to an idle worker, along a run. It takes the lease up
     at step `at`, and answers by what step i came to.
     */
    method Reconcile(name: string) returns (res: Requeue, ghost at: nat, ghost i: nat)
      requires Valid() && pc.Idle?
      modifies this
      ensures Valid() && pc.Idle? && Extends(old(trace), trace)
      ensures |old(trace).labels| <= at && TakesUp(trace, at, name)
      ensures res.After? ==> 0 < res.wait <= BOUND_POLL_INTERVAL
      ensures name !in trace.states[at].leases || CalledAt(trace, at, Idle, false) ==>
        res == if CalledAt(trace, at, Idle, false) then OnError else Never
      ensures name in trace.states[at].leases && CalledAt(trace, at, Idle, true) ==>
        var lease := trace.states[at].leases[name];
        (res == Never && AtRest(lease)) || Verdict(trace, at + 1, i, lease, res)
    {
      Interfere();
      var ok, found;
      ok, found, at := Get(name);
      i := at;
      if found.None? {
        return if ok then Never else OnError, at, i;
      }
      res, i := ReconcileFound(found.value);
    }

    /** The part of Reconcile that follows reading the lease. */
    method ReconcileFound(lease: Lease) returns (res: Requeue, ghost i: nat)
      requires Valid() && pc == Dispatch(lease)
      modifies this
      ensures Valid() && pc.Idle? && Extends(old(trace), trace)
      ensures res.After? ==> 0 < res.wait <= BOUND_POLL_INTERVAL
      ensures (res == Never && AtRest(lease)) || Verdict(trace, |old(trace).labels|, i, lease, res)
    {
      i := |trace.labels|;
      if lease.deleting {
        res, i := ReconcileDeletion(lease);
        return;
      }
      if !lease.finalizer {
        var ok, _ := Update(lease.(finalizer := true));
        return if ok then AtOnce else OnError, i;
      }
      match lease.phase {
        case Pending =>
          var requeue, _, j := ReconcilePending(lease);
          res, i := requeue, j;
        case Admitted => res, i := ReconcileAdmitted(lease);
        case Activating => res, i := ReconcileActivating(lease);
        case Bound => res, i := ReconcileBound(lease);
        case Failed => res := Never;
        case Releasing => res := Never;
      }
    }

    /** Step i reads the Workload; a wait is one poll interval after creating it, or the wait for the next poll. */
    method ReconcilePending(lease: Lease) returns (res: Requeue, ghost i: nat, ghost j: nat)
      requires Valid() && pc == Worker.GetWorkload(lease)
      modifies this
      ensures Valid() && pc.Idle? && Extends(old(trace), trace) && i == |old(trace).labels| < |trace.labels|
      ensures res.After? ==>
        var seen := trace.states[i].workloads;
        if KeyOf(lease) !in seen then res.wait == POLL_INTERVAL
        else AwaitsPoll(trace, i, ForAdmission, AdmissionAnchor(seen[KeyOf(lease)]), res.wait)
      ensures Verdict(trace, i, j, lease, res)
    {
      var ok, existing, at, timeout;
      ok, existing, at, timeout, i := GetWorkload(lease);
      j := i;
      if !ok {
        return OnError, i, j;
      }
      if existing.None? {
        res, j := CreateWorkload(lease);
        return;
      }
      if existing.value.spec != BuildWorkload(lease) {
        j := |trace.labels|;
        var deleted := DeleteStale(lease);
        return if deleted then AtOnce else OnError, i, j;
      }
      ghost var decided;
      res, decided := EvaluateAdmissionOf(lease, existing.value, at, timeout);
      j := if res.After? then i else decided;
    }

    method CreateWorkload(lease: Lease) returns (res: Requeue, ghost j: nat)
      requires Valid() && pc == Worker.CreateWorkload(lease)
      modifies this
      ensures Valid() && pc.Idle? && Extends(old(trace), trace)
      ensures res == OnError || res == After(POLL_INTERVAL)
      ensures Verdict(trace, |old(trace).labels|, j, lease, res)
      ensures res.After? ==>
        CalledAt(trace, |old(trace).labels|, Worker.CreateWorkload(lease), true) && Decisions.HasWorkload(trace.states[|old(trace).labels| + 1], lease)
    {
      j := |trace.labels|;
      var ok := Create(lease);
      if !ok {
        return OnError, j;
      }
      Decisions.CreateGivesWorkload(trace, j, lease);
      if lease.workloadName != lease.name {
        j := |trace.labels|;
        var recorded, _ := Update(lease.(workloadName := lease.name));
        if !recorded {
          return OnError, j;
        }
      }
      return After(POLL_INTERVAL), j;
    }

    /** A wait is asked for exactly when there is still time, and ends no later than the deadline. */
    method EvaluateAdmissionOf(lease: Lease, wl: Workload, at: nat, timeout: nat) returns (res: Requeue, ghost j: nat)
      requires Valid() && pc == EvaluateAdmission(lease, wl, at, timeout)
      modifies this
      ensures Valid() && pc.Idle? && Extends(old(trace), trace)
      ensures res.After? <==> old(pc).Idle?
      ensures res.After? ==>
        0 < res.wait <= POLL_INTERVAL && at + res.wait <= AdmissionAnchor(wl) + timeout
        && res.wait == NextPoll(timeout - (at - AdmissionAnchor(wl)))
      ensures res.After? || Verdict(trace, |old(trace).labels|, j, lease, res)
    {
      j := |trace.labels|;
      if wl.admitted {
        var ok, _ := Update(AdmittedLease(lease, now));
        return if ok then AtOnce else OnError, j;
      }
      if wl.inadmissible {
        res, j := TransitionToFailed(lease, QueueMisconfigured);
        return;
      }
      var elapsed := at - AdmissionAnchor(wl);
      if elapsed >= timeout {
        res, j := TransitionToFailed(lease, QuotaExhaustedOnNode);
        return;
      }
      return After(NextPoll(timeout - elapsed)), j;
    }

    /** A wait is asked for only once the lease is written Activating. */
    method ReconcileAdmitted(lease: Lease) returns (res: Requeue, ghost j: nat)
      requires Valid() && pc == LookupPod(lease) && lease.phase == Admitted
      modifies this
      ensures Valid() && pc.Idle? && Extends(old(trace), trace)
      ensures !res.AtOnce? && Verdict(trace, |old(trace).labels|, j, lease, res)
      ensures res.After? ==> res.wait == POLL_INTERVAL && CalledAt(trace, j, WriteActivating(lease), true)
    {
      j := |trace.labels|;
      var found, pod := GetClaimPod(lease);
      if !found {
        return OnError, j;
      }
      var orphan := OrphanReason(pod, lease, true);
      if orphan.Some? {
        res, j := TransitionToFailed(lease, orphan.value);
        return;
      }
      if !pod.value.hasIP {
        res, j := TransitionToFailed(lease, PodUnreachable);
        return;
      }
      res, j := ActivatePod(lease, pod.value);
    }

    /** The part of reconcileAdmitted that follows the checks of the pod. */
    method ActivatePod(lease: Lease, pod: Pod) returns (res: Requeue, ghost j: nat)
      requires Valid() && pc == PostLease(lease, pod.uid)
      modifies this
      ensures Valid() && pc.Idle? && Extends(old(trace), trace)
      ensures !res.AtOnce? && Verdict(trace, |old(trace).labels|, j, lease, res)
      ensures res.After? ==> res.wait == POLL_INTERVAL && CalledAt(trace, j, WriteActivating(lease), true)
    {
      var ok, answer := Activate(lease, pod.uid);
      if !ok {
        res, j := TransitionToFailed(lease, PodUnreachable);
        return;
      }
      if !answer.Accepted? {
        res, j := TransitionToFailed(lease, ReasonNodeMismatch);
        return;
      }
      j := |trace.labels|;
      var written, _ := Update(ActivatingLease(lease, now));
      return if written then After(POLL_INTERVAL) else OnError, j;
    }

    /** Unless step i has bound the lease, a wait is the wait for the next poll after the poll at step i. */
    method ReconcileActivating(lease: Lease) returns (res: Requeue, ghost i: nat)
      requires Valid() && pc == LookupPod(lease) && lease.phase == Activating
      modifies this
      ensures Valid() && pc.Idle? && Extends(old(trace), trace)
      ensures !res.AtOnce? && Verdict(trace, |old(trace).labels|, i, lease, res)
      ensures res.After? ==> InTime(trace, i, lease, res.wait)
    {
      i := |trace.labels|;
      var found, pod := GetClaimPod(lease);
      if !found {
        return OnError, i;
      }
      var orphan := OrphanReason(pod, lease, true);
      if orphan.Some? {
        res, i := TransitionToFailed(lease, orphan.value);
        return;
      }
      res, i := PollPod(lease, pod.value);
    }

    /** The part of reconcileActivating that follows the checks of the pod. */
    method PollPod(lease: Lease, pod: Pod) returns (res: Requeue, ghost i: nat)
      requires Valid() && pc == PollState(lease, pod)
      modifies this
      ensures Valid() && pc.Idle? && Extends(old(trace), trace)
      ensures !res.AtOnce? && Verdict(trace, |old(trace).labels|, i, lease, res)
      ensures res.After? ==> InTime(trace, i, lease, res.wait)
    {
      var state, at, timeout;
      state, at, timeout, i := PodState(lease, pod);
      if state.Some? && state.value.Hot? {
        res, i := BindLease(lease, pod, state.value);
        return;
      }
      var elapsed := at - ActivationAnchor(lease);
      if elapsed >= timeout {
        res, i := TransitionToFailed(lease, ActivationTimeout);
        return;
      }
      res := After(NextPoll(timeout - elapsed));
    }

    /** The wait of a Bound lease, once step i has written it so. */
    method BindLease(lease: Lease, pod: Pod, ghost seen: Machine) returns (res: Requeue, ghost i: nat)
      requires Valid() && pc == Worker.MarkHot(lease, pod, seen)
      modifies this
      ensures Valid() && pc.Idle? && Extends(old(trace), trace)
      ensures !res.AtOnce? && !res.Never? && Verdict(trace, |old(trace).labels|, i, lease, res)
      ensures res.After? ==> res.wait == BOUND_POLL_INTERVAL && CalledAt(trace, i, WriteBound(lease, seen), true)
    {
      i := |trace.labels|;
      var ok := MarkPodHot(lease, pod, seen);
      if !ok {
        return OnError, i;
      }
      i := |trace.labels|;
      var bound, _ := Update(BoundLease(lease, now));
      return if bound then After(BOUND_POLL_INTERVAL) else OnError, i;
    }

    /** The wait of a Bound lease, once step j has found its pod valid. */
    method ReconcileBound(lease: Lease) returns (res: Requeue, ghost j: nat)
      requires Valid() && pc == LookupPod(lease) && lease.phase == Bound
      modifies this
      ensures Valid() && pc.Idle? && Extends(old(trace), trace)
      ensures !res.AtOnce? && Verdict(trace, |old(trace).labels|, j, lease, res)
      ensures res.After? ==> res.wait == BOUND_POLL_INTERVAL && CalledAt(trace, j, LookupPod(lease), true)
      ensures res.After? ==> OrphanReason(GetPod(trace.states[j], lease.spec.claim.pod), lease, true).None?
    {
      j := |trace.labels|;
      var found, pod := GetClaimPod(lease);
      if !found {
        return OnError, j;
      }
      var orphan := OrphanReason(pod, lease, true);
      if orphan.Some? {
        res, j := TransitionToFailed(lease, orphan.value);
        return;
      }
      return After(BOUND_POLL_INTERVAL), j;
    }

    /** Done only once step j has recorded the failure; a failing call before that is retried. */
    method TransitionToFailed(lease: Lease, reason: Reason) returns (res: Requeue, ghost j: nat)
      requires Valid() && pc == DropWorkload(lease, ForFailure(reason))
      modifies this
      ensures Valid() && pc.Idle? && Extends(old(trace), trace)
      ensures (res == Never || res == OnError) && Verdict(trace, |old(trace).labels|, j, lease, res)
      ensures res == Never ==> CalledAt(trace, j, Finish(lease, ForFailure(reason)), true)
    {
      var cleaned;
      cleaned, j := CleanUp(lease, ForFailure(reason));
      if !cleaned {
        return OnError, j;
      }
      j := |trace.labels|;
      var ok, _ := Update(FailedLease(lease, now));
      return if ok then Never else OnError, j;
    }

    /** Done only once step j has removed the finalizer, if there was one; a failing call before that is retried. */
    method ReconcileDeletion(lease: Lease) returns (res: Requeue, ghost j: nat)
      requires Valid() && pc == Dispatch(lease) && lease.deleting
      modifies this
      ensures Valid() && pc.Idle? && Extends(old(trace), trace)
      ensures res == Never || res == OnError
      ensures (res == Never && !lease.finalizer) || Verdict(trace, |old(trace).labels|, j, lease, res)
    {
      j := |trace.labels|;
      if !lease.finalizer {
        return Never, j;
      }
      var l := lease;
      if l.phase != Releasing {
        var ok: bool;
        ok, l := Update(ReleasingLease(lease));
        if !ok {
          return OnError, j;
        }
      }
      res, j := FinishDeletion(l);
    }

    /** The part of reconcileDeletion that follows entering Releasing. */
    method FinishDeletion(l: Lease) returns (res: Requeue, ghost j: nat)
      requires Valid() && pc == DropWorkload(l, ForRelease)
      modifies this
      ensures Valid() && pc.Idle? && Extends(old(trace), trace)
      ensures (res == Never || res == OnError) && Verdict(trace, |old(trace).labels|, j, l, res)
      ensures res == Never ==> CalledAt(trace, j, Finish(l, ForRelease), true)
    {
      var cleaned;
      cleaned, j := CleanUp(l, ForRelease);
      if !cleaned {
        return OnError, j;
      }
      j := |trace.labels|;
      var ok, _ := Update(l.(finalizer := false));
      return if ok then Never else OnError, j;
    }

    /** The cleanup both exits share: the Workload must go before the pod is released. */
    method CleanUp(lease: Lease, ghost why: Why) returns (ok: bool, ghost j: nat)
      requires Valid() && pc == DropWorkload(lease, why)
      modifies this
      ensures Valid() && Extends(old(trace), trace) && j == |old(trace).labels|
      ensures if ok then pc == Finish(lease, why) else pc.Idle? && CalledAt(trace, j, DropWorkload(lease, why), false)
    {
      j := |trace.labels|;
      ok := DeleteWorkload(lease, why);
      if ok {
        ReleaseClaimPod(lease, why);
      }
    }

    /** Best effort: whatever happens to the pod, the caller goes on. */
    method ReleaseClaimPod(lease: Lease, ghost why: Why)
      requires Valid() && pc == LookupForRelease(lease, why)
      modifies this
      ensures Valid() && pc == Finish(lease, why) && Extends(old(trace), trace)
    {
      var ok, pod := GetPodForRelease(lease, why);
      if !ok || pod.None? || !ClaimMatches(lease.spec.claim, pod.value.uid) {
        return;
      }
      ReleaseFound(lease, pod.value, why);
    }

    /** The part of releaseClaimPod that follows finding the pod. */
    method ReleaseFound(lease: Lease, pod: Pod, ghost why: Why)
      requires Valid() && pc == if pod.hasIP then DeleteLease(lease, why, pod) else RevertPod(lease, why, pod)
      modifies this
      ensures Valid() && pc == Finish(lease, why) && Extends(old(trace), trace)
    {
      if pod.hasIP {
        Release(lease, pod, why);
      }
      RevertPodToWarm(lease, pod, why);
    }
  }
}
