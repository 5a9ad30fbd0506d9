/**
 A lease is for the node of the pod it claims: a pod's node never changes, a UID is never used
 again, and the pool copies the node of the pod it has read.
 */
module Placement {
  import opened Objects
  import opened Protocol
  import opened Safety
  import opened History
  import Exclusivity
  import Occupancy

  /** If the claimed pod is there, in the incarnation meant, it is on the node of the claim. */
  predicate On(pods: map<PodKey, Pod>, claim: ClaimRef, node: string) {
    claim.pod in pods && pods[claim.pod].uid == claim.uid ==> pods[claim.pod].node == node
  }

  ghost predicate LeasesPlaced(leases: map<string, Lease>, pods: map<PodKey, Pod>) {
    forall n :: n in leases ==> On(pods, leases[n].spec.claim, leases[n].spec.node)
  }

  predicate PoolPlaced(s: Sys) {
    s.pool.PoolCreate? ==> On(s.pods, ClaimRef(s.pool.key, s.pool.pod.uid), s.pool.pod.node)
  }

  ghost predicate Placed(s: Sys) {
    LeasesPlaced(s.leases, s.pods) && PoolPlaced(s)
  }

  /** Pods stay where they are; a new one has a new UID. */
  ghost predicate StayPut(before: map<PodKey, Pod>, after: map<PodKey, Pod>, rev: nat) {
    forall k :: k in after ==>
      (k in before && after[k].uid == before[k].uid && after[k].node == before[k].node) || after[k].uid > rev
  }

  lemma PostStaysPut(s: Sys, l: Lease, uid: nat, r: Reply)
    ensures StayPut(s.pods, StepPostLease(s, l, uid, r).pods, s.rev)
  {
  }

  lemma NextStaysPut(s: Sys, l: Label)
    requires Inv(s) && Enabled(s, l)
    ensures StayPut(s.pods, Next(s, l).pods, s.rev)
  {
    match l {
      case Work(start, r) =>
        if s.worker.PostLease? { PostStaysPut(s, s.worker.l, s.worker.uid, r); } else { Exclusivity.WorkerCalm(s, start, r); }
      case PoolStep(c, r) => Exclusivity.PoolCalm(s, c, r);
      case Env(e) => Exclusivity.EnvCalm(s, e);
    }
  }

  /** A claim made in the past stays on its node. */
  lemma StaysOn(before: map<PodKey, Pod>, after: map<PodKey, Pod>, rev: nat, claim: ClaimRef, node: string)
    requires StayPut(before, after, rev) && On(before, claim, node) && claim.uid <= rev
    ensures On(after, claim, node)
  {
  }

  lemma PoolStaysPlaced(s: Sys, l: Label)
    requires Inv(s) && Enabled(s, l) && Placed(s) && StayPut(s.pods, Next(s, l).pods, s.rev)
    ensures PoolPlaced(Next(s, l))
  {
    if s.pool.PoolCreate? {
      StaysOn(s.pods, Next(s, l).pods, s.rev, ClaimRef(s.pool.key, s.pool.pod.uid), s.pool.pod.node);
    }
    match l {
      case Work(start, r) => WorkerSound(s, start, r);
      case Env(e) => EnvSound(s, e);
      case PoolStep(c, r) => PoolCalls(s, c, r);
    }
  }

  /** Where the pool's candidate comes from. */
  lemma PoolCalls(s: Sys, c: PoolCall, r: Reply)
    requires PoolEnabled(s, c)
    ensures var t := PoolNext(s, c, r);
      !t.pool.PoolCreate? || t.pool == s.pool || (t.pods == s.pods && t.pool.key in s.pods && t.pool.pod == s.pods[t.pool.key])
  {
    match c
    case BeginPromote(key) =>
    case CreateLease(_, _, _, _) =>
    case _ =>
  }

  lemma LeasesStayPlaced(s: Sys, l: Label)
    requires Inv(s) && Enabled(s, l) && Placed(s) && StayPut(s.pods, Next(s, l).pods, s.rev)
    ensures LeasesPlaced(Next(s, l).leases, Next(s, l).pods)
  {
    var t := Next(s, l);
    NextHistory(s, l);
    forall n | n in t.leases ensures On(t.pods, t.leases[n].spec.claim, t.leases[n].spec.node) {
      if n in s.leases {
        assert LeaseOk(s.rev, n, s.leases[n]);
        StaysOn(s.pods, t.pods, s.rev, s.leases[n].spec.claim, s.leases[n].spec.node);
      } else {
        match l
        case Work(start, r) => Occupancy.WorkerAddsNone(s, start, r);
        case Env(e) => Occupancy.EnvAddsNone(s, e);
        case PoolStep(c, r) =>
          Occupancy.PoolAdds(s, c, r, n);
          StaysOn(s.pods, t.pods, s.rev, ClaimRef(s.pool.key, s.pool.pod.uid), s.pool.pod.node);
      }
    }
  }

  lemma {:induction false} RunPlaced(run: Run, i: nat)
    requires IsRun(run) && i < |run.states|
    ensures Placed(run.states[i])
  {
    if i > 0 {
      RunPlaced(run, i - 1);
      RunInv(run, i - 1);
      assert StepAt(run, i - 1);
      NextStaysPut(run.states[i - 1], run.labels[i - 1]);
      PoolStaysPlaced(run.states[i - 1], run.labels[i - 1]);
      LeasesStayPlaced(run.states[i - 1], run.labels[i - 1]);
    }
  }

  /** In every state of every run, a lease whose claimed pod is there is for that pod's node. */
  lemma ClaimedOnItsNode(run: Run, i: nat, n: string)
    requires IsRun(run) && i < |run.states| && n in run.states[i].leases
    ensures On(run.states[i].pods, run.states[i].leases[n].spec.claim, run.states[i].leases[n].spec.node)
  {
    RunPlaced(run, i);
  }
}
