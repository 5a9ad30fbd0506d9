/**
 How many leases a node can have. Over every run of the protocol in which the pool creates leases
 only for ids its nodes have, which is what allocation guarantees, the leases of a node and its
 free ids together number exactly its capacity, whatever the other actors do.
 */
module Occupancy {
  import opened Objects
  import opened Protocol
  import opened Safety
  import opened History
  import Inventory
  import LeaseStore

  function Joined(k: PodKey): string {
    k.namespace + "/" + k.name
  }

  /** A lease as the warm pool sees it. */
  function AsClaim(l: Lease): LeaseStore.Claim {
    LeaseStore.Claim(l.spec.node, l.spec.gpu, Joined(l.spec.claim.pod), l.spec.claim.uid, Joined(l.spec.deployment), l.finalizer, l.deleting)
  }

  function AsStore(leases: map<string, Lease>): LeaseStore.Store {
    map n | n in leases :: AsClaim(leases[n])
  }

  /** A created lease is for an id its node has. */
  predicate Allocates(nodes: seq<Inventory.Node>, s: Sys, l: Label) {
    l.PoolStep? && l.c.CreateLease? && s.pool.PoolCreate? ==>
      var capacity := Inventory.Capacity(nodes, s.pool.pod.node);
      capacity.Ok? && l.c.id < capacity.value
  }

  predicate Fits(nodes: seq<Inventory.Node>, l: Lease) {
    var capacity := Inventory.Capacity(nodes, l.spec.node);
    capacity.Ok? && l.spec.gpu < capacity.value
  }

  /** The lease reconciler creates no lease. */
  lemma WorkerAddsNone(s: Sys, start: string, r: Reply)
    requires StoreOk(s) && WorkerOk(s)
    ensures WorkerNext(s, start, r).leases.Keys <= s.leases.Keys
  {
    if Writes(s.worker) { WriteShape(s, start, r); }
    else if !s.worker.CreateWorkload? { QuietCall(s, start, r); }
  }

  lemma EnvAddsNone(s: Sys, e: Event)
    requires PodsOk(s.pods, s.rev) && EnvEnabled(s, e)
    ensures EnvNext(s, e).leases.Keys <= s.leases.Keys
  {
    if !e.OperatorDelete? { EnvQuiet(s, e); }
  }

  lemma PoolAdds(s: Sys, c: PoolCall, r: Reply, n: string)
    requires StoreOk(s) && PoolOk(s) && PoolEnabled(s, c) && n in PoolNext(s, c, r).leases && n !in s.leases
    ensures c.CreateLease?
    ensures var spec := PoolNext(s, c, r).leases[n].spec;
      && spec.node == s.pool.pod.node && spec.gpu == c.id && spec.claim == ClaimRef(s.pool.key, s.pool.pod.uid)
      && spec.model == c.model && spec.deployment == c.deployment && spec.queue == c.queue
    ensures var l := PoolNext(s, c, r).leases[n];
      && l.name == n && l.created == MetaTime(s.now) && l.finalizer && !l.deleting && l.phase == Pending && l.workloadName == ""
      && l.quotaReserved.Absent? && l.podActivated.Absent? && l.ready.Absent?
  {
    if !c.CreateLease? && !c.StripFinalizer? && !c.DeleteObject? { PoolQuiet(s, c, r); }
  }

  lemma NextFits(nodes: seq<Inventory.Node>, s: Sys, l: Label)
    requires Inv(s) && Enabled(s, l) && Allocates(nodes, s, l)
    requires forall n :: n in s.leases ==> Fits(nodes, s.leases[n])
    ensures forall n :: n in Next(s, l).leases ==> Fits(nodes, Next(s, l).leases[n])
  {
    NextHistory(s, l);
    forall n | n in Next(s, l).leases ensures Fits(nodes, Next(s, l).leases[n]) {
      if n !in s.leases {
        match l
        case Work(start, r) => WorkerAddsNone(s, start, r);
        case PoolStep(c, r) => PoolAdds(s, c, r, n);
        case Env(e) => EnvAddsNone(s, e);
      }
    }
  }

  ghost predicate AllocatingRun(run: Run, nodes: seq<Inventory.Node>)
    requires IsRun(run)
  {
    forall i :: 0 <= i < |run.labels| ==> Allocates(nodes, run.states[i], run.labels[i])
  }

  lemma {:induction false} RunFits(run: Run, nodes: seq<Inventory.Node>, i: nat)
    requires IsRun(run) && AllocatingRun(run, nodes) && i < |run.states|
    ensures forall n :: n in run.states[i].leases ==> Fits(nodes, run.states[i].leases[n])
  {
    if i > 0 {
      RunFits(run, nodes, i - 1);
      RunInv(run, i - 1);
      assert StepAt(run, i - 1);
      NextFits(nodes, run.states[i - 1], run.labels[i - 1]);
    }
  }

  lemma RunInRange(run: Run, nodes: seq<Inventory.Node>, i: nat)
    requires IsRun(run) && AllocatingRun(run, nodes) && i < |run.states|
    ensures LeaseStore.InRange(nodes, AsStore(run.states[i].leases))
  {
    RunFits(run, nodes, i);
    var leases := run.states[i].leases;
    forall n ensures LeaseStore.Named(AsStore(leases), n) && LeaseStore.Fits(nodes, AsStore(leases), n) {
      if n in leases { NamedAfterGPU(run, i, n); }
    }
  }

  /** In every state of every such run: leases and free ids of a node add up to what it has, and no two leases share an id. */
  lemma LeasesWithinCapacity(run: Run, nodes: seq<Inventory.Node>, i: nat, node: string)
    requires IsRun(run) && AllocatingRun(run, nodes) && i < |run.states|
    ensures var store, capacity := AsStore(run.states[i].leases), Inventory.Capacity(nodes, node);
      if capacity.Ok? then |LeaseStore.LeasesOn(store, node)| + |LeaseStore.FreeIds(nodes, store, node)| == capacity.value
      else LeaseStore.LeasesOn(store, node) == {}
    ensures var leases := run.states[i].leases;
      forall m, n :: m in leases && n in leases && leases[m].spec.node == leases[n].spec.node && leases[m].spec.gpu == leases[n].spec.gpu ==> m == n
  {
    RunInRange(run, nodes, i);
    var leases := run.states[i].leases;
    if Inventory.Capacity(nodes, node).Ok? {
      LeaseStore.AtMostCapacity(nodes, AsStore(leases), node);
    } else {
      forall n | n in leases ensures leases[n].spec.node != node {
        assert LeaseStore.Fits(nodes, AsStore(leases), n);
      }
    }
    forall m, n | m in leases && n in leases && leases[m].spec.node == leases[n].spec.node && leases[m].spec.gpu == leases[n].spec.gpu
      ensures m == n
    {
      NamedAfterGPU(run, i, m);
      NamedAfterGPU(run, i, n);
    }
  }
}
