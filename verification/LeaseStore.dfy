/**
 The leases as the warm pool sees them: existence alone reserves a GPU, whatever the phase
 and whether or not the lease is being deleted, and the name stands for the pair (node, id).
 */
module LeaseStore {
  import opened Names
  import Objects
  import opened Inventory
  import opened Pods

  /**
   What promotion, demotion and the inventory read of a lease. Pods and Deployments go by their
   namespaced names, and UID 0 stands for the empty UID.
   */
  datatype Claim = Claim(node: string, id: int, pod: string, uid: nat, deployment: string, finalizer: bool, deleting: bool)

  type Store = map<string, Claim>

  function UsedIn(store: Store, node: string): set<int> {
    set n | n in store && store[n].node == node :: store[n].id
  }

  /** The free ids of a node, as the inventory computes them. */
  function FreeIds(nodes: seq<Node>, store: Store, node: string): seq<int> {
    match Capacity(nodes, node)
    case Ok(count) => FreeBelow(count, UsedIn(store, node))
    case _ => []
  }

  /** The leases as the inventory lists them. */
  function SlotsOf(store: Store, names: seq<string>): seq<Slot>
    requires forall n :: n in names ==> n in store
  {
    seq(|names|, i requires 0 <= i < |names| => Slot(store[names[i]].node, store[names[i]].id))
  }

  lemma SlotsUsed(store: Store, names: seq<string>, node: string)
    requires forall n :: n in names <==> n in store
    ensures UsedOn(SlotsOf(store, names), node) == UsedIn(store, node)
  {
    var slots := SlotsOf(store, names);
    forall id | id in UsedIn(store, node) ensures id in UsedOn(slots, node) {
      var n :| n in store && store[n].node == node && store[n].id == id;
      var i :| 0 <= i < |names| && names[i] == n;
      assert slots[i] == Slot(node, id);
    }
  }

  predicate Named(store: Store, n: string) {
    n in store ==> n == LeaseName(store[n].node, store[n].id)
  }

  /** Leases bear the name of what they lease. */
  ghost predicate WellNamed(store: Store) {
    forall n :: Named(store, n)
  }

  /** An unused id's name is not taken: names do not collide. */
  lemma UnusedIsAbsent(store: Store, node: string, id: int)
    requires WellNamed(store) && id !in UsedIn(store, node)
    ensures LeaseName(node, id) !in store
  {
    var n := LeaseName(node, id);
    assert Named(store, n);
    if n in store {
      LeaseNameInjective(node, id, store[n].node, store[n].id);
    }
  }

  predicate Fits(nodes: seq<Node>, store: Store, n: string) {
    n in store ==>
      Capacity(nodes, store[n].node).Ok? && 0 <= store[n].id < Capacity(nodes, store[n].node).value
  }

  /** Every lease is for a GPU its node has. */
  ghost predicate InRange(nodes: seq<Node>, store: Store) {
    WellNamed(store) && forall n :: Fits(nodes, store, n)
  }

  ghost function LeasesOn(store: Store, node: string): set<string> {
    set n | n in store && store[n].node == node
  }

  ghost function IdsOf(names: set<string>, store: Store): set<int>
    requires names <= store.Keys
  {
    set n | n in names :: store[n].id
  }

  lemma {:induction false} DistinctIds(names: set<string>, store: Store, node: string)
    requires WellNamed(store) && names <= LeasesOn(store, node)
    ensures |IdsOf(names, store)| == |names|
  {
    if names == {} {
      assert IdsOf(names, store) == {};
    } else {
      var m :| m in names;
      DistinctIds(names - {m}, store, node);
      forall n | n in names - {m} ensures store[n].id != store[m].id {
        assert Named(store, m) && Named(store, n);
      }
      assert IdsOf(names, store) == IdsOf(names - {m}, store) + {store[m].id};
    }
  }

  /** A node never has more leases than GPUs, and no two of them share an id. */
  lemma AtMostCapacity(nodes: seq<Node>, store: Store, node: string)
    requires InRange(nodes, store) && Capacity(nodes, node).Ok?
    ensures |LeasesOn(store, node)| + |FreeIds(nodes, store, node)| == Capacity(nodes, node).value
    ensures forall m, n :: m in LeasesOn(store, node) && n in LeasesOn(store, node) && store[m].id == store[n].id ==> m == n
  {
    var count, used := Capacity(nodes, node).value, UsedIn(store, node);
    DistinctIds(LeasesOn(store, node), store, node);
    assert IdsOf(LeasesOn(store, node), store) == used;
    FreePlusUsed(count, used);
    forall n | n in LeasesOn(store, node) ensures 0 <= store[n].id < count && n == LeaseName(node, store[n].id) {
      assert Named(store, n) && Fits(nodes, store, n);
    }
    assert UsedBelow(count, used) == used;
  }

  /** A lease created under an absent name for a GPU the node has keeps every lease in range, so the bound above stands. */
  lemma CreateInRange(nodes: seq<Node>, store: Store, name: string, claim: Claim)
    requires InRange(nodes, store) && name == LeaseName(claim.node, claim.id) && name !in store
    requires Capacity(nodes, claim.node).Ok?
    ensures InRange(nodes, store[name := claim]) <==> 0 <= claim.id < Capacity(nodes, claim.node).value
  {
    var after := store[name := claim];
    NamedAfter(store, name, claim);
    forall n | n != name ensures Fits(nodes, after, n) {
      assert Fits(nodes, store, n);
    }
    assert Fits(nodes, after, name) <==> 0 <= claim.id < Capacity(nodes, claim.node).value;
  }

  lemma NamedAfter(store: Store, name: string, claim: Claim)
    requires WellNamed(store) && name == LeaseName(claim.node, claim.id)
    ensures WellNamed(store[name := claim])
  {
    var after := store[name := claim];
    forall n ensures Named(after, n) {
      assert Named(store, n);
    }
  }

  lemma FreeIsUnused(nodes: seq<Node>, store: Store, node: string, id: int)
    requires id in FreeIds(nodes, store, node)
    ensures Capacity(nodes, node).Ok? && 0 <= id < Capacity(nodes, node).value && id !in UsedIn(store, node)
  {
    FreeBelowComplete(Capacity(nodes, node).value, UsedIn(store, node), id);
  }

  /** What a lease taken on a free id does to the inventory. */
  lemma FreeAfter(nodes: seq<Node>, store: Store, pod: ListedPod, id: int, deployment: string)
    requires WellNamed(store) && Capacity(nodes, pod.node).Ok? && id in FreeIds(nodes, store, pod.node)
    ensures var after := store[LeaseName(pod.node, id) := ClaimOf(pod, id, deployment)];
      && WellNamed(after) && (InRange(nodes, store) ==> InRange(nodes, after))
      && |FreeIds(nodes, after, pod.node)| == |FreeIds(nodes, store, pod.node)| - 1
      && forall n :: n != pod.node ==> FreeIds(nodes, after, n) == FreeIds(nodes, store, n)
  {
    FreeIsUnused(nodes, store, pod.node, id);
    UnusedIsAbsent(store, pod.node, id);
    NamedAfter(store, LeaseName(pod.node, id), ClaimOf(pod, id, deployment));
    if InRange(nodes, store) { CreateInRange(nodes, store, LeaseName(pod.node, id), ClaimOf(pod, id, deployment)); }
    UsedAfter(store, LeaseName(pod.node, id), ClaimOf(pod, id, deployment));
    LeasingOne(Capacity(nodes, pod.node).value, UsedIn(store, pod.node), id);
  }

  lemma UsedAfter(store: Store, name: string, claim: Claim)
    requires name !in store
    ensures forall n :: UsedIn(store[name := claim], n) ==
                        if n == claim.node then UsedIn(store, n) + {claim.id} else UsedIn(store, n)
  {
    forall n ensures UsedIn(store[name := claim], n) ==
                     if n == claim.node then UsedIn(store, n) + {claim.id} else UsedIn(store, n)
    {
      forall id | id in UsedIn(store, n) ensures id in UsedIn(store[name := claim], n) {
        var m :| m in store && store[m].node == n && store[m].id == id;
        assert store[name := claim][m] == store[m];
      }
      if n == claim.node { assert store[name := claim][name] == claim; }
    }
  }

  /** The lease a promotion creates. */
  function ClaimOf(pod: ListedPod, id: int, deployment: string): Claim {
    Claim(pod.node, id, pod.name, pod.uid, deployment, true, false)
  }

  /** A lease of the Deployment that names the pod, and its incarnation if it names any. */
  predicate ClaimsListed(c: Claim, pod: ListedPod, deployment: string) {
    c.deployment == deployment && c.pod == pod.name && Objects.UidMatches(c.uid, pod.uid)
  }

  /** Deleting a lease marks it while a finalizer holds it, and removes it otherwise. */
  function Deleted(store: Store, gone: set<string>): Store {
    map n | n in store && (n in gone ==> store[n].finalizer) ::
      if n in gone then store[n].(deleting := true) else store[n]
  }

  lemma DeletedOneMore(store: Store, gone: set<string>, n: string)
    ensures Deleted(Deleted(store, gone), {n}) == Deleted(store, gone + {n})
  {
  }

  /** A deleted lease keeps its GPU until the finalizer goes. */
  lemma DeletedKeepsIds(store: Store, gone: set<string>, node: string)
    requires forall n :: n in gone && n in store ==> store[n].finalizer
    ensures UsedIn(Deleted(store, gone), node) == UsedIn(store, node)
  {
    var after := Deleted(store, gone);
    forall id | id in UsedIn(store, node) ensures id in UsedIn(after, node) {
      var n :| n in store && store[n].node == node && store[n].id == id;
      assert after[n].node == node && after[n].id == id;
    }
  }
}
