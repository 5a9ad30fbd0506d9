/**
 The WarmPool reconciler: allocation of a GPU id by creating the lease that bears its name,
 promotion, demotion, and the control loop around them. Other actors may rewrite the lease
 store before any call, and any call may fail, or take effect and have its answer lost; what
 is promised in a quiet cluster is stated for a quiet cluster.
 */
module WarmPool {
  import opened Bounds
  import opened Calls
  import opened Options
  import opened Names
  import opened Durations
  import opened Inventory
  import opened LeaseStore
  import opened Pods
  import opened Greedy

  /** One Create of a lease: the store it met, whether it was answered, and whether it went in. */
  datatype Attempt = Attempt(id: int, before: Store, ok: bool, created: bool)

  /** A Create per free id, in order, that went in only when the id's name was absent at that instant, and then for sure if answered. */
  ghost predicate Tried(tries: seq<Attempt>, free: seq<int>, node: string) {
    && |tries| <= |free|
    && forall i :: 0 <= i < |tries| ==>
         && tries[i].id == free[i]
         && (tries[i].created ==> LeaseName(node, tries[i].id) !in tries[i].before)
         && (tries[i].ok && !tries[i].created ==> LeaseName(node, tries[i].id) in tries[i].before)
  }

  /** Every try was answered, and refused. */
  ghost predicate AllRefused(tries: seq<Attempt>) {
    forall i :: 0 <= i < |tries| ==> tries[i].ok && !tries[i].created
  }

  /** Every try but the last was refused; the last one tells the outcome. */
  ghost predicate RefusedUpTo(tries: seq<Attempt>, r: Acquisition) {
    if tries == [] then !r.Acquired?
    else
      var front, last := tries[..|tries| - 1], tries[|tries| - 1];
      AllRefused(front) && (r.CallFailed? <==> !last.ok) && (last.ok ==> (r.Acquired? <==> last.created))
  }

  datatype Acquisition = Acquired(id: int) | NoFreeID | CallFailed

  ghost predicate DistinctPods(pods: seq<ListedPod>) {
    forall i, j :: 0 <= i < j < |pods| ==> pods[i].name != pods[j].name
  }

  lemma {:induction false} EligibleDistinct(pods: seq<ListedPod>, free: map<string, nat>)
    requires DistinctPods(pods)
    ensures DistinctPods(Eligible(pods, free))
  {
    if pods != [] {
      var front, last := pods[..|pods| - 1], pods[|pods| - 1];
      EligibleDistinct(front, free);
      assert forall q :: q in Eligible(front, free) ==> q in front && q.name != last.name;
    }
  }

  lemma CandidatesFit(candidates: seq<ListedPod>, warm: seq<ListedPod>, free: map<string, nat>, p: seq<nat>)
    requires DistinctPods(warm) && Rearranged(candidates, Eligible(warm, free), p)
    ensures DistinctPods(candidates)
    ensures forall k :: 0 <= k < |candidates| ==> candidates[k] in warm && FreeOn(free, candidates[k].node) > 0
  {
    EligibleDistinct(warm, free);
    forall k | 0 <= k < |candidates| ensures candidates[k] in Eligible(warm, free) {
      assert candidates[k] == Eligible(warm, free)[p[k]];
    }
  }

  /** A warm pod is a candidate, or its node had nothing to give in the first place. */
  lemma LeftBehind(warm: seq<ListedPod>, free: map<string, nat>, candidates: seq<ListedPod>, p: seq<nat>)
    requires Rearranged(candidates, Eligible(warm, free), p)
    ensures forall q :: q in warm ==> q in candidates || FreeOn(free, q.node) == 0
  {
    forall q | q in warm && FreeOn(free, q.node) > 0 ensures q in candidates {
      assert q in Eligible(warm, free);
      var v :| 0 <= v < |Eligible(warm, free)| && Eligible(warm, free)[v] == q;
      var i := Onto(p, |p|, v);
      assert candidates[i] == q;
    }
  }

  /** The pods among `us` that count as hot capacity. */
  ghost function HeldNames(us: set<string>, states: map<string, State>): set<string> {
    set n | n in us && n in states && Held(states[n])
  }

  lemma HoldsOneMore(us: set<string>, states: map<string, State>, n: string)
    requires n in us && n in states && states[n] == Warm
    ensures |HeldNames(us, states[n := Activating])| == |HeldNames(us, states)| + 1
  {
    assert HeldNames(us, states[n := Activating]) == HeldNames(us, states) + {n};
  }

  lemma HoldsOneLess(us: set<string>, states: map<string, State>, n: string)
    requires n in us && n in states && states[n] == Hot
    ensures |HeldNames(us, states[n := Releasing])| == |HeldNames(us, states)| - 1
  {
    assert HeldNames(us, states) == HeldNames(us, states[n := Releasing]) + {n};
  }

  /** A lease of the store that claims the pod, if there is any. */
  ghost predicate FoundFor(pod: ListedPod, found: Option<string>, store: Store, deployment: string) {
    match found
    case Some(n) => n in store && PointsAt(store[n], pod, deployment)
    case None => forall n :: n in store ==> !PointsAt(store[n], pod, deployment)
  }

  /** A lease of the Deployment that names the pod, in this incarnation or in none in particular. */
  predicate PointsAt(c: Claim, pod: ListedPod, deployment: string) {
    c.deployment == deployment && c.pod == pod.name && (c.uid == pod.uid || c.uid == 0)
  }

  /** A lease for the pod: on its node, claiming it in this incarnation, of the Deployment, with the finalizer and not being deleted. */
  predicate IsFor(c: Claim, pod: ListedPod, deployment: string) {
    && c.node == pod.node && c.pod == pod.name && c.uid == pod.uid && c.deployment == deployment
    && c.finalizer && !c.deleting
  }

  /** The only lease that points at a pod is the one found for it, and deleting it marks it and touches no other. */
  lemma FindsItsLease(store: Store, pod: ListedPod, n: string, found: Option<string>, deployment: string)
    requires n in store && IsFor(store[n], pod, deployment)
    requires forall m :: m in store && m != n ==> !PointsAt(store[m], pod, deployment)
    requires FoundFor(pod, found, store, deployment)
    ensures found == Some(n) && Deleted(store, {n}) == store[n := store[n].(deleting := true)]
  {
    assert PointsAt(store[n], pod, deployment);
  }

  ghost function NamesOf(found: seq<Option<string>>): set<string> {
    set k | 0 <= k < |found| && found[k].Some? :: found[k].value
  }

  lemma NamesOfOneMore(found: seq<Option<string>>, f: Option<string>)
    ensures NamesOf(found + [f]) == NamesOf(found) + if f.Some? then {f.value} else {}
  {
    var more := found + [f];
    forall n | n in NamesOf(found) ensures n in NamesOf(more) {
      var k :| 0 <= k < |found| && found[k].Some? && found[k].value == n;
      assert more[k] == found[k];
    }
    assert more[|found|] == f;
  }

  lemma {:induction false} FewNames(found: seq<Option<string>>)
    ensures |NamesOf(found)| <= |found|
  {
    if found != [] {
      var front, last := found[..|found| - 1], found[|found| - 1];
      FewNames(front);
      assert found == front + [last];
      NamesOfOneMore(front, last);
    }
  }

  lemma DeletedNone(store: Store, gone: set<string>)
    requires |gone| == 0
    ensures Deleted(store, gone) == store
  {
  }

  lemma DistinctRearranged(out: seq<ListedPod>, pods: seq<ListedPod>, p: seq<nat>)
    requires DistinctPods(pods) && Rearranged(out, pods, p)
    ensures DistinctPods(out) && forall k :: 0 <= k < |out| ==> out[k] in pods
  {
    forall i, j | 0 <= i < j < |out| ensures out[i].name != out[j].name {
      assert p[i] != p[j];
    }
  }

  ghost function NodeNames(nodes: seq<Node>): seq<string> {
    seq(|nodes|, i requires 0 <= i < |nodes| => nodes[i].name)
  }

  lemma HasCapacity(nodes: seq<Node>, name: string)
    requires Capacity(nodes, name).Ok?
    ensures name in NodeNames(nodes)
  {
    if forall i :: 0 <= i < |nodes| ==> nodes[i].name != name { NoCapacity(nodes, name); }
    var i :| 0 <= i < |nodes| && nodes[i].name == name;
    assert NodeNames(nodes)[i] == name;
  }

  /** A promotion pass: the pods it counts, its candidates, the free counts it ranked nodes by, the labels and the store it began with. */
  datatype Pass = Pass(us: set<string>, names: set<string>, free: map<string, nat>, before: map<string, State>, store: Store)

  /** A new lease claims the pod. */
  ghost predicate HasLease(before: Store, after: Store, pod: ListedPod, deployment: string) {
    exists n :: n in after && n !in before && IsFor(after[n], pod, deployment) && n == LeaseName(pod.node, after[n].id)
  }

  /** What a pass has come to: how many pods it promoted, the labels and the leases. */
  datatype World = World(promoted: nat, states: map<string, State>, store: Store)

  predicate Unchanged(before: Store, after: Store, n: string) {
    n in before ==> n in after && after[n] == before[n]
  }

  /** The store has every lease it had, as it was, and `count` new ones. */
  ghost predicate Grown(before: Store, after: Store, count: int) {
    |after| == |before| + count && forall n :: Unchanged(before, after, n)
  }

  /** Each of `done` that has become Activating has a lease of its own. */
  ghost predicate Granted(before: Store, after: Store, done: seq<ListedPod>, states: map<string, State>, deployment: string) {
    forall k {:trigger HasLease(before, after, done[k], deployment)} ::
      0 <= k < |done| && done[k].name in states && states[done[k].name] == Activating ==> HasLease(before, after, done[k], deployment)
  }

  lemma GrantOne(before: Store, store: Store, done: seq<ListedPod>, states: map<string, State>, deployment: string,
                 pod: ListedPod, id: int, name: string)
    requires Grown(before, store, |store| - |before|) && Granted(before, store, done, states, deployment) && name !in store
    requires NoneNamed(done, pod.name) && name == LeaseName(pod.node, id)
    ensures var after := store[name := ClaimOf(pod, id, deployment)];
      Grown(before, after, |store| - |before| + 1)
      && Granted(before, after, done + [pod], states[pod.name := Activating], deployment)
  {
    var after, more, labels := store[name := ClaimOf(pod, id, deployment)], done + [pod], states[pod.name := Activating];
    assert after.Keys == store.Keys + {name};
    forall n ensures Unchanged(before, after, n) {
      assert Unchanged(before, store, n);
    }
    forall k | 0 <= k < |more| && more[k].name in labels && labels[more[k].name] == Activating
      ensures HasLease(before, after, more[k], deployment)
    {
      if k < |done| {
        assert HasLease(before, store, done[k], deployment);
        var n :| n in store && n !in before && IsFor(store[n], done[k], deployment) && n == LeaseName(done[k].node, store[n].id);
        assert after[n] == store[n];
      } else {
        assert Unchanged(before, store, name);
        assert IsFor(after[name], pod, deployment) && name == LeaseName(pod.node, after[name].id);
      }
    }
  }

  /** The pods from position i on have this label. */
  ghost predicate AllFrom(pods: seq<ListedPod>, i: nat, state: State, states: map<string, State>) {
    forall k :: i <= k < |pods| ==> pods[k].name in states && states[pods[k].name] == state
  }

  ghost predicate AllKnown(pods: seq<ListedPod>, states: map<string, State>) {
    forall k :: 0 <= k < |pods| ==> pods[k].name in states
  }

  ghost predicate AllIn(pods: seq<ListedPod>, us: set<string>) {
    forall k :: 0 <= k < |pods| ==> pods[k].name in us
  }

  ghost predicate NoneNamed(pods: seq<ListedPod>, name: string) {
    forall k {:trigger pods[k].name} :: 0 <= k < |pods| ==> pods[k].name != name
  }

  lemma PrefixGrows(pods: seq<ListedPod>, n: nat)
    requires DistinctPods(pods) && n < |pods|
    ensures pods[..n + 1] == pods[..n] + [pods[n]] && NoneNamed(pods[..n], pods[n].name)
  {
  }

  lemma AllButFirst(pods: seq<ListedPod>, i: nat, state: State, next: State, states: map<string, State>)
    requires DistinctPods(pods) && i < |pods| && AllFrom(pods, i, state, states)
    ensures AllFrom(pods, i + 1, state, states[pods[i].name := next])
  {
    forall k | i < k < |pods| ensures pods[i].name != pods[k].name {
    }
  }

  // Classifying pods.

  datatype Settings = Settings(warm: nat, minHot: nat)

  const BLOCKED_REQUEUE: nat := 30 * SECOND
  const DEFAULT_RESYNC: nat := 15 * SECOND

  function ConsideredOf(pods: seq<ListedPod>): (out: seq<ListedPod>)
    ensures forall q :: q in out <==> q in pods && Counted(q)
  {
    if pods == [] then []
    else
      var front, last := pods[..|pods| - 1], pods[|pods| - 1];
      assert forall q :: q in pods <==> q in front || q == last;
      ConsideredOf(front) + if Counted(last) then [last] else []
  }

  lemma {:induction false} ConsideredDistinct(pods: seq<ListedPod>)
    requires DistinctPods(pods)
    ensures DistinctPods(ConsideredOf(pods))
  {
    if pods != [] {
      var front, last := pods[..|pods| - 1], pods[|pods| - 1];
      ConsideredDistinct(front);
      assert forall q :: q in ConsideredOf(front) ==> q in front && q.name != last.name;
    }
  }

  /** The pods with this label, in order. */
  function Labelled(pods: seq<ListedPod>, state: State, states: map<string, State>): seq<ListedPod> {
    if pods == [] then []
    else
      var front, last := pods[..|pods| - 1], pods[|pods| - 1];
      Labelled(front, state, states) + if last.name in states && states[last.name] == state then [last] else []
  }

  lemma {:induction false} LabelledFits(pods: seq<ListedPod>, state: State, states: map<string, State>)
    requires DistinctPods(pods)
    ensures var out := Labelled(pods, state, states);
      DistinctPods(out) && AllFrom(out, 0, state, states) && AllIn(out, PodNames(pods))
  {
    if pods != [] {
      var front, last := pods[..|pods| - 1], pods[|pods| - 1];
      LabelledFits(front, state, states);
      assert PodNames(front) <= PodNames(pods) && last.name in PodNames(pods) && last.name !in PodNames(front);
    }
  }

  lemma {:induction false} LabelledIff(pods: seq<ListedPod>, state: State, states: map<string, State>)
    ensures forall q :: q in Labelled(pods, state, states) <==> q in pods && q.name in states && states[q.name] == state
  {
    if pods != [] {
      var front, last := pods[..|pods| - 1], pods[|pods| - 1];
      LabelledIff(front, state, states);
      assert forall q :: q in pods <==> q in front || q == last;
    }
  }

  lemma LabelledStep(pods: seq<ListedPod>, i: nat, state: State, states: map<string, State>)
    requires i < |pods| && pods[i].name in states
    ensures Labelled(pods[..i + 1], state, states) ==
            if states[pods[i].name] == state then Labelled(pods[..i], state, states) + [pods[i]] else Labelled(pods[..i], state, states)
  {
    assert pods[..i + 1][..i] == pods[..i];
  }

  ghost function PodNames(pods: seq<ListedPod>): set<string> {
    set k | 0 <= k < |pods| :: pods[k].name
  }

  lemma OneMoreName(pods: seq<ListedPod>, i: nat, states: map<string, State>)
    requires DistinctPods(pods) && i < |pods| && pods[i].name in states
    ensures |HeldNames(PodNames(pods[..i + 1]), states)| ==
            |HeldNames(PodNames(pods[..i]), states)| + if Held(states[pods[i].name]) then 1 else 0
  {
    var n := pods[i].name;
    assert n !in PodNames(pods[..i]);
    assert PodNames(pods[..i + 1]) == PodNames(pods[..i]) + {n} by {
      assert pods[..i + 1] == pods[..i] + [pods[i]];
    }
    var more, less := HeldNames(PodNames(pods[..i + 1]), states), HeldNames(PodNames(pods[..i]), states);
    assert more == if Held(states[n]) then less + {n} else less;
  }

  /** Pods born without a label have become warm; the other labels are as they were. */
  ghost predicate Initialised(pods: seq<ListedPod>, before: map<string, State>, after: map<string, State>) {
    && after.Keys == before.Keys + PodNames(pods)
    && forall n :: n in after ==> after[n] == if n in before then before[n] else Warm
  }

  lemma InitialiseOne(pods: seq<ListedPod>, i: nat, before: map<string, State>, now: map<string, State>)
    requires i < |pods| && Initialised(pods[..i], before, now)
    ensures Initialised(pods[..i + 1], before, if pods[i].name in now then now else now[pods[i].name := Warm])
  {
    assert PodNames(pods[..i + 1]) == PodNames(pods[..i]) + {pods[i].name} by {
      assert pods[..i + 1] == pods[..i] + [pods[i]];
    }
  }

  class Cluster {
    const deployment: string
    const nodes: seq<Node>
    const resync: int
    const meddle: (nat, Store) -> Store    // what others do to the store before call k
    const fate: nat -> Ending              // how call k ends
    var calls: nat
    var leases: Store
    var states: map<string, State>         // the state label of each pod of the Deployment
    ghost var attempts: seq<Attempt>

    /** No other writer, no failing call. */
    ghost predicate Quiet() {
      (forall k, s :: meddle(k, s) == s) && forall k :: fate(k).Answered?
    }

    constructor (deployment: string, nodes: seq<Node>, resync: int, meddle: (nat, Store) -> Store, fate: nat -> Ending,
                 leases: Store, states: map<string, State>)
      ensures this.deployment == deployment && this.nodes == nodes && this.resync == resync && this.meddle == meddle && this.fate == fate
      ensures this.leases == leases && this.states == states && attempts == []
    {
      this.deployment, this.nodes, this.resync, this.meddle, this.fate := deployment, nodes, resync, meddle, fate;
      this.leases, this.states, calls, attempts := leases, states, 0, [];
    }

    // Calls.

    method Call() returns (ok: bool)
      modifies `calls, `leases
      ensures leases == meddle(old(calls), old(leases)) && calls == old(calls) + 1 && ok == fate(old(calls)).Answered?
      ensures Quiet() ==> ok && leases == old(leases)
    {
      leases := meddle(calls, leases);
      ok := fate(calls).Answered?;
      calls := calls + 1;
    }

    /** The leases, in no particular order. */
    method List() returns (ok: bool, names: seq<string>)
      modifies `calls, `leases
      ensures leases == meddle(old(calls), old(leases)) && calls == old(calls) + 1 && ok == fate(old(calls)).Answered?
      ensures Quiet() ==> ok && leases == old(leases)
      ensures forall n :: n in names <==> n in leases
    {
      ok := Call();
      names := [];
      var rest := leases.Keys;
      while rest != {}
        invariant forall n :: n in leases <==> n in rest || n in names
        decreases |rest|
      {
        var n :| n in rest;
        names, rest := names + [n], rest - {n};
      }
    }

    method FreeGPUIDs(node: string) returns (free: Option<seq<int>>)
      modifies `calls, `leases
      ensures leases == meddle(old(calls), old(leases)) && calls == old(calls) + 1
      ensures Quiet() ==> leases == old(leases)
      ensures free.None? ==> !Capacity(nodes, node).Ok? || !fate(old(calls)).Answered?
      ensures free.Some? ==> Capacity(nodes, node).Ok? && free.value == FreeIds(nodes, leases, node)
    {
      var ok, names := List();
      if !ok {
        return None;
      }
      var slots := SlotsOf(leases, names);
      SlotsUsed(leases, names, node);
      var inventory := new Client(nodes, slots);
      var ids := inventory.FreeGPUIDs(node);
      return if ids.Ok? then Some(ids.value) else None;
    }

    /** Create: refused, without effect, when the name is taken. */
    method CreateLease(id: int, claim: Claim) returns (ok: bool, created: bool, ghost try: Attempt)
      modifies `calls, `leases, `attempts
      ensures calls == old(calls) + 1 && ok == try.ok == fate(old(calls)).Answered? && (ok ==> created == try.created)
      ensures try.id == id && try.before == meddle(old(calls), old(leases)) && attempts == old(attempts) + [try]
      ensures try.created <==> fate(old(calls)).Effective() && LeaseName(claim.node, id) !in try.before
      ensures leases == if try.created then try.before[LeaseName(claim.node, id) := claim] else try.before
    {
      var k := calls;
      ok := Call();
      var n := LeaseName(claim.node, id);
      created := fate(k).Effective() && n !in leases;
      try := Attempt(id, leases, ok, created);
      attempts := attempts + [try];
      if created {
        leases := leases[n := claim];
      }
    }

    /** The tries met the store that the others left: the first one at call k, each refused one leaving it alone. */
    ghost predicate Met(tries: seq<Attempt>, k: nat, store: Store) {
      && (tries != [] ==> tries[0].before == meddle(k, store))
      && forall i :: 0 <= i < |tries| - 1 ==> Follows(tries, k, i)
    }

    ghost predicate Follows(tries: seq<Attempt>, k: nat, i: nat)
      requires i < |tries| - 1
    {
      tries[i + 1].before == meddle(k + i + 1, tries[i].before)
    }

    /** The store the next try meets, others aside. */
    ghost function LeftBy(tries: seq<Attempt>, store: Store): Store {
      if tries == [] then store else tries[|tries| - 1].before
    }

    lemma MetOneMore(tries: seq<Attempt>, k: nat, store: Store, next: Attempt)
      requires Met(tries, k, store) && next.before == meddle(k + |tries|, LeftBy(tries, store))
      ensures Met(tries + [next], k, store)
    {
      var more := tries + [next];
      forall i | 0 <= i < |more| - 1 ensures Follows(more, k, i) {
        if i < |tries| - 1 { assert Follows(tries, k, i); }
      }
    }

    /** One more try of the next free id. */
    lemma TriedOneMore(tries: seq<Attempt>, free: seq<int>, node: string, next: Attempt, r: Acquisition)
      requires Tried(tries, free, node) && AllRefused(tries) && |tries| < |free| && next.id == free[|tries|]
      requires next.created ==> LeaseName(node, next.id) !in next.before
      requires next.ok && !next.created ==> LeaseName(node, next.id) in next.before
      requires (r.CallFailed? <==> !next.ok) && (next.ok ==> (r.Acquired? <==> next.created))
      ensures Tried(tries + [next], free, node) && RefusedUpTo(tries + [next], r)
      ensures next.ok && !next.created ==> AllRefused(tries + [next])
    {
      var more := tries + [next];
      assert more[..|more| - 1] == tries;
    }

    /** What the tries leave in the store: the lease of the last one, if that went in, and no other. */
    ghost predicate Created(pod: ListedPod, tries: seq<Attempt>, after: Store) {
      tries != [] ==>
        var last := tries[|tries| - 1];
        && after == (if last.created then last.before[LeaseName(pod.node, last.id) := ClaimOf(pod, last.id, deployment)] else last.before)
        && (last.created ==> IsFor(after[LeaseName(pod.node, last.id)], pod, deployment) && after[LeaseName(pod.node, last.id)].id == last.id)
        && (last.created ==> Capacity(nodes, pod.node).Ok? && 0 <= last.id < Capacity(nodes, pod.node).value)
    }

    /** So what they leave is in range if what they met was. */
    lemma CreatedInRange(pod: ListedPod, tries: seq<Attempt>, after: Store)
      requires tries != [] && Created(pod, tries, after)
      requires tries[|tries| - 1].created ==> LeaseName(pod.node, tries[|tries| - 1].id) !in tries[|tries| - 1].before
      ensures InRange(nodes, tries[|tries| - 1].before) ==> InRange(nodes, after)
    {
      var last := tries[|tries| - 1];
      if last.created && InRange(nodes, last.before) {
        CreateInRange(nodes, last.before, LeaseName(pod.node, last.id), ClaimOf(pod, last.id, deployment));
      }
    }

    /** The least free id is leased, or there is none and nothing happens. */
    ghost predicate TakesLeast(r: Acquisition, pod: ListedPod, before: Store, after: Store) {
      var free := FreeIds(nodes, before, pod.node);
      if free == [] then r == NoFreeID && after == before
      else
        && r == Acquired(free[0]) && after == before[LeaseName(pod.node, free[0]) := ClaimOf(pod, free[0], deployment)]
        && IsFor(ClaimOf(pod, free[0], deployment), pod, deployment)
    }

    lemma FirstRefused(front: seq<Attempt>, tries: seq<Attempt>)
      requires front != [] && front <= tries && AllRefused(front)
      ensures tries[0].ok && !tries[0].created
    {
      assert front[0] == tries[0];
    }

    /** A first try under an absent name, if answered, is the only one. */
    lemma OnlyTry(tries: seq<Attempt>, free: seq<int>, node: string, r: Acquisition)
      requires tries != [] && !r.CallFailed? && Tried(tries, free, node) && RefusedUpTo(tries, r)
      requires LeaseName(node, tries[0].id) !in tries[0].before
      ensures |tries| == 1 && tries[0].created && r.Acquired?
    {
      if |tries| > 1 { FirstRefused(tries[..|tries| - 1], tries); }
    }

    /** Undisturbed, the first try goes in. */
    lemma FirstGoesIn(pod: ListedPod, tries: seq<Attempt>, free: seq<int>, k: nat, store: Store, r: Acquisition, after: Store)
      requires Quiet() && WellNamed(store) && tries != [] && !r.CallFailed? && free == FreeIds(nodes, store, pod.node)
      requires Outcome(r, tries, free, pod, k, store, after)
      ensures TakesLeast(r, pod, store, after)
    {
      FreeIsUnused(nodes, store, pod.node, free[0]);
      UnusedIsAbsent(store, pod.node, free[0]);
      assert tries[0].id == free[0] && tries[0].before == store;
      OnlyTry(tries, free, pod.node, r);
    }

    lemma OutcomeInRange(r: Acquisition, tries: seq<Attempt>, free: seq<int>, pod: ListedPod, k: nat, store: Store, now: Store)
      requires Outcome(r, tries, free, pod, k, store, now)
      ensures tries != [] && InRange(nodes, tries[|tries| - 1].before) ==> InRange(nodes, now)
    {
      if tries != [] { CreatedInRange(pod, tries, now); }
    }

    lemma NoTries(r: Acquisition, free: seq<int>, pod: ListedPod, k: nat, store: Store, now: Store)
      requires !r.Acquired?
      ensures Outcome(r, [], free, pod, k, store, now)
    {
    }

    /**
     Takes the free ids in ascending order until a Create goes in. On success exactly one lease was
     created, under a name absent at that instant; when a call fails, at most the one of the last try;
     otherwise none, and NoFreeID means that every id the snapshot showed free was found taken when tried.
     */
    method AcquireLeaseOnNode(pod: ListedPod) returns (r: Acquisition, ghost seen: Store, ghost tries: seq<Attempt>)
      modifies `calls, `leases, `attempts
      ensures seen == meddle(old(calls), old(leases)) && attempts == old(attempts) + tries
      ensures Outcome(r, tries, FreeIds(nodes, seen, pod.node), pod, old(calls) + 2, meddle(old(calls) + 1, seen), leases)
      ensures tries != [] && InRange(nodes, tries[|tries| - 1].before) ==> InRange(nodes, leases)
      ensures r.NoFreeID? ==> |tries| == |FreeIds(nodes, seen, pod.node)|
      ensures r.CallFailed? ==> !Capacity(nodes, pod.node).Ok? || (calls > 0 && !fate(calls - 1).Answered?)
      ensures Quiet() && WellNamed(old(leases)) && Capacity(nodes, pod.node).Ok? ==> TakesLeast(r, pod, old(leases), leases)
    {
      tries := [];
      var free := FreeGPUIDs(pod.node);
      seen := leases;
      if free.None? {
        NoTries(CallFailed, FreeIds(nodes, seen, pod.node), pod, old(calls) + 2, meddle(old(calls) + 1, seen), leases);
        return CallFailed, seen, tries;
      }
      r, tries := TryListed(pod, free.value, seen);
      OutcomeInRange(r, tries, FreeIds(nodes, seen, pod.node), pod, old(calls) + 2, meddle(old(calls) + 1, seen), leases);
      QuietOutcome(pod, tries, old(calls), old(leases), seen, r, leases);
    }

    /** What allocation comes to when undisturbed. */
    lemma QuietOutcome(pod: ListedPod, tries: seq<Attempt>, calls: nat, store: Store, seen: Store, r: Acquisition, after: Store)
      requires seen == meddle(calls, store)
      requires Outcome(r, tries, FreeIds(nodes, seen, pod.node), pod, calls + 2, meddle(calls + 1, seen), after)
      requires FreeIds(nodes, seen, pod.node) == [] ==> r == NoFreeID && after == seen
      requires FreeIds(nodes, seen, pod.node) != [] && Quiet() ==> tries != [] && !r.CallFailed?
      ensures Quiet() && WellNamed(store) ==> TakesLeast(r, pod, store, after)
    {
      if Quiet() && WellNamed(store) {
        var free := FreeIds(nodes, seen, pod.node);
        assert seen == store && meddle(calls + 1, seen) == store;
        if free != [] { FirstGoesIn(pod, tries, free, calls + 2, store, r, after); }
      }
    }

    /** The part of acquireLeaseOnNode that follows listing the free ids. */
    method TryListed(pod: ListedPod, free: seq<int>, ghost seen: Store) returns (r: Acquisition, ghost tries: seq<Attempt>)
      requires leases == seen && free == FreeIds(nodes, seen, pod.node)
      modifies `calls, `leases, `attempts
      ensures attempts == old(attempts) + tries
      ensures Outcome(r, tries, FreeIds(nodes, seen, pod.node), pod, old(calls) + 1, meddle(old(calls), seen), leases)
      ensures r.NoFreeID? ==> |tries| == |FreeIds(nodes, seen, pod.node)|
      ensures r.CallFailed? ==> calls > 0 && !fate(calls - 1).Answered?
      ensures FreeIds(nodes, seen, pod.node) == [] ==> r == NoFreeID && leases == seen
      ensures FreeIds(nodes, seen, pod.node) != [] && Quiet() ==> tries != [] && !r.CallFailed?
    {
      tries := [];
      if |free| == 0 {
        NoTries(NoFreeID, FreeIds(nodes, seen, pod.node), pod, calls + 1, meddle(calls, seen), leases);
        return NoFreeID, tries;
      }
      InBounds(pod.node, seen, free);
      var ok := Call();               // the node's GPU model, for the lease's spec
      if !ok {
        NoTries(CallFailed, FreeIds(nodes, seen, pod.node), pod, calls, meddle(calls - 1, seen), leases);
        return CallFailed, tries;
      }
      r, tries := TryInOrder(pod, free);
    }

    ghost predicate Within(free: seq<int>, node: string) {
      forall i :: 0 <= i < |free| ==> Capacity(nodes, node).Ok? && 0 <= free[i] < Capacity(nodes, node).value
    }

    lemma InBounds(node: string, store: Store, free: seq<int>)
      requires free == FreeIds(nodes, store, node)
      ensures Within(free, node)
    {
      forall i | 0 <= i < |free| { FreeIsUnused(nodes, store, node, free[i]); }
    }

    /** One try, whatever becomes of it. */
    method TryOne(pod: ListedPod, id: int) returns (r: Acquisition, ghost try: Attempt)
      requires Capacity(nodes, pod.node).Ok? && 0 <= id < Capacity(nodes, pod.node).value
      modifies `calls, `leases, `attempts
      ensures calls == old(calls) + 1 && try.id == id && try.before == meddle(old(calls), old(leases))
      ensures attempts == old(attempts) + [try] && Created(pod, [try], leases)
      ensures try.created ==> LeaseName(pod.node, id) !in try.before
      ensures try.ok && !try.created ==> LeaseName(pod.node, id) in try.before
      ensures r == if !try.ok then CallFailed else if try.created then Acquired(id) else NoFreeID
      ensures try.ok == fate(old(calls)).Answered?
    {
      var ok, created;
      ok, created, try := CreateLease(id, ClaimOf(pod, id, deployment));
      return if !ok then CallFailed else if created then Acquired(id) else NoFreeID, try;
    }

    /** The ids gone through so far were all refused, the store being as the others left it. */
    ghost predicate Refused(tries: seq<Attempt>, free: seq<int>, pod: ListedPod, k: nat, store: Store, now: Store) {
      Tried(tries, free, pod.node) && AllRefused(tries) && Met(tries, k, store) && now == LeftBy(tries, store)
    }

    /** What the tries amount to, when r is the outcome. */
    ghost predicate Outcome(r: Acquisition, tries: seq<Attempt>, free: seq<int>, pod: ListedPod, k: nat, store: Store, now: Store) {
      && Tried(tries, free, pod.node) && RefusedUpTo(tries, r) && Met(tries, k, store) && Created(pod, tries, now)
      && (r.Acquired? ==> r.id == tries[|tries| - 1].id)
    }

    lemma TriedNext(r: Acquisition, tries: seq<Attempt>, free: seq<int>, pod: ListedPod, k: nat, store: Store, was: Store, try: Attempt, now: Store)
      requires Refused(tries, free, pod, k, store, was) && |tries| < |free| && try.id == free[|tries|]
      requires try.before == meddle(k + |tries|, was) && Created(pod, [try], now)
      requires try.created ==> LeaseName(pod.node, try.id) !in try.before
      requires try.ok && !try.created ==> LeaseName(pod.node, try.id) in try.before
      requires r == if !try.ok then CallFailed else if try.created then Acquired(try.id) else NoFreeID
      ensures Outcome(r, tries + [try], free, pod, k, store, now)
      ensures r.NoFreeID? ==> Refused(tries + [try], free, pod, k, store, now)
    {
      MetOneMore(tries, k, store, try);
      TriedOneMore(tries, free, pod.node, try, r);
    }

    /** Tries the next free id. */
    method TryNext(pod: ListedPod, free: seq<int>, i: nat, ghost tries: seq<Attempt>, ghost k: nat, ghost store: Store)
      returns (r: Acquisition, ghost try: Attempt)
      requires i < |free| && Within(free, pod.node)
      requires |tries| == i && calls == k + |tries| && Refused(tries, free, pod, k, store, leases)
      modifies `calls, `leases, `attempts
      ensures calls == k + i + 1 && attempts == old(attempts) + [try]
      ensures Outcome(r, tries + [try], free, pod, k, store, leases)
      ensures r.NoFreeID? ==> Refused(tries + [try], free, pod, k, store, leases)
      ensures r.CallFailed? ==> !fate(calls - 1).Answered?
    {
      ghost var was := leases;
      r, try := TryOne(pod, free[i]);
      TriedNext(r, tries, free, pod, k, store, was, try, leases);
    }

    /** Creates a lease for the first id whose name is not taken. */
    method TryInOrder(pod: ListedPod, free: seq<int>) returns (r: Acquisition, ghost tries: seq<Attempt>)
      requires free != [] && Within(free, pod.node)
      modifies `calls, `leases, `attempts
      ensures attempts == old(attempts) + tries && tries != []
      ensures Outcome(r, tries, free, pod, old(calls), old(leases), leases)
      ensures r.NoFreeID? ==> |tries| == |free|
      ensures r.CallFailed? ==> calls > 0 && !fate(calls - 1).Answered?
    {
      tries, r := [], NoFreeID;
      for i := 0 to |free|
        invariant |tries| == i && attempts == old(attempts) + tries && calls == old(calls) + i && r == NoFreeID
        invariant Refused(tries, free, pod, old(calls), old(leases), leases)
        invariant i > 0 ==> Outcome(r, tries, free, pod, old(calls), old(leases), leases)
      {
        ghost var try;
        r, try := TryNext(pod, free, i, tries, old(calls), old(leases));
        tries := tries + [try];
        if !r.NoFreeID? {
          return;
        }
      }
    }

    /** patchPodStateLabel; `took` says whether the label changed, whatever the caller was told. */
    method PatchState(pod: ListedPod, state: State) returns (ok: bool, ghost took: bool)
      requires pod.name in states
      modifies `calls, `leases, `states
      ensures Quiet() ==> ok && leases == old(leases)
      ensures (ok ==> took) && states == if took then old(states)[pod.name := state] else old(states)
    {
      var k := calls;
      ok := Call();
      took := fate(k).Effective();
      if fate(k).Effective() {
        states := states[pod.name := state];
      }
    }

    /** The counts the candidates were ranked by are those of the store. */
    ghost predicate Consistent(free: map<string, nat>, store: Store) {
      forall n :: FreeOn(free, n) == |FreeIds(nodes, store, n)|
    }

    /** A quiet cluster, read consistently. */
    ghost predicate Calm(free: map<string, nat>, store: Store) {
      Quiet() && UniqueNames(nodes) && WellNamed(store) && Consistent(free, store)
    }

    /** A candidate of the pass. */
    ghost predicate Serviceable(pass: Pass, pod: ListedPod) {
      && pod.name in pass.us && pod.node in NodeNames(nodes) && FreeOn(pass.free, pod.node) > 0
      && Capacity(nodes, pod.node).Ok?
    }

    ghost predicate AllServiceable(pass: Pass, candidates: seq<ListedPod>) {
      forall k {:trigger Serviceable(pass, candidates[k])} :: 0 <= k < |candidates| ==> Serviceable(pass, candidates[k])
    }

    /** After `done`, each node has lost what it gave: one id per pod, while it had any. */
    ghost predicate Given(free: map<string, nat>, done: seq<ListedPod>, store: Store) {
      && WellNamed(store)
      && forall n :: |FreeIds(nodes, store, n)| == FreeOn(free, n) - Min(PodsOn(done, n), FreeOn(free, n))
    }

    lemma GiveOne(free: map<string, nat>, done: seq<ListedPod>, pod: ListedPod, store: Store)
      requires Given(free, done, store) && FreeOn(free, pod.node) > 0 && Capacity(nodes, pod.node).Ok?
      ensures var ids := FreeIds(nodes, store, pod.node);
        if ids == [] then Given(free, done + [pod], store) && PodsOn(done, pod.node) >= FreeOn(free, pod.node)
        else Given(free, done + [pod], store[LeaseName(pod.node, ids[0]) := ClaimOf(pod, ids[0], deployment)])
             && PodsOn(done, pod.node) < FreeOn(free, pod.node)
    {
      var ids := FreeIds(nodes, store, pod.node);
      forall n ensures PodsOn(done + [pod], n) == PodsOn(done, n) + if pod.node == n then 1 else 0 {
        OneMore(done, pod, n);
      }
      if ids != [] { FreeAfter(nodes, store, pod, ids[0], deployment); }
    }

    /** What a promotion pass over the named pods may do to the labels. */
    ghost predicate OnlyPromotes(names: set<string>, before: map<string, State>, after: map<string, State>) {
      && after.Keys == before.Keys
      && forall n :: n in before ==> after[n] == before[n] || (n in names && before[n] == Warm && after[n] == Activating)
    }

    /** Promoted, or out of luck: its node has nothing left. */
    ghost predicate Served(q: ListedPod, after: map<string, State>, store: Store) {
      q.name in after && (after[q.name] == Activating || FreeIds(nodes, store, q.node) == [])
    }

    /** How far a calm promotion pass has got, having been through `done`. */
    ghost predicate Progress(pass: Pass, done: seq<ListedPod>, promoted: nat, after: map<string, State>, store: Store) {
      && promoted == Promotable(NodeNames(nodes), done, pass.free)
      && Given(pass.free, done, store)
      && |HeldNames(pass.us, after)| == |HeldNames(pass.us, pass.before)| + promoted
      && forall k {:trigger Served(done[k], after, store)} :: 0 <= k < |done| ==> Served(done[k], after, store)
    }

    /** Progress, and a lease for every pod promoted. */
    ghost predicate Account(pass: Pass, done: seq<ListedPod>, promoted: nat, after: map<string, State>, store: Store) {
      && Progress(pass, done, promoted, after, store)
      && Grown(pass.store, store, promoted) && Granted(pass.store, store, done, after, deployment)
    }

    lemma AccountSkips(pass: Pass, done: seq<ListedPod>, promoted: nat, after: map<string, State>, store: Store, pod: ListedPod)
      requires Account(pass, done, promoted, after, store) && UniqueNames(nodes) && Serviceable(pass, pod)
      requires FreeIds(nodes, store, pod.node) == [] && pod.name in after && after[pod.name] == Warm
      ensures Account(pass, done + [pod], promoted, after, store)
    {
      ProgressSkips(pass, done, promoted, after, store, pod);
    }

    lemma AccountTakes(pass: Pass, done: seq<ListedPod>, promoted: nat, after: map<string, State>, store: Store, pod: ListedPod,
                       id: int, leased: Store)
      requires Account(pass, done, promoted, after, store) && UniqueNames(nodes) && Serviceable(pass, pod)
      requires PodsOn(done, pod.node) < FreeOn(pass.free, pod.node) && Given(pass.free, done + [pod], leased)
      requires forall n :: FreeIds(nodes, store, n) == [] ==> FreeIds(nodes, leased, n) == []
      requires pod.name in after && after[pod.name] == Warm && NoneNamed(done, pod.name)
      requires LeaseName(pod.node, id) !in store && leased == store[LeaseName(pod.node, id) := ClaimOf(pod, id, deployment)]
      ensures Account(pass, done + [pod], promoted + 1, after[pod.name := Activating], leased)
    {
      ProgressTakes(pass, done, promoted, after, store, pod, leased);
      GrantOne(pass.store, store, done, after, deployment, pod, id, LeaseName(pod.node, id));
    }

    lemma ProgressStarts(pass: Pass, store: Store)
      requires WellNamed(store) && Consistent(pass.free, store)
      ensures Progress(pass, [], 0, pass.before, store)
    {
      NothingPromotable(NodeNames(nodes), pass.free);
      forall n ensures PodsOn([], n) == 0 { assert Spots([], n) == {}; }
    }

    lemma ProgressSkips(pass: Pass, done: seq<ListedPod>, promoted: nat, after: map<string, State>, store: Store, pod: ListedPod)
      requires Progress(pass, done, promoted, after, store) && UniqueNames(nodes)
      requires Serviceable(pass, pod) && FreeIds(nodes, store, pod.node) == [] && pod.name in after
      ensures Progress(pass, done + [pod], promoted, after, store)
    {
      PromotableStep(NodeNames(nodes), done, pod, pass.free);
      GiveOne(pass.free, done, pod, store);
    }

    lemma StillServed(done: seq<ListedPod>, pod: ListedPod, after: map<string, State>, store: Store, leased: Store)
      requires forall k :: 0 <= k < |done| ==> Served(done[k], after, store)
      requires forall n :: FreeIds(nodes, store, n) == [] ==> FreeIds(nodes, leased, n) == []
      ensures forall k :: 0 <= k < |done + [pod]| ==> Served((done + [pod])[k], after[pod.name := Activating], leased)
    {
      forall k | 0 <= k < |done| ensures Served(done[k], after[pod.name := Activating], leased) {
        assert Served(done[k], after, store);
      }
    }

    lemma ProgressTakes(pass: Pass, done: seq<ListedPod>, promoted: nat, after: map<string, State>, store: Store, pod: ListedPod, leased: Store)
      requires Progress(pass, done, promoted, after, store) && UniqueNames(nodes) && Serviceable(pass, pod)
      requires PodsOn(done, pod.node) < FreeOn(pass.free, pod.node) && Given(pass.free, done + [pod], leased)
      requires forall n :: FreeIds(nodes, store, n) == [] ==> FreeIds(nodes, leased, n) == []
      requires pod.name in after && after[pod.name] == Warm
      ensures Progress(pass, done + [pod], promoted + 1, after[pod.name := Activating], leased)
    {
      PromotableStep(NodeNames(nodes), done, pod, pass.free);
      HoldsOneMore(pass.us, after, pod.name);
      StillServed(done, pod, after, store, leased);
    }

    /** What promoting one pod comes to in a quiet cluster: the least free id of its node, if there is one, is leased for it. */
    ghost function PromoteNext(w: World, pod: ListedPod): World {
      var free := FreeIds(nodes, w.store, pod.node);
      if free == [] then w
      else World(w.promoted + 1, w.states[pod.name := Activating],
                 w.store[LeaseName(pod.node, free[0]) := ClaimOf(pod, free[0], deployment)])
    }

    ghost function PromoteAll(w: World, pods: seq<ListedPod>): World {
      if pods == [] then w else PromoteNext(PromoteAll(w, pods[..|pods| - 1]), pods[|pods| - 1])
    }

    lemma NextAccounted(pass: Pass, done: seq<ListedPod>, w: World, pod: ListedPod)
      requires Account(pass, done, w.promoted, w.states, w.store) && UniqueNames(nodes) && Serviceable(pass, pod)
      requires pod.name in w.states && w.states[pod.name] == Warm && NoneNamed(done, pod.name)
      ensures var next := PromoteNext(w, pod); Account(pass, done + [pod], next.promoted, next.states, next.store)
    {
      var free := FreeIds(nodes, w.store, pod.node);
      GiveOne(pass.free, done, pod, w.store);
      if free == [] {
        AccountSkips(pass, done, w.promoted, w.states, w.store, pod);
      } else {
        var leased := w.store[LeaseName(pod.node, free[0]) := ClaimOf(pod, free[0], deployment)];
        FreeAfter(nodes, w.store, pod, free[0], deployment);
        FreeIsUnused(nodes, w.store, pod.node, free[0]);
        UnusedIsAbsent(w.store, pod.node, free[0]);
        AccountTakes(pass, done, w.promoted, w.states, w.store, pod, free[0], leased);
      }
    }

    /** A pass relabels none but its own pods. */
    lemma {:induction false} Untouched(w: World, pods: seq<ListedPod>, n: string)
      requires n in w.states && NoneNamed(pods, n)
      ensures n in PromoteAll(w, pods).states && PromoteAll(w, pods).states[n] == w.states[n]
    {
      if pods != [] { Untouched(w, pods[..|pods| - 1], n); }
    }

    lemma AccountStarts(pass: Pass)
      requires WellNamed(pass.store) && Consistent(pass.free, pass.store)
      ensures Account(pass, [], 0, pass.before, pass.store)
    {
      ProgressStarts(pass, pass.store);
    }

    /** The n-th pod of a quiet pass. */
    lemma NthAccounted(pass: Pass, candidates: seq<ListedPod>, n: nat, w: World)
      requires UniqueNames(nodes) && n < |candidates| && AllServiceable(pass, candidates) && DistinctPods(candidates)
      requires Account(pass, candidates[..n], w.promoted, w.states, w.store)
      requires candidates[n].name in w.states && w.states[candidates[n].name] == Warm
      ensures var next := PromoteNext(w, candidates[n]); Account(pass, candidates[..n + 1], next.promoted, next.states, next.store)
    {
      assert Serviceable(pass, candidates[n]);
      PrefixGrows(candidates, n);
      NextAccounted(pass, candidates[..n], w, candidates[n]);
    }

    lemma PromoteAllNext(w: World, pods: seq<ListedPod>, n: nat)
      requires n < |pods|
      ensures PromoteAll(w, pods[..n + 1]) == PromoteNext(PromoteAll(w, pods[..n]), pods[n])
    {
      assert pods[..n + 1][..n] == pods[..n];
    }

    lemma NoneAccounted(pass: Pass, candidates: seq<ListedPod>)
      requires WellNamed(pass.store) && Consistent(pass.free, pass.store)
      ensures PromoteAll(World(0, pass.before, pass.store), candidates[..0]) == World(0, pass.before, pass.store)
      ensures Account(pass, candidates[..0], 0, pass.before, pass.store)
    {
      AccountStarts(pass);
      assert candidates[..0] == [];
    }

    /** The n-th pod has not been touched by the pass over those before it. */
    lemma StillWarm(w: World, candidates: seq<ListedPod>, n: nat)
      requires n < |candidates| && DistinctPods(candidates) && AllFrom(candidates, 0, Warm, w.states)
      ensures var last := PromoteAll(w, candidates[..n]);
        candidates[n].name in last.states && last.states[candidates[n].name] == Warm
    {
      PrefixGrows(candidates, n);
      Untouched(w, candidates[..n], candidates[n].name);
    }

    /** A quiet pass over serviceable pods is accounted for. */
    lemma {:induction false} AllAccounted(pass: Pass, candidates: seq<ListedPod>, n: nat, w: World)
      requires UniqueNames(nodes) && WellNamed(pass.store) && Consistent(pass.free, pass.store) && n <= |candidates|
      requires AllServiceable(pass, candidates) && DistinctPods(candidates) && AllFrom(candidates, 0, Warm, pass.before)
      requires w == PromoteAll(World(0, pass.before, pass.store), candidates[..n])
      ensures Account(pass, candidates[..n], w.promoted, w.states, w.store)
    {
      if n == 0 {
        NoneAccounted(pass, candidates);
      } else {
        var start := World(0, pass.before, pass.store);
        var last := PromoteAll(start, candidates[..n - 1]);
        AllAccounted(pass, candidates, n - 1, last);
        StillWarm(start, candidates, n - 1);
        PromoteAllNext(start, candidates, n - 1);
        NthAccounted(pass, candidates, n - 1, last);
      }
    }

    /** Candidate i: allocate and create its lease, then label it; `now` counts the promoted ones. */
    method PromoteOne(candidates: seq<ListedPod>, i: nat, promoted: nat, ghost calm: bool, ghost pass: Pass)
      returns (ok: bool, now: nat)
      requires DistinctPods(candidates) && i < |candidates| && AllFrom(candidates, i, Warm, states)
      requires OnlyPromotes(pass.names, pass.before, states) && AllIn(candidates, pass.names)
      requires calm ==> Quiet() && WellNamed(leases) && Capacity(nodes, candidates[i].node).Ok?
      modifies `calls, `leases, `states, `attempts
      ensures promoted <= now <= promoted + 1
      ensures OnlyPromotes(pass.names, pass.before, states) && AllFrom(candidates, i + 1, Warm, states)
      ensures calm ==> ok && WellNamed(leases)
      ensures calm ==> World(now, states, leases) == PromoteNext(World(promoted, old(states), old(leases)), candidates[i])
    {
      var pod := candidates[i];
      ghost var store := leases;
      var r, _, _ := AcquireLeaseOnNode(pod);
      if r.NoFreeID? {
        return true, promoted;
      }
      if r.CallFailed? {
        return false, promoted;
      }
      if calm { FreeAfter(nodes, store, pod, r.id, deployment); }
      AllButFirst(candidates, i, Warm, Activating, states);
      ghost var took;
      ok, took := PatchState(pod, Activating);
      now := if ok then promoted + 1 else promoted;
    }

    ghost predicate AllCapable(pods: seq<ListedPod>) {
      forall k :: 0 <= k < |pods| ==> Capacity(nodes, pods[k].node).Ok?
    }

    /** The loop over the candidates; it went through the first n of them. */
    method PromoteInOrder(candidates: seq<ListedPod>, need: nat, ghost calm: bool, ghost pass: Pass)
      returns (ok: bool, promoted: nat, ghost n: nat)
      requires DistinctPods(candidates) && pass.before == states && AllFrom(candidates, 0, Warm, states)
      requires AllIn(candidates, pass.names)
      requires calm ==> Quiet() && WellNamed(leases) && AllCapable(candidates)
      modifies `calls, `leases, `states, `attempts
      ensures promoted <= need && OnlyPromotes(pass.names, pass.before, states)
      ensures n <= |candidates| && (ok ==> AllFrom(candidates, n, Warm, states)) && (ok && promoted < need ==> n == |candidates|)
      ensures calm ==> ok && World(promoted, states, leases) == PromoteAll(World(0, old(states), old(leases)), candidates[..n])
    {
      ok, promoted, n := true, 0, 0;
      var i: nat := 0;
      while i < |candidates| && promoted < need
        invariant i <= |candidates| && promoted <= need && n == i && ok
        invariant OnlyPromotes(pass.names, pass.before, states) && AllFrom(candidates, i, Warm, states)
        invariant calm ==> WellNamed(leases)
        invariant calm ==> World(promoted, states, leases) == PromoteAll(World(0, old(states), old(leases)), candidates[..i])
      {
        PromoteAllNext(World(0, old(states), old(leases)), candidates, i);
        ok, promoted := PromoteOne(candidates, i, promoted, calm, pass);
        if !ok {
          return;
        }
        i, n := i + 1, i + 1;
      }
    }

    /** A shortfall leaves behind only pods on nodes with nothing left to give. */
    lemma Shortfall(pass: Pass, warm: seq<ListedPod>, candidates: seq<ListedPod>, p: seq<nat>, promoted: nat, after: map<string, State>, store: Store)
      requires Rearranged(candidates, Eligible(warm, pass.free), p) && Progress(pass, candidates, promoted, after, store)
      requires forall q :: q in warm ==> q.name in after
      ensures forall q :: q in warm ==> Served(q, after, store)
    {
      LeftBehind(warm, pass.free, candidates, p);
      forall q | q in warm ensures Served(q, after, store) {
        if q in candidates {
          var k :| 0 <= k < |candidates| && candidates[k] == q;
        } else {
          assert FreeOn(pass.free, q.node) == 0;
        }
      }
    }

    lemma Optimal(warm: seq<ListedPod>, free: map<string, nat>, candidates: seq<ListedPod>, p: seq<nat>, n: nat, need: nat, promoted: nat)
      requires Rearranged(candidates, Eligible(warm, free), p) && n <= |candidates|
      requires promoted == Promotable(NodeNames(nodes), candidates[..n], free)
      requires promoted <= need && (promoted < need ==> n == |candidates|)
      ensures promoted == Min(need, Promotable(NodeNames(nodes), warm, free))
    {
      CandidatesPromotable(NodeNames(nodes), candidates, warm, free, p);
      FewerPromotable(NodeNames(nodes), candidates, n, free);
      if promoted < need { assert candidates[..n] == candidates; }
    }

    /** Whoever of the warm pods was promoted is among the candidates that were gone through, and has its lease. */
    lemma AllGranted(before: Store, after: Store, warm: seq<ListedPod>, candidates: seq<ListedPod>, n: nat,
                     was: map<string, State>, states: map<string, State>)
      requires n <= |candidates| && Granted(before, after, candidates[..n], states, deployment) && AllFrom(candidates, n, Warm, states)
      requires OnlyPromotes(PodNames(candidates), was, states) && AllFrom(warm, 0, Warm, was)
      requires DistinctPods(warm) && forall k :: 0 <= k < |candidates| ==> candidates[k] in warm
      ensures Granted(before, after, warm, states, deployment)
    {
      forall i | 0 <= i < |warm| && warm[i].name in states && states[warm[i].name] == Activating
        ensures HasLease(before, after, warm[i], deployment)
      {
        assert warm[i].name in PodNames(candidates);
        var k :| 0 <= k < |candidates| && candidates[k].name == warm[i].name;
        var j :| 0 <= j < |warm| && warm[j] == candidates[k];
        assert candidates[..n][k] == warm[i];
      }
    }

    /** In a calm cluster the candidates can all be tried. */
    lemma CandidatesServiceable(pass: Pass, candidates: seq<ListedPod>)
      requires Consistent(pass.free, leases)
      requires forall k :: 0 <= k < |candidates| ==> FreeOn(pass.free, candidates[k].node) > 0 && candidates[k].name in pass.us
      ensures AllServiceable(pass, candidates) && AllCapable(candidates)
    {
      forall k | 0 <= k < |candidates| ensures Serviceable(pass, candidates[k]) {
        HasCapacity(nodes, candidates[k].node);
      }
    }

    /** What a calm pass owes its caller: as many pods as can be had, each with a lease, and no other change to the leases. */
    ghost predicate Fulfilled(warm: seq<ListedPod>, need: nat, pass: Pass, promoted: nat, states: map<string, State>, store: Store) {
      && promoted == Min(need, Promotable(NodeNames(nodes), warm, pass.free))
      && |HeldNames(pass.us, states)| == |HeldNames(pass.us, pass.before)| + promoted
      && (promoted < need ==> forall q :: q in warm ==> Served(q, states, store))
      && Grown(pass.store, store, promoted) && Granted(pass.store, store, warm, states, deployment)
    }

    lemma Fulfils(warm: seq<ListedPod>, need: nat, pass: Pass, candidates: seq<ListedPod>, p: seq<nat>, n: nat,
                  promoted: nat, states: map<string, State>, store: Store)
      requires n <= |candidates| && Account(pass, candidates[..n], promoted, states, store)
      requires Rearranged(candidates, Eligible(warm, pass.free), p) && forall k :: 0 <= k < |candidates| ==> candidates[k] in warm
      requires promoted <= need && (promoted < need ==> n == |candidates|)
      requires DistinctPods(warm) && AllFrom(warm, 0, Warm, pass.before) && AllFrom(candidates, n, Warm, states)
      requires OnlyPromotes(PodNames(candidates), pass.before, states)
      ensures Fulfilled(warm, need, pass, promoted, states, store)
    {
      Optimal(warm, pass.free, candidates, p, n, need, promoted);
      AllGranted(pass.store, store, warm, candidates, n, pass.before, states);
      if promoted < need {
        assert candidates[..n] == candidates;
        Shortfall(pass, warm, candidates, p, promoted, states, store);
      }
    }

    /**
     Promotes up to `need` warm pods. In a calm cluster the greedy loop is optimal whatever order the
     candidates are in: it promotes as many as nodes and GPUs allow, and after a shortfall every warm
     pod left behind sits on a node without a free GPU.
     */
    method Promote(warm: seq<ListedPod>, need: nat, free: map<string, nat>, ghost us: set<string>) returns (ok: bool, promoted: nat)
      requires DistinctPods(warm) && AllFrom(warm, 0, Warm, states) && AllIn(warm, us)
      modifies `calls, `leases, `states, `attempts
      ensures promoted <= need && OnlyPromotes(PodNames(warm), old(states), states)
      ensures Calm(free, old(leases)) ==>
        ok && Fulfilled(warm, need, Pass(us, PodNames(warm), free, old(states), old(leases)), promoted, states, leases)
    {
      var candidates := SortPromotionCandidates(warm, free);
      ghost var p :| Rearranged(candidates, Eligible(warm, free), p);
      ghost var calm, pass := Calm(free, leases), Pass(us, PodNames(candidates), free, states, leases);
      CandidatesFit(candidates, warm, free, p);
      if calm { CandidatesServiceable(pass, candidates); }
      ghost var n;
      ok, promoted, n := PromoteInOrder(candidates, need, calm, pass);
      assert PodNames(candidates) <= PodNames(warm);
      if calm {
        AllAccounted(pass, candidates, n, World(promoted, states, leases));
        Fulfils(warm, need, pass, candidates, p, n, promoted, states, leases);
      }
    }

    // Demotion.

    method DeleteLease(name: string) returns (ok: bool)
      modifies `calls, `leases
      ensures Quiet() ==> ok && leases == Deleted(old(leases), {name})
    {
      var k := calls;
      ok := Call();
      if fate(k).Effective() {
        leases := Deleted(leases, {name});
      }
    }

    /** The leases of the Deployment. */
    method LeasesForDeployment() returns (ok: bool, mine: seq<string>)
      modifies `calls, `leases
      ensures Quiet() ==> ok && leases == old(leases)
      ensures forall n :: n in mine <==> n in leases && leases[n].deployment == deployment
    {
      var names;
      ok, names := List();
      mine := [];
      for i := 0 to |names|
        invariant forall n :: n in mine <==> n in names[..i] && leases[n].deployment == deployment
      {
        if leases[names[i]].deployment == deployment {
          mine := mine + [names[i]];
        }
      }
      assert names[..|names|] == names;
    }

    /** The first of the listed leases that claims the pod, whatever its phase. */
    method FindLeaseForPod(snapshot: Store, mine: seq<string>, pod: ListedPod) returns (found: Option<string>)
      requires forall n :: n in mine ==> n in snapshot
      ensures match found
        case Some(n) => exists i :: 0 <= i < |mine| && mine[i] == n && ClaimsListed(snapshot[n], pod, deployment)
                                    && forall j :: 0 <= j < i ==> !ClaimsListed(snapshot[mine[j]], pod, deployment)
        case None => forall n :: n in mine ==> !ClaimsListed(snapshot[n], pod, deployment)
    {
      for i := 0 to |mine|
        invariant forall j :: 0 <= j < i ==> !ClaimsListed(snapshot[mine[j]], pod, deployment)
      {
        if ClaimsListed(snapshot[mine[i]], pod, deployment) {
          return Some(mine[i]);
        }
      }
      return None;
    }

    /** The label changes of a demotion pass that has relabelled `done`. */
    ghost predicate Released(us: set<string>, done: seq<ListedPod>, before: map<string, State>, after: map<string, State>) {
      && after.Keys == before.Keys
      && (forall k :: 0 <= k < |done| ==> done[k].name in after && after[done[k].name] == Releasing)
      && (forall n :: n in before && after[n] != before[n] ==> exists k :: 0 <= k < |done| && done[k].name == n)
      && |HeldNames(us, after)| == |HeldNames(us, before)| - |done|
    }

    lemma ReleaseOne(us: set<string>, done: seq<ListedPod>, before: map<string, State>, after: map<string, State>, pod: ListedPod)
      requires Released(us, done, before, after) && pod.name in us && pod.name in after && after[pod.name] == Hot
      ensures Released(us, done + [pod], before, after[pod.name := Releasing])
    {
      var more, now := done + [pod], after[pod.name := Releasing];
      HoldsOneLess(us, after, pod.name);
      forall n | n in before && now[n] != before[n] ensures exists k :: 0 <= k < |more| && more[k].name == n {
        if n == pod.name {
          assert more[|done|].name == n;
        } else {
          var k :| 0 <= k < |done| && done[k].name == n;
          assert more[k].name == n;
        }
      }
    }

    /** How far a quiet demotion pass over the listed leases has got. */
    ghost predicate Drained(done: seq<ListedPod>, founds: seq<Option<string>>, listed: Store, store: Store) {
      && |founds| == |done| && store == Deleted(listed, NamesOf(founds))
      && forall k :: 0 <= k < |done| ==> FoundFor(done[k], founds[k], listed, deployment)
    }

    ghost predicate MineOf(mine: seq<string>, listed: Store) {
      forall n :: n in mine <==> n in listed && listed[n].deployment == deployment
    }

    /** A lease of the list that claims the pod, if there is any. */
    method Find(listed: Store, mine: seq<string>, pod: ListedPod) returns (found: Option<string>)
      requires MineOf(mine, listed)
      ensures FoundFor(pod, found, listed, deployment)
    {
      found := FindLeaseForPod(listed, mine, pod);
    }

    lemma DrainOne(done: seq<ListedPod>, founds: seq<Option<string>>, listed: Store, store: Store, pod: ListedPod, found: Option<string>)
      requires Drained(done, founds, listed, store) && FoundFor(pod, found, listed, deployment)
      ensures Drained(done + [pod], founds + [found], listed, if found.Some? then Deleted(store, {found.value}) else store)
    {
      NamesOfOneMore(founds, found);
      if found.Some? { DeletedOneMore(listed, NamesOf(founds), found.value); }
    }

    /** Labels candidate i, then deletes the lease found for it. */
    method DemoteOne(candidates: seq<ListedPod>, i: nat, listed: Store, mine: seq<string>, ghost us: set<string>,
                     ghost before: map<string, State>, ghost founds: seq<Option<string>>)
      returns (ok: bool, ghost labelled: bool, ghost found: Option<string>)
      requires DistinctPods(candidates) && i < |candidates| && AllFrom(candidates, i, Hot, states) && AllIn(candidates, us)
      requires Released(us, candidates[..i], before, states) && MineOf(mine, listed)
      requires Quiet() ==> Drained(candidates[..i], founds, listed, leases)
      modifies `calls, `leases, `states
      ensures AllFrom(candidates, i + 1, Hot, states) && (ok ==> labelled)
      ensures Released(us, candidates[..if labelled then i + 1 else i], before, states)
      ensures Quiet() ==> ok && Drained(candidates[..i + 1], founds + [found], listed, leases)
    {
      var pod := candidates[i];
      assert candidates[..i + 1] == candidates[..i] + [pod];
      var lease := Find(listed, mine, pod);
      found := lease;
      AllButFirst(candidates, i, Hot, Releasing, states);
      ReleaseOne(us, candidates[..i], before, states, pod);
      if Quiet() { DrainOne(candidates[..i], founds, listed, leases, pod, found); }
      ok, labelled := PatchState(pod, Releasing);
      if !ok {
        return;
      }
      if lease.Some? {
        ok := DeleteLease(lease.value);
      }
    }

    /** The loop over the candidates, with the Deployment's leases as listed before it. */
    method DemoteListed(candidates: seq<ListedPod>, need: nat, listed: Store, mine: seq<string>, ghost us: set<string>)
      returns (ok: bool, demoted: nat, ghost labelled: nat, ghost founds: seq<Option<string>>)
      requires DistinctPods(candidates) && AllFrom(candidates, 0, Hot, states) && AllIn(candidates, us)
      requires MineOf(mine, listed) && (Quiet() ==> Drained([], [], listed, leases))
      requires Released(us, [], states, states)
      modifies `calls, `leases, `states
      ensures demoted <= labelled <= Min(need, |candidates|) && Released(us, candidates[..labelled], old(states), states)
      ensures ok ==> demoted == labelled == Min(need, |candidates|)
      ensures Quiet() ==> ok && Drained(candidates[..demoted], founds, listed, leases)
    {
      ok, demoted, labelled, founds := true, 0, 0, [];
      assert candidates[..0] == [];
      while demoted < |candidates| && demoted < need
        invariant labelled == demoted <= Min(need, |candidates|) && ok
        invariant Released(us, candidates[..demoted], old(states), states) && AllFrom(candidates, demoted, Hot, states)
        invariant Quiet() ==> Drained(candidates[..demoted], founds, listed, leases)
      {
        ghost var found, did;
        ok, did, found := DemoteOne(candidates, demoted, listed, mine, us, old(states), founds);
        labelled := if did then labelled + 1 else labelled;
        if !ok {
          return;
        }
        founds, demoted := founds + [found], demoted + 1;
      }
    }

    method DemoteInOrder(candidates: seq<ListedPod>, need: nat, ghost us: set<string>)
      returns (ok: bool, demoted: nat, ghost labelled: nat, ghost founds: seq<Option<string>>)
      requires DistinctPods(candidates) && AllFrom(candidates, 0, Hot, states)
      requires AllIn(candidates, us)
      modifies `calls, `leases, `states
      ensures demoted <= labelled <= Min(need, |candidates|) && Released(us, candidates[..labelled], old(states), states)
      ensures ok ==> demoted == labelled == Min(need, |candidates|)
      ensures Quiet() ==> ok && Drained(candidates[..demoted], founds, old(leases), leases)
    {
      demoted, labelled, founds := 0, 0, [];
      assert candidates[..0] == [];
      var mine;
      ok, mine := LeasesForDeployment();
      if !ok {
        return;
      }
      assert Deleted(leases, NamesOf([])) == leases;
      ok, demoted, labelled, founds := DemoteListed(candidates, need, leases, mine, us);
    }

    /**
     Demotion undoes promotion. When a pod that a promotion pass gave a lease is demoted, and no other lease
     points at it, the lease marked for deletion is exactly that one.
     */
    lemma DemotionUndoesPromotion(before: Store, after: Store, warm: seq<ListedPod>, states: map<string, State>, k: nat,
                                  founds: seq<Option<string>>, final: Store) returns (n: string)
      requires Granted(before, after, warm, states, deployment)
      requires k < |warm| && warm[k].name in states && states[warm[k].name] == Activating
      requires forall l, m :: l in after && m in after && PointsAt(after[l], warm[k], deployment) && PointsAt(after[m], warm[k], deployment) ==> l == m
      requires Drained([warm[k]], founds, after, final)
      ensures n in after && n !in before && n == LeaseName(warm[k].node, after[n].id) && IsFor(after[n], warm[k], deployment)
      ensures final == after[n := after[n].(deleting := true)]
    {
      var pod := warm[k];
      assert HasLease(before, after, warm[k], deployment);
      n :| n in after && n !in before && IsFor(after[n], pod, deployment) && n == LeaseName(pod.node, after[n].id);
      assert PointsAt(after[n], pod, deployment);
      assert FoundFor([pod][0], founds[0], after, deployment);
      FindsItsLease(after, pod, n, founds[0], deployment);
      assert NamesOf(founds) == {n};
    }

    /**
     Demotes the `need` newest hot pods, or all of them: a prefix of the stable newest-first order.
     Each is labelled and a lease that claims it, if any, is deleted; nothing else changes.
     */
    method Demote(hot: seq<ListedPod>, need: nat, ghost us: set<string>)
      returns (ok: bool, demoted: nat, ghost order: seq<ListedPod>, ghost labelled: nat, ghost founds: seq<Option<string>>)
      requires DistinctPods(hot) && AllFrom(hot, 0, Hot, states) && AllIn(hot, us)
      modifies `calls, `leases, `states
      ensures StablySorted(order, hot, NewestFirst) && |order| == |hot|
      ensures forall i, j :: 0 <= i < demoted <= j < |order| ==> order[i].created >= order[j].created
      ensures demoted <= labelled <= Min(need, |hot|) && Released(us, order[..labelled], old(states), states)
      ensures ok ==> demoted == labelled == Min(need, |hot|)
      ensures Quiet() ==> ok && Drained(order[..demoted], founds, old(leases), leases)
    {
      var candidates := SortDemotionCandidates(hot);
      order := candidates;
      ghost var p :| Rearranged(order, hot, p);
      DistinctRearranged(order, hot, p);
      ok, demoted, labelled, founds := DemoteInOrder(candidates, need, us);
    }

    // The control loop.

    /** The free count of every well-labelled node. */
    method NodeFreeCounts() returns (ok: bool, free: map<string, nat>)
      requires UniqueNames(nodes)
      modifies `calls, `leases
      ensures Quiet() ==> ok && leases == old(leases)
      ensures Consistent(free, leases)
    {
      var names;
      ok, names := List();
      var inventory := new Client(nodes, SlotsOf(leases, names));
      free := inventory.NodeFreeCounts();
      forall n ensures FreeOn(free, n) == |FreeIds(nodes, leases, n)| {
        SlotsUsed(leases, names, n);
      }
    }

    /** Labels the pods that have no label yet warm, and keeps those that count. */
    method ConsiderPods(pods: seq<ListedPod>) returns (ok: bool, considered: seq<ListedPod>)
      requires DistinctPods(pods)
      modifies `calls, `leases, `states
      ensures Quiet() ==> ok && leases == old(leases)
      ensures ok ==> considered == ConsideredOf(pods) && Initialised(pods, old(states), states)
      ensures ok ==> forall q :: q in considered <==> q in pods && q.node != "" && q.running && q.ready && !q.terminating
    {
      ok, considered := true, [];
      for i := 0 to |pods|
        invariant Quiet() ==> leases == old(leases)
        invariant considered == ConsideredOf(pods[..i]) && Initialised(pods[..i], old(states), states)
      {
        assert pods[..i + 1][..i] == pods[..i];
        ghost var was := states;
        if pods[i].name !in states {
          var k := calls;
          ok := Call();
          if fate(k).Effective() {
            states := states[pods[i].name := Warm];
          }
          if !ok {
            return;
          }
        }
        InitialiseOne(pods, i, old(states), was);
        if Counted(pods[i]) {
          considered := considered + [pods[i]];
        }
      }
      assert pods[..|pods|] == pods;
    }

    method Classify(considered: seq<ListedPod>) returns (hot: seq<ListedPod>, warm: seq<ListedPod>, held: nat)
      requires DistinctPods(considered) && AllKnown(considered, states)
      ensures hot == Labelled(considered, Hot, states) && warm == Labelled(considered, Warm, states)
      ensures forall q :: q in hot <==> q in considered && states[q.name] == Hot
      ensures forall q :: q in warm <==> q in considered && states[q.name] == Warm
      ensures held == |hot| + |Labelled(considered, Activating, states)| == |HeldNames(PodNames(considered), states)|
    {
      hot, warm, held := [], [], 0;
      for i := 0 to |considered|
        invariant hot == Labelled(considered[..i], Hot, states) && warm == Labelled(considered[..i], Warm, states)
        invariant held == |hot| + |Labelled(considered[..i], Activating, states)| == |HeldNames(PodNames(considered[..i]), states)|
      {
        var pod := considered[i];
        OneMoreName(considered, i, states);
        forall s: State { LabelledStep(considered, i, s, states); }
        var state := states[pod.name];
        if Held(state) {
          held := held + 1;
        }
        match state {
          case Hot => hot := hot + [pod];
          case Warm => warm := warm + [pod];
          case _ =>
        }
      }
      assert considered[..|considered|] == considered;
      LabelledIff(considered, Hot, states);
      LabelledIff(considered, Warm, states);
    }

    /** The leases follow the labels: one new one per pod promoted, at most one deleted per pod demoted, and no other change. */
    ghost predicate Followed(before: Store, after: Store, held: nat, now: nat, gone: set<string>) {
      if held <= now then Grown(before, after, now - held)
      else after == Deleted(before, gone) && |gone| <= held - now
    }

    lemma NothingFollows(store: Store, held: nat)
      ensures Followed(store, store, held, held, {})
    {
    }

    /** Promotes or demotes, never both. */
    method Settle(hot: seq<ListedPod>, warm: seq<ListedPod>, held: nat, target: nat, ghost us: set<string>)
      returns (ok: bool, blocked: bool, ghost free: map<string, nat>, ghost gone: set<string>)
      requires UniqueNames(nodes) && held == |HeldNames(us, states)|
      requires DistinctPods(warm) && AllFrom(warm, 0, Warm, states) && AllIn(warm, us)
      requires DistinctPods(hot) && AllFrom(hot, 0, Hot, states) && AllIn(hot, us)
      modifies `calls, `leases, `states, `attempts
      ensures blocked ==> held < target
      ensures Quiet() && WellNamed(old(leases)) ==> ok && (held < target ==> Consistent(free, old(leases)))
      ensures Quiet() && WellNamed(old(leases)) ==>
        var now := |HeldNames(us, states)|;
        && (blocked <==> now < target)
        && Followed(old(leases), leases, held, now, gone)
        && now == if held < target then Min(target, held + Promotable(NodeNames(nodes), warm, free))
                  else held - Min(held - target, |hot|)
    {
      ok, blocked, free, gone := true, false, map[], {};
      NothingFollows(leases, held);
      if held < target {
        ok, blocked, free := Raise(warm, target - held, us);
      } else if held > target {
        ok, gone := Lower(hot, held - target, us);
      }
    }

    /** Promote, with what it does to the number of held pods and to the leases. */
    method Raise(warm: seq<ListedPod>, need: nat, ghost us: set<string>) returns (ok: bool, blocked: bool, ghost free: map<string, nat>)
      requires UniqueNames(nodes) && DistinctPods(warm) && AllFrom(warm, 0, Warm, states) && AllIn(warm, us)
      modifies `calls, `leases, `states, `attempts
      ensures Quiet() && WellNamed(old(leases)) ==> ok && Consistent(free, old(leases))
      ensures Quiet() && WellNamed(old(leases)) ==>
        var held, now := |HeldNames(us, old(states))|, |HeldNames(us, states)|;
        && now == held + Min(need, Promotable(NodeNames(nodes), warm, free)) && (blocked <==> now < held + need)
        && Followed(old(leases), leases, held, now, {})
    {
      blocked, free := false, map[];
      var counts, promoted;
      ok, counts := NodeFreeCounts();
      if ok {
        free := counts;
        ok, promoted := Promote(warm, need, counts, us);
        blocked := promoted < need;
      }
    }

    /** Demote, with what it does to the number of held pods and to the leases. */
    method Lower(hot: seq<ListedPod>, need: nat, ghost us: set<string>) returns (ok: bool, ghost gone: set<string>)
      requires DistinctPods(hot) && AllFrom(hot, 0, Hot, states) && AllIn(hot, us)
      modifies `calls, `leases, `states
      ensures Quiet() ==> ok
      ensures Quiet() ==>
        var held, now := |HeldNames(us, old(states))|, |HeldNames(us, states)|;
        now == held - Min(need, |hot|) && Followed(old(leases), leases, held, now, gone)
    {
      var finished, _, _, _, founds := Demote(hot, need, us);
      ok, gone := finished, NamesOf(founds);
      if Quiet() {
        FewNames(founds);
        if need == 0 || |hot| == 0 { DeletedNone(old(leases), NamesOf(founds)); }
      }
    }

    /**
     Where a pass leaves the held pods: at the target, or as near as free GPUs (going up) or pods still
     activating (going down) allow, without overshooting and without moving away from the target.
     */
    ghost predicate Regulated(us: seq<ListedPod>, target: nat, free: map<string, nat>, store: Store,
                              before: map<string, State>, after: map<string, State>) {
      var held, now := |HeldNames(PodNames(us), before)|, |HeldNames(PodNames(us), after)|;
      && (if held < target then Consistent(free, store) && now == Min(target, held + Promotable(NodeNames(nodes), Labelled(us, Warm, before), free))
          else now == Max(target, |Labelled(us, Activating, before)|))
      && (held <= target ==> held <= now <= target)
      && (held >= target ==> target <= now <= held)
    }

    /** The pods to demote from and to promote from, fit for either. */
    method Sort(considered: seq<ListedPod>) returns (hot: seq<ListedPod>, warm: seq<ListedPod>, held: nat)
      requires DistinctPods(considered) && AllKnown(considered, states)
      ensures warm == Labelled(considered, Warm, states) && held == |HeldNames(PodNames(considered), states)|
      ensures held == |hot| + |Labelled(considered, Activating, states)|
      ensures DistinctPods(warm) && AllFrom(warm, 0, Warm, states) && AllIn(warm, PodNames(considered))
      ensures DistinctPods(hot) && AllFrom(hot, 0, Hot, states) && AllIn(hot, PodNames(considered))
    {
      hot, warm, held := Classify(considered);
      LabelledFits(considered, Hot, states);
      LabelledFits(considered, Warm, states);
    }

    lemma Regulates(us: seq<ListedPod>, target: nat, free: map<string, nat>, store: Store, before: map<string, State>, after: map<string, State>,
                    hot: nat)
      requires var held, now := |HeldNames(PodNames(us), before)|, |HeldNames(PodNames(us), after)|;
        && held == hot + |Labelled(us, Activating, before)| && (held < target ==> Consistent(free, store))
        && now == if held < target then Min(target, held + Promotable(NodeNames(nodes), Labelled(us, Warm, before), free))
                  else held - Min(held - target, hot)
      ensures Regulated(us, target, free, store, before, after)
    {
    }

    method Regulate(considered: seq<ListedPod>, settings: Settings)
      returns (ok: bool, blocked: bool, ghost free: map<string, nat>, ghost gone: set<string>)
      requires UniqueNames(nodes) && DistinctPods(considered) && AllKnown(considered, states)
      modifies `calls, `leases, `states, `attempts
      ensures Quiet() && WellNamed(old(leases)) ==>
        var target := TargetHot(|considered|, settings.warm, settings.minHot);
        && ok && Regulated(considered, target, free, old(leases), old(states), states)
        && Followed(old(leases), leases, |HeldNames(PodNames(considered), old(states))|, |HeldNames(PodNames(considered), states)|, gone)
        && (blocked <==> |HeldNames(PodNames(considered), states)| < target)
    {
      var hot, warm, held := Sort(considered);
      var target := TargetHot(|considered|, settings.warm, settings.minHot);
      ok, blocked, free, gone := Settle(hot, warm, held, target, PodNames(considered));
      if Quiet() && WellNamed(old(leases)) {
        Regulates(considered, target, free, old(leases), old(states), states, |hot|);
      }
    }

    /** One pass of the control loop over the listed pods; `failedWait` comes from the sweep before it. */
    method Reconcile(pods: seq<ListedPod>, settings: Settings, failedWait: int)
      returns (ok: bool, requeueAfter: int, ghost labels: map<string, State>, ghost free: map<string, nat>, ghost gone: set<string>)
      requires UniqueNames(nodes) && DistinctPods(pods)
      modifies `calls, `leases, `states, `attempts
      ensures ok ==> 0 < requeueAfter <= Max(BLOCKED_REQUEUE, OrDefault(resync, DEFAULT_RESYNC))
      ensures ok ==> (failedWait > 0 ==> requeueAfter <= failedWait)
      ensures Quiet() && WellNamed(old(leases)) ==>
        var us := ConsideredOf(pods);
        var target := TargetHot(|us|, settings.warm, settings.minHot);
        && ok && Initialised(pods, old(states), labels) && Regulated(us, target, free, old(leases), labels, states)
        && Followed(old(leases), leases, |HeldNames(PodNames(us), labels)|, |HeldNames(PodNames(us), states)|, gone)
        && requeueAfter == MinPositive(
             if |HeldNames(PodNames(us), states)| < target then BLOCKED_REQUEUE else OrDefault(resync, DEFAULT_RESYNC), failedWait)
    {
      requeueAfter, labels, free, gone := 0, states, map[], {};
      var considered;
      ok, considered := ConsiderPods(pods);
      if !ok {
        return;
      }
      labels := states;
      ConsideredDistinct(pods);
      forall k | 0 <= k < |considered| ensures considered[k].name in PodNames(pods) {
        assert considered[k] in considered;
      }
      var blocked;
      ok, blocked, free, gone := Regulate(considered, settings);
      requeueAfter := MinPositive(if blocked then BLOCKED_REQUEUE else OrDefault(resync, DEFAULT_RESYNC), failedWait);
    }
  }
}
