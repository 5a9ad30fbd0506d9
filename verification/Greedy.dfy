/**
 How many warm pods can be promoted: per node, no more than it has warm pods and no more
 than it has free GPUs. A promotion loop that takes pods one at a time, in any order,
 reaches this number.
 */
module Greedy {
  import opened Bounds
  import opened Pods

  ghost function Spots(pods: seq<ListedPod>, node: string): set<nat> {
    set i: nat | i < |pods| && pods[i].node == node
  }

  ghost function PodsOn(pods: seq<ListedPod>, node: string): nat {
    |Spots(pods, node)|
  }

  predicate NoDuplicates(names: seq<string>) {
    forall i, j :: 0 <= i < j < |names| ==> names[i] != names[j]
  }

  /** The sum over `nodes` of min(pods on the node, GPUs free on the node). */
  ghost function Promotable(nodes: seq<string>, pods: seq<ListedPod>, free: map<string, nat>): nat {
    if nodes == [] then 0
    else
      var n := nodes[|nodes| - 1];
      Promotable(nodes[..|nodes| - 1], pods, free) + Min(PodsOn(pods, n), FreeOn(free, n))
  }

  lemma OneMore(pods: seq<ListedPod>, pod: ListedPod, node: string)
    ensures PodsOn(pods + [pod], node) == PodsOn(pods, node) + if pod.node == node then 1 else 0
  {
    var more := pods + [pod];
    assert Spots(more, node) == if pod.node == node then Spots(pods, node) + {|pods|} else Spots(pods, node);
  }

  lemma {:induction false} PromotableStep(nodes: seq<string>, pods: seq<ListedPod>, pod: ListedPod, free: map<string, nat>)
    requires NoDuplicates(nodes)
    ensures Promotable(nodes, pods + [pod], free) == Promotable(nodes, pods, free)
              + if pod.node in nodes && PodsOn(pods, pod.node) < FreeOn(free, pod.node) then 1 else 0
  {
    if nodes != [] {
      var front, n := nodes[..|nodes| - 1], nodes[|nodes| - 1];
      PromotableStep(front, pods, pod, free);
      OneMore(pods, pod, n);
      assert pod.node in nodes <==> pod.node in front || pod.node == n;
    }
  }

  lemma {:induction false} NothingPromotable(nodes: seq<string>, free: map<string, nat>)
    ensures Promotable(nodes, [], free) == 0
  {
    if nodes != [] {
      NothingPromotable(nodes[..|nodes| - 1], free);
      assert Spots([], nodes[|nodes| - 1]) == {};
    }
  }

  /** Only what counts per node matters. */
  lemma {:induction false} SamePromotable(nodes: seq<string>, pods: seq<ListedPod>, others: seq<ListedPod>, free: map<string, nat>)
    requires forall n :: n in nodes && FreeOn(free, n) > 0 ==> PodsOn(pods, n) == PodsOn(others, n)
    ensures Promotable(nodes, pods, free) == Promotable(nodes, others, free)
  {
    if nodes != [] { SamePromotable(nodes[..|nodes| - 1], pods, others, free); }
  }

  lemma {:induction false} FewerPromotable(nodes: seq<string>, pods: seq<ListedPod>, k: nat, free: map<string, nat>)
    requires k <= |pods|
    ensures Promotable(nodes, pods[..k], free) <= Promotable(nodes, pods, free)
  {
    if nodes != [] {
      var n := nodes[|nodes| - 1];
      FewerPromotable(nodes[..|nodes| - 1], pods, k, free);
      SubsetSize(Spots(pods[..k], n), Spots(pods, n));
    }
  }

  lemma SubsetSize(a: set<nat>, b: set<nat>)
    requires a <= b
    ensures |a| <= |b|
  {
    assert b == a + (b - a);
  }

  ghost function Image(a: set<nat>, p: seq<nat>): set<nat>
    requires forall i :: i in a ==> i < |p|
  {
    set i | i in a :: p[i]
  }

  /** An injective renumbering of a set has as many elements. */
  lemma {:induction false} ImageSize(a: set<nat>, p: seq<nat>)
    requires forall i :: i in a ==> i < |p|
    requires forall i, j :: i in a && j in a && i != j ==> p[i] != p[j]
    ensures |Image(a, p)| == |a|
  {
    if a == {} {
      assert Image(a, p) == {};
    } else {
      var i :| i in a;
      ImageSize(a - {i}, p);
      assert Image(a, p) == Image(a - {i}, p) + {p[i]};
    }
  }

  lemma RearrangedPodsOn(out: seq<ListedPod>, pods: seq<ListedPod>, p: seq<nat>, node: string)
    requires Rearranged(out, pods, p)
    ensures PodsOn(out, node) == PodsOn(pods, node)
  {
    ImageSize(Spots(out, node), p);
    forall k: nat | k in Spots(pods, node) ensures k in Image(Spots(out, node), p) {
      var i := Onto(p, |pods|, k);
      assert i in Spots(out, node);
    }
    assert Image(Spots(out, node), p) == Spots(pods, node);
  }

  lemma {:induction false} EligiblePodsOn(pods: seq<ListedPod>, free: map<string, nat>, node: string)
    requires FreeOn(free, node) > 0
    ensures PodsOn(Eligible(pods, free), node) == PodsOn(pods, node)
  {
    if pods != [] {
      var front, last := pods[..|pods| - 1], pods[|pods| - 1];
      EligiblePodsOn(front, free, node);
      OneMore(front, last, node);
      assert front + [last] == pods;
      if FreeOn(free, last.node) > 0 { OneMore(Eligible(front, free), last, node); }
      assert Eligible(front, free) + [] == Eligible(front, free);
    }
  }

  /** Filtering and sorting the candidates does not change how many can be promoted. */
  lemma CandidatesPromotable(nodes: seq<string>, out: seq<ListedPod>, pods: seq<ListedPod>, free: map<string, nat>, p: seq<nat>)
    requires Rearranged(out, Eligible(pods, free), p)
    ensures Promotable(nodes, out, free) == Promotable(nodes, pods, free)
  {
    forall n | n in nodes && FreeOn(free, n) > 0 ensures PodsOn(out, n) == PodsOn(pods, n) {
      RearrangedPodsOn(out, Eligible(pods, free), p, n);
      EligiblePodsOn(pods, free, n);
    }
    SamePromotable(nodes, out, pods, free);
  }
}
