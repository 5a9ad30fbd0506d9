/**
 The warm pool's arithmetic and orderings: how many pods should be hot, in which order warm
 pods are promoted and in which order hot pods are demoted.
 */
module Pods {
  import Objects

  datatype State = Warm | Activating | Hot | Releasing

  /** An item of the Deployment's pod list. Its state label is kept apart, since the pool changes it. */
  datatype ListedPod = ListedPod(name: string, uid: nat, node: string, created: int, running: bool, ready: bool, terminating: bool)

  predicate Counted(p: ListedPod) {
    Objects.Counts(p.node, p.running, p.ready, p.terminating)
  }

  predicate Held(s: State) {
    s == Hot || s == Activating
  }

  /** clamp(ready - warm, minHot, ready), floor first. */
  function TargetHot(ready: nat, warm: nat, minHot: nat): (t: nat)
    ensures t <= ready
    ensures t >= minHot || t == ready
    ensures ready >= minHot + warm ==> ready - t == warm
    ensures ready < minHot + warm ==> t == if minHot < ready then minHot else ready
  {
    var t: int := ready - warm;
    var floored := if t < minHot then minHot else t;
    if floored > ready then ready else floored
  }

  // Stable sorting.

  /** Both orderings of the source compare one or two numbers. */
  datatype Key = Key(major: int, minor: int) {
    predicate Less(k: Key) {
      major < k.major || (major == k.major && minor < k.minor)
    }
  }

  /** Position i of the input goes before position j in the output of a stable sort. */
  predicate Before(keys: seq<Key>, i: nat, j: nat)
    requires i < |keys| && j < |keys|
  {
    keys[i].Less(keys[j]) || (keys[i] == keys[j] && i < j)
  }

  predicate IsPermutation(p: seq<nat>, n: nat) {
    && |p| == n
    && (forall i :: 0 <= i < n ==> p[i] < n)
    && (forall i, j :: 0 <= i < j < n ==> p[i] != p[j])
  }

  /** p lists the input positions in stable sorted order. */
  predicate StableOrder(keys: seq<Key>, p: seq<nat>) {
    && IsPermutation(p, |keys|)
    && forall i, j :: 0 <= i < j < |p| ==> Before(keys, p[i], p[j])
  }

  /** A permutation of n numbers below n misses none. */
  lemma {:induction false} Onto(p: seq<nat>, n: nat, v: nat) returns (i: nat)
    requires IsPermutation(p, n) && v < n
    ensures i < n && p[i] == v
    decreases n
  {
    var last := p[n - 1];
    if last == v {
      return n - 1;
    }
    var r := seq(n - 1, k requires 0 <= k < n - 1 => if p[k] == n - 1 then last else p[k]);
    i := Onto(r, n - 1, if v == n - 1 then last else v);
  }

  /** There is only one stable order, so it does not matter which stable sort computes it. */
  lemma StableOrderUnique(keys: seq<Key>, p: seq<nat>, q: seq<nat>)
    requires StableOrder(keys, p) && StableOrder(keys, q)
    ensures p == q
  {
    for k := 0 to |p|
      invariant forall i :: 0 <= i < k ==> p[i] == q[i]
    {
      var m := Onto(q, |keys|, p[k]);
      var l := Onto(p, |keys|, q[k]);
    }
  }

  /** In place, `a` holds `s` rearranged by p. */
  ghost predicate Rearranged(a: seq<ListedPod>, s: seq<ListedPod>, p: seq<nat>) {
    && |a| == |s| && IsPermutation(p, |s|)
    && forall k :: 0 <= k < |s| ==> a[k] == s[p[k]]
  }

  ghost predicate Ascending(keys: seq<Key>, p: seq<nat>, n: nat) {
    && n <= |p| == |keys|
    && (forall k :: 0 <= k < |p| ==> p[k] < |keys|)
    && forall x, y :: 0 <= x < y < n ==> Before(keys, p[x], p[y])
  }

  ghost function Keys(s: seq<ListedPod>, key: ListedPod -> Key): (keys: seq<Key>)
    ensures |keys| == |s| && forall i :: 0 <= i < |s| ==> keys[i] == key(s[i])
  {
    seq(|s|, i requires 0 <= i < |s| => key(s[i]))
  }

  ghost function Swapped<T>(s: seq<T>, j: nat): seq<T>
    requires 0 < j < |s|
  {
    s[j := s[j - 1]][j - 1 := s[j]]
  }

  lemma SwapRearranged(a: seq<ListedPod>, s: seq<ListedPod>, p: seq<nat>, j: nat)
    requires Rearranged(a, s, p) && 0 < j < |a|
    ensures Rearranged(Swapped(a, j), s, Swapped(p, j))
  {
  }

  /** Input i has sunk to j; the others up to i are in order, and so is i with those it passed. */
  ghost predicate Sinking(keys: seq<Key>, p: seq<nat>, i: nat, j: nat) {
    && j <= i < |p| == |keys|
    && IsPermutation(p, |p|)
    && p[j] == i
    && (forall k :: 0 <= k <= i ==> p[k] <= i)
    && (forall k :: i < k < |p| ==> p[k] == k)
    && (forall x, y :: 0 <= x < y <= i && x != j && y != j ==> Before(keys, p[x], p[y]))
    && (forall y :: j < y <= i ==> Before(keys, p[j], p[y]))
  }

  lemma SinkFurther(keys: seq<Key>, p: seq<nat>, i: nat, j: nat)
    requires Sinking(keys, p, i, j) && j > 0 && keys[p[j]].Less(keys[p[j - 1]])
    ensures Sinking(keys, Swapped(p, j), i, j - 1)
  {
  }

  lemma Sunk(keys: seq<Key>, p: seq<nat>, i: nat, j: nat)
    requires Sinking(keys, p, i, j) && (j > 0 ==> !keys[p[j]].Less(keys[p[j - 1]]))
    ensures Ascending(keys, p, i + 1)
  {
    if j > 0 {
      assert p[j - 1] != p[j];
      assert Before(keys, p[j - 1], p[j]);
      assert forall x :: 0 <= x < j - 1 ==> Before(keys, p[x], p[j - 1]);
    }
  }

  /** Sinks element i of the input, which is at position i, to its place among those before it. */
  method Insert(a: array<ListedPod>, key: ListedPod -> Key, i: nat, ghost s: seq<ListedPod>, ghost p0: seq<nat>) returns (ghost p: seq<nat>)
    requires i < a.Length && Rearranged(a[..], s, p0) && Ascending(Keys(s, key), p0, i)
    requires (forall k :: 0 <= k < i ==> p0[k] < i) && (forall k :: i <= k < |s| ==> p0[k] == k)
    modifies a
    ensures Rearranged(a[..], s, p) && Ascending(Keys(s, key), p, i + 1)
    ensures (forall k :: 0 <= k <= i ==> p[k] <= i) && (forall k :: i < k < |s| ==> p[k] == k)
  {
    ghost var keys := Keys(s, key);
    p := p0;
    var j: nat := i;
    while j > 0 && key(a[j]).Less(key(a[j - 1]))
      invariant Rearranged(a[..], s, p) && Sinking(keys, p, i, j)
    {
      assert a[..][j] == s[p[j]] && a[..][j - 1] == s[p[j - 1]];
      SwapRearranged(a[..], s, p, j);
      SinkFurther(keys, p, i, j);
      ghost var before := a[..];
      a[j], a[j - 1] := a[j - 1], a[j];
      assert a[..] == Swapped(before, j);
      p := Swapped(p, j);
      j := j - 1;
    }
    assert j > 0 ==> a[..][j] == s[p[j]] && a[..][j - 1] == s[p[j - 1]];
    Sunk(keys, p, i, j);
  }

  /** Stable sort in place; p is where each element came from. */
  method SortStable(a: array<ListedPod>, key: ListedPod -> Key) returns (ghost p: seq<nat>)
    modifies a
    ensures Rearranged(a[..], old(a[..]), p) && StableOrder(Keys(old(a[..]), key), p)
  {
    ghost var s := a[..];
    p := seq(|s|, i => i);
    var i := 0;
    while i < a.Length
      invariant 0 <= i <= a.Length && Rearranged(a[..], s, p) && Ascending(Keys(s, key), p, i)
      invariant (forall k :: 0 <= k < i ==> p[k] < i) && (forall k :: i <= k < |s| ==> p[k] == k)
    {
      p := Insert(a, key, i, s, p);
      i := i + 1;
    }
  }

  // Candidates.

  function NewestFirst(pod: ListedPod): Key {
    Key(-pod.created, 0)
  }

  /** `out` is `pods` in the stable order of the keys. */
  ghost predicate StablySorted(out: seq<ListedPod>, pods: seq<ListedPod>, key: ListedPod -> Key) {
    exists p :: Rearranged(out, pods, p) && StableOrder(Keys(pods, key), p)
  }

  /** Equal keys or not, the keys never descend. */
  lemma SortedKeys(out: seq<ListedPod>, pods: seq<ListedPod>, key: ListedPod -> Key, i: nat, j: nat)
    requires StablySorted(out, pods, key) && i < j < |out|
    ensures !key(out[j]).Less(key(out[i]))
  {
    var p :| Rearranged(out, pods, p) && StableOrder(Keys(pods, key), p);
    assert Before(Keys(pods, key), p[i], p[j]);
  }

  /** The hot pods newest first, pods of the same age in input order. */
  method SortDemotionCandidates(pods: seq<ListedPod>) returns (out: seq<ListedPod>)
    ensures StablySorted(out, pods, NewestFirst)
    ensures forall i, j :: 0 <= i < j < |out| ==> out[i].created >= out[j].created
  {
    var a := new ListedPod[|pods|](i requires 0 <= i < |pods| => pods[i]);
    assert a[..] == pods;
    ghost var p := SortStable(a, NewestFirst);
    out := a[..];
    forall i, j | 0 <= i < j < |out| ensures out[i].created >= out[j].created {
      SortedKeys(out, pods, NewestFirst, i, j);
    }
  }

  function FreeOn(free: map<string, nat>, node: string): nat {
    if node in free then free[node] else 0
  }

  function FreestThenOldest(free: map<string, nat>): ListedPod -> Key {
    (pod: ListedPod) => Key(0 - FreeOn(free, pod.node), pod.created)
  }

  /** The pods that sit on a node with a free GPU, in input order. */
  function Eligible(pods: seq<ListedPod>, free: map<string, nat>): (out: seq<ListedPod>)
    ensures forall q :: q in out <==> q in pods && FreeOn(free, q.node) > 0
  {
    if pods == [] then []
    else
      var front, last := pods[..|pods| - 1], pods[|pods| - 1];
      assert forall q :: q in pods <==> q in front || q == last;
      Eligible(front, free) + (if FreeOn(free, last.node) > 0 then [last] else [])
  }

  /** Eligible pods, freest node first, then oldest pod first, then input order. */
  method SortPromotionCandidates(pods: seq<ListedPod>, free: map<string, nat>) returns (out: seq<ListedPod>)
    ensures StablySorted(out, Eligible(pods, free), FreestThenOldest(free))
    ensures forall i, j :: 0 <= i < j < |out| ==>
      var fi, fj := FreeOn(free, out[i].node), FreeOn(free, out[j].node);
      fi > fj || (fi == fj && out[i].created <= out[j].created)
  {
    var eligible: seq<ListedPod> := [];
    for i := 0 to |pods|
      invariant eligible == Eligible(pods[..i], free)
    {
      assert pods[..i + 1][..i] == pods[..i];
      if FreeOn(free, pods[i].node) > 0 {
        eligible := eligible + [pods[i]];
      }
    }
    assert pods[..|pods|] == pods;
    var a := new ListedPod[|eligible|](i requires 0 <= i < |eligible| => eligible[i]);
    assert a[..] == eligible;
    ghost var p := SortStable(a, FreestThenOldest(free));
    out := a[..];
    forall i, j | 0 <= i < j < |out|
      ensures !FreestThenOldest(free)(out[j]).Less(FreestThenOldest(free)(out[i]))
    {
      SortedKeys(out, eligible, FreestThenOldest(free), i, j);
    }
  }
}
