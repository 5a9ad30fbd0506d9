/**
 GPU inventory: what a node has, from its labels, and what is free, from the leases that
 exist. The free ids of one node and the free counts of all nodes are computed by two
 separate loops; both are measured against the same definition of a free id.
 */
module Inventory {
  import opened Names

  const GPU_COUNT := "poc.llm-d.ai/gpu-count"
  const GPU_MODEL := "poc.llm-d.ai/gpu-model"

  datatype Node = Node(name: string, labels: map<string, string>)

  /** The part of a lease the inventory reads: existence alone reserves the id. */
  datatype Slot = Slot(node: string, id: int)

  datatype Result<+T> = Ok(value: T) | NodeNotFound | Malformed | Exhausted

  // Definitions.

  function LabelOr(labels: map<string, string>, key: string): string {
    if key in labels then labels[key] else ""
  }

  function CapacityOf(n: Node): Result<nat> {
    if GPU_COUNT !in n.labels then NodeNotFound
    else
      match ParseInt32(n.labels[GPU_COUNT])
      case None => Malformed
      case Some(v) => if v < 0 then Malformed else Ok(v)
  }

  /** The capacity of the node of that name, if there is one. */
  function Capacity(nodes: seq<Node>, name: string): Result<nat> {
    if nodes == [] then NodeNotFound
    else if nodes[0].name == name then CapacityOf(nodes[0])
    else Capacity(nodes[1..], name)
  }

  predicate UniqueNames(nodes: seq<Node>) {
    forall i, j :: 0 <= i < j < |nodes| ==> nodes[i].name != nodes[j].name
  }

  lemma {:induction false} CapacityAt(nodes: seq<Node>, i: nat)
    requires UniqueNames(nodes) && i < |nodes|
    ensures Capacity(nodes, nodes[i].name) == CapacityOf(nodes[i])
  {
    if i > 0 {
      assert nodes[1..][i - 1] == nodes[i];
      CapacityAt(nodes[1..], i - 1);
    }
  }

  lemma {:induction false} NoCapacity(nodes: seq<Node>, name: string)
    requires forall i :: 0 <= i < |nodes| ==> nodes[i].name != name
    ensures Capacity(nodes, name) == NodeNotFound
  {
    if nodes != [] { NoCapacity(nodes[1..], name); }
  }

  /** The node of that name has the GPU count label, with this value. */
  ghost predicate CountLabel(nodes: seq<Node>, name: string, value: string) {
    exists i :: 0 <= i < |nodes| && nodes[i].name == name && GPU_COUNT in nodes[i].labels && nodes[i].labels[GPU_COUNT] == value
  }

  /** A node labelled with a number has that many GPUs if the number is not negative and fits 32 bits; otherwise it is malformed. */
  lemma CapacityByLabel(nodes: seq<Node>, name: string, c: int)
    requires UniqueNames(nodes) && CountLabel(nodes, name, Print(c))
    ensures Capacity(nodes, name) == if 0 <= c < 0x8000_0000 then Ok(c) else Malformed
  {
    var i :| 0 <= i < |nodes| && nodes[i].name == name && GPU_COUNT in nodes[i].labels && nodes[i].labels[GPU_COUNT] == Print(c);
    CapacityAt(nodes, i);
    ParseInt32Printed(c);
  }

  /** A node without the label, or no node at all, is not found. */
  lemma CapacityWithoutLabel(nodes: seq<Node>, name: string)
    requires UniqueNames(nodes) && forall i :: 0 <= i < |nodes| && nodes[i].name == name ==> GPU_COUNT !in nodes[i].labels
    ensures Capacity(nodes, name) == NodeNotFound
  {
    if forall i :: 0 <= i < |nodes| ==> nodes[i].name != name {
      NoCapacity(nodes, name);
    } else {
      var i :| 0 <= i < |nodes| && nodes[i].name == name;
      CapacityAt(nodes, i);
    }
  }

  /** Some lease holds the id on the node. */
  ghost predicate IsLeased(leases: seq<Slot>, node: string, id: int) {
    exists k :: 0 <= k < |leases| && leases[k].node == node && leases[k].id == id
  }

  lemma UsedIffLeased(leases: seq<Slot>, node: string, id: int)
    ensures id in UsedOn(leases, node) <==> IsLeased(leases, node, id)
  {
  }

  function UsedOn(leases: seq<Slot>, node: string): set<int> {
    set i | 0 <= i < |leases| && leases[i].node == node :: leases[i].id
  }

  /** The free ids below `count`, ascending. */
  function FreeBelow(count: nat, used: set<int>): seq<int> {
    if count == 0 then []
    else FreeBelow(count - 1, used) + (if count - 1 in used then [] else [count - 1])
  }

  /** A node's count is what it is labelled with, less what is leased of that. */
  ghost predicate CountsAs(nodes: seq<Node>, leases: seq<Slot>, out: map<string, nat>, name: string, c: int) {
    CountLabel(nodes, name, Print(c)) && 0 <= c < 0x8000_0000 ==>
      name in out && out[name] + |UsedBelow(c, UsedOn(leases, name))| == c
  }

  lemma CountByLabel(nodes: seq<Node>, leases: seq<Slot>, out: map<string, nat>, name: string, c: int)
    requires UniqueNames(nodes) && (name in out <==> Capacity(nodes, name).Ok?)
    requires name in out ==> out[name] == |FreeBelow(Capacity(nodes, name).value, UsedOn(leases, name))|
    ensures CountsAs(nodes, leases, out, name, c)
  {
    if CountLabel(nodes, name, Print(c)) && 0 <= c < 0x8000_0000 {
      CapacityByLabel(nodes, name, c);
      FreePlusUsed(c, UsedOn(leases, name));
    }
  }

  /** The ids in use among those the node has. */
  function UsedBelow(count: nat, used: set<int>): set<int> {
    set i | i in used && 0 <= i < count
  }

  lemma {:induction false} FreeBelowComplete(count: nat, used: set<int>, id: int)
    ensures id in FreeBelow(count, used) <==> 0 <= id < count && id !in used
  {
    if count > 0 {
      var less, top := FreeBelow(count - 1, used), if count - 1 in used then [] else [count - 1];
      FreeBelowComplete(count - 1, used, id);
      assert id in less + top <==> id in less || id in top;
    }
  }

  predicate Before(ids: seq<int>, i: nat, j: nat)
    requires i < |ids| && j < |ids|
  {
    ids[i] < ids[j]
  }

  ghost predicate Ascending(ids: seq<int>) {
    forall i, j :: 0 <= i < j < |ids| ==> Before(ids, i, j)
  }

  lemma {:induction false} FreeBelowAscends(count: nat, used: set<int>)
    ensures Ascending(FreeBelow(count, used))
  {
    if count > 0 {
      var less := FreeBelow(count - 1, used);
      FreeBelowAscends(count - 1, used);
      forall i | 0 <= i < |less| ensures less[i] < count - 1 {
        FreeBelowComplete(count - 1, used, less[i]);
      }
      OneMoreAscends(less, count - 1);
      assert FreeBelow(count, used) == if count - 1 in used then less else less + [count - 1];
    }
  }

  lemma OneMoreAscends(ids: seq<int>, top: int)
    requires Ascending(ids) && forall i :: 0 <= i < |ids| ==> ids[i] < top
    ensures Ascending(ids + [top])
  {
    var more := ids + [top];
    forall i, j | 0 <= i < j < |more| ensures Before(more, i, j) {
      if j < |ids| { assert Before(ids, i, j); }
    }
  }

  lemma FirstOfAscending(ids: seq<int>, w: int)
    requires Ascending(ids) && w in ids
    ensures ids[0] <= w
  {
    var k :| 0 <= k < |ids| && ids[k] == w;
    if k > 0 { assert Before(ids, 0, k); }
  }

  /** The first free id is the least one. */
  lemma FirstIsLeast(count: nat, used: set<int>)
    ensures var free := FreeBelow(count, used);
      if free == [] then forall w :: 0 <= w < count ==> w in used
      else 0 <= free[0] < count && free[0] !in used && forall w :: 0 <= w < free[0] ==> w in used
  {
    var free := FreeBelow(count, used);
    FreeBelowAscends(count, used);
    forall w | 0 <= w < count && (free == [] || w < free[0]) ensures w in used {
      FreeBelowComplete(count, used, w);
      if w in free { FirstOfAscending(free, w); }
    }
    if free != [] { FreeBelowComplete(count, used, free[0]); }
  }

  /** Conservation: every id in range is free or used. */
  lemma {:induction false} FreePlusUsed(count: nat, used: set<int>)
    ensures |FreeBelow(count, used)| + |UsedBelow(count, used)| == count
  {
    if count == 0 {
      assert UsedBelow(0, used) == {};
    } else {
      FreePlusUsed(count - 1, used);
      var below := UsedBelow(count - 1, used);
      assert UsedBelow(count, used) == if count - 1 in used then below + {count - 1} else below;
    }
  }

  /** Leasing one free id takes exactly that id off the list. */
  lemma {:induction false} LeasingOne(count: nat, used: set<int>, id: int)
    requires 0 <= id < count && id !in used
    ensures |FreeBelow(count, used + {id})| == |FreeBelow(count, used)| - 1
  {
    FreePlusUsed(count, used);
    FreePlusUsed(count, used + {id});
    assert UsedBelow(count, used + {id}) == UsedBelow(count, used) + {id};
  }

  /** The least id of the node that is not in use, Exhausted if there is none, or why the node cannot be read. */
  ghost predicate IsLeast(id: Result<int>, capacity: Result<nat>, used: set<int>) {
    match capacity
    case Ok(count) =>
      (match id
       case Ok(v) => 0 <= v < count && v !in used && forall w :: 0 <= w < v ==> w in used
       case Exhausted => forall w :: 0 <= w < count ==> w in used
       case _ => false)
    case NodeNotFound => id == NodeNotFound
    case _ => id == Malformed
  }

  /** The same of a node by its label and the leases. */
  ghost predicate LeastByLabel(nodes: seq<Node>, leases: seq<Slot>, node: string, c: int, id: Result<int>) {
    CountLabel(nodes, node, Print(c)) && 0 <= c < 0x8000_0000 ==>
      match id
      case Ok(v) => 0 <= v < c && !IsLeased(leases, node, v) && forall w :: 0 <= w < v ==> IsLeased(leases, node, w)
      case Exhausted => forall w :: 0 <= w < c ==> IsLeased(leases, node, w)
      case _ => false
  }

  lemma LeastIsByLabel(nodes: seq<Node>, leases: seq<Slot>, node: string, c: int, id: Result<int>)
    requires UniqueNames(nodes) && IsLeast(id, Capacity(nodes, node), UsedOn(leases, node))
    ensures LeastByLabel(nodes, leases, node, c, id)
  {
    if CountLabel(nodes, node, Print(c)) && 0 <= c < 0x8000_0000 {
      CapacityByLabel(nodes, node, c);
      forall w { UsedIffLeased(leases, node, w); }
    }
  }

  class Client {
    const nodes: seq<Node>
    const leases: seq<Slot>

    constructor (nodes: seq<Node>, leases: seq<Slot>)
      ensures this.nodes == nodes && this.leases == leases
    {
      this.nodes, this.leases := nodes, leases;
    }

    method NodeCapacity(node: string) returns (count: Result<nat>, model: string)
      ensures count == Capacity(nodes, node)
      ensures count.Ok? ==> exists i ::
        && 0 <= i < |nodes| && nodes[i].name == node
        && model == if GPU_MODEL in nodes[i].labels then nodes[i].labels[GPU_MODEL] else ""
      ensures UniqueNames(nodes) ==> forall c :: CountLabel(nodes, node, Print(c)) ==>
        count == if 0 <= c < 0x8000_0000 then Ok(c) else Malformed
    {
      if UniqueNames(nodes) {
        forall c | CountLabel(nodes, node, Print(c)) { CapacityByLabel(nodes, node, c); }
      }
      for i := 0 to |nodes|
        invariant Capacity(nodes, node) == Capacity(nodes[i..], node)
      {
        if nodes[i].name == node {
          return CapacityOf(nodes[i]), LabelOr(nodes[i].labels, GPU_MODEL);
        }
      }
      return NodeNotFound, "";
    }

    method UsedGPUIDs(node: string) returns (used: set<int>)
      ensures used == UsedOn(leases, node)
    {
      used := {};
      for i := 0 to |leases|
        invariant used == UsedOn(leases[..i], node)
      {
        if leases[i].node == node {
          used := used + {leases[i].id};
        }
      }
      assert leases[..|leases|] == leases;
    }

    /** Exactly the ids in [0, count) that no lease holds on the node, strictly ascending. */
    method FreeGPUIDs(node: string) returns (free: Result<seq<int>>)
      ensures match Capacity(nodes, node)
        case Ok(count) =>
          && free == Ok(FreeBelow(count, UsedOn(leases, node)))
          && Ascending(free.value)
          && (forall id :: id in free.value <==> 0 <= id < count && id !in UsedOn(leases, node))
        case NodeNotFound => free == NodeNotFound
        case _ => free == Malformed
      ensures UniqueNames(nodes) ==> forall c :: CountLabel(nodes, node, Print(c)) && 0 <= c < 0x8000_0000 ==>
        free.Ok? && forall id :: id in free.value <==> 0 <= id < c && !IsLeased(leases, node, id)
    {
      if UniqueNames(nodes) {
        forall c | CountLabel(nodes, node, Print(c)) { CapacityByLabel(nodes, node, c); }
      }
      forall id { UsedIffLeased(leases, node, id); }
      var count, _ := NodeCapacity(node);
      match count {
        case Ok(n) =>
          var used := UsedGPUIDs(node);
          var ids: seq<int> := [];
          for id := 0 to n
            invariant ids == FreeBelow(id, used)
          {
            if id !in used {
              ids := ids + [id];
            }
          }
          FreeBelowAscends(n, used);
          forall id { FreeBelowComplete(n, used, id); }
          return Ok(ids);
        case NodeNotFound => return NodeNotFound;
        case _ => return Malformed;
      }
    }

    /** The least free id, or Exhausted exactly when every id of the node is leased. */
    method AllocateID(node: string) returns (id: Result<int>)
      ensures IsLeast(id, Capacity(nodes, node), UsedOn(leases, node))
      ensures UniqueNames(nodes) ==> forall c :: LeastByLabel(nodes, leases, node, c, id)
    {
      var free := FreeGPUIDs(node);
      match free {
        case Ok(ids) =>
          FirstIsLeast(Capacity(nodes, node).value, UsedOn(leases, node));
          id := if |ids| == 0 then Exhausted else Ok(ids[0]);
        case NodeNotFound => id := NodeNotFound;
        case _ => id := Malformed;
      }
      if UniqueNames(nodes) {
        forall c { LeastIsByLabel(nodes, leases, node, c, id); }
      }
    }

    /** The separately counted totals: an entry for each well-labelled node, equal to the length of its free list. */
    method NodeFreeCounts() returns (out: map<string, nat>)
      requires UniqueNames(nodes)
      ensures forall name :: name in out <==> Capacity(nodes, name).Ok?
      ensures forall name :: name in out ==>
        out[name] == |FreeBelow(Capacity(nodes, name).value, UsedOn(leases, name))|
      ensures forall name, c :: CountsAs(nodes, leases, out, name, c)
    {
      out := CountFree();
      forall name, c { CountByLabel(nodes, leases, out, name, c); }
    }

    /** The loops of NodeFreeCounts. */
    method CountFree() returns (out: map<string, nat>)
      requires UniqueNames(nodes)
      ensures forall name :: name in out <==> Capacity(nodes, name).Ok?
      ensures forall name :: name in out ==>
        out[name] == |FreeBelow(Capacity(nodes, name).value, UsedOn(leases, name))|
    {
      var usedByNode := UsedByNode();
      out := map[];
      for i := 0 to |nodes|
        invariant forall name :: name in out ==>
          Capacity(nodes, name).Ok? && out[name] == |FreeBelow(Capacity(nodes, name).value, UsedOn(leases, name))|
        invariant forall k :: 0 <= k < i && CapacityOf(nodes[k]).Ok? ==> nodes[k].name in out
      {
        var n := nodes[i];
        CapacityAt(nodes, i);
        match CapacityOf(n) {
          case Ok(count) =>
            var used := if n.name in usedByNode then usedByNode[n.name] else {};
            var free := 0;
            for id := 0 to count
              invariant free == |FreeBelow(id, used)|
            {
              if id !in used {
                free := free + 1;
              }
            }
            out := out[n.name := free];
          case _ =>
        }
      }
      forall name | Capacity(nodes, name).Ok? ensures name in out {
        if forall i :: 0 <= i < |nodes| ==> nodes[i].name != name { NoCapacity(nodes, name); }
        var i :| 0 <= i < |nodes| && nodes[i].name == name;
        CapacityAt(nodes, i);
      }
    }

    method UsedByNode() returns (used: map<string, set<int>>)
      ensures forall name :: (if name in used then used[name] else {}) == UsedOn(leases, name)
    {
      used := map[];
      for i := 0 to |leases|
        invariant forall name :: (if name in used then used[name] else {}) == UsedOn(leases[..i], name)
      {
        var l := leases[i];
        if l.node !in used {
          used := used[l.node := {}];
        }
        used := used[l.node := used[l.node] + {l.id}];
      }
      assert leases[..|leases|] == leases;
    }
  }
}
