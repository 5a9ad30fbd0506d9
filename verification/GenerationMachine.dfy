/**
 The pod's Machine as it is written: one lock, a generation counter, and timers that are
 armed after the lock is released and whose callbacks cannot be recalled. A callback
 compares the generation it captured with the current one and gives up when it is stale.

 The class is the code under the lock. The transition system `Async` around it lets any
 number of callers, arming threads and callbacks interleave; it refines PodMachine.
 */
module GenerationMachine {
  import opened Options
  import opened PodMachine

  datatype State = StateWarm | StateActivating | StateHot | StateReleasing

  /** The fields guarded by the lock. */
  datatype Core = Core(state: State, leaseName: string, node: string, gpuID: int, gpuModel: string, gen: nat)

  /** A timer callback with the generation it captured. */
  datatype Callback = Callback(timer: Timer, gen: nat)

  const INITIAL: Core := Core(StateWarm, "", "", -1, "", 0)

  // What one lock section does, as values.

  function Cleared(c: Core): Core {
    c.(leaseName := "", node := "", gpuID := -1, gpuModel := "")
  }

  function Activated(c: Core, r: Request, own: string): (Core, Answer, Option<Callback>) {
    if r.node != own then (c, NodeMismatch, None)
    else
      match c.state
      case StateActivating | StateHot =>
        (c, if r.lease == c.leaseName then Accepted else LeaseConflict, None)
      case StateReleasing => (c, LeaseConflict, None)
      case StateWarm =>
        (Core(StateActivating, r.lease, r.node, r.gpu, r.model, c.gen + 1), Accepted,
         Some(Callback(WarmupTimer, c.gen + 1)))
  }

  function Released(c: Core): (Core, Option<Callback>) {
    match c.state
    case StateWarm | StateReleasing => (c, None)
    case StateActivating => (Cleared(c).(state := StateWarm, gen := c.gen + 1), None)
    case StateHot =>
      (c.(state := StateReleasing, gen := c.gen + 1), Some(Callback(TeardownTimer, c.gen + 1)))
  }

  function WarmedUp(c: Core, gen: nat): Core {
    if c.gen != gen || c.state != StateActivating then c else c.(state := StateHot)
  }

  function TornDown(c: Core, gen: nat): Core {
    if c.gen != gen || c.state != StateReleasing then c else Cleared(c).(state := StateWarm)
  }

  /** The reference state of a core. */
  function Abs(c: Core): PodMachine.Machine {
    var r := Request(c.leaseName, c.node, c.gpuID, c.gpuModel);
    match c.state
    case StateWarm => Warm
    case StateActivating => WarmingUp(r)
    case StateHot => Hot(r)
    case StateReleasing => TearingDown(r)
  }

  /** The callback that is to end the wait of a core that waits. */
  function Awaited(c: Core): Callback
    requires Abs(c).Waiting()
  {
    Callback(Abs(c).Running(), c.gen)
  }

  /**
   How the code keeps its one live timer: whenever the reference machine moves, other than by that
   timer, the generation goes up by one, so that every callback from before is stale; a callback is
   armed exactly when a wait begins, for that wait.
   */
  predicate Supersedes(before: Core, after: Core, arm: Option<Callback>) {
    if Abs(after) == Abs(before) then after == before && arm.None?
    else after.gen == before.gen + 1 && arm == if Abs(after).Waiting() then Some(Awaited(after)) else None
  }

  /** What a callback that captured a generation does: it ends the wait it was armed for, or it is stale and does nothing. */
  predicate Completes(before: Core, after: Core, c: Callback) {
    if Abs(before).Waiting() && c == Awaited(before) then Abs(after) == Abs(before).Expire() && after.gen == before.gen
    else after == before
  }

  class Machine {
    var state: State
    var leaseName: string
    var node: string
    var gpuID: int
    var gpuModel: string
    var gen: nat

    function Value(): Core
      reads this
    {
      Core(state, leaseName, node, gpuID, gpuModel, gen)
    }

    constructor ()
      ensures Value() == INITIAL
    {
      state, leaseName, node, gpuID, gpuModel, gen := StateWarm, "", "", -1, "", 0;
    }

    /** POST /lease; the callback returned is armed by the caller, after the lock is released. */
    method Activate(r: Request, ownNode: string) returns (answer: Answer, arm: Option<Callback>)
      modifies this
      ensures (Abs(Value()), answer) == Abs(old(Value())).Activate(r, ownNode)
      ensures Supersedes(old(Value()), Value(), arm)
      ensures (Value(), answer, arm) == Activated(old(Value()), r, ownNode)
    {
      if r.node != ownNode {
        return NodeMismatch, None;
      }
      match state {
        case StateActivating | StateHot =>
          if r.lease == leaseName {
            return Accepted, None;
          }
          return LeaseConflict, None;
        case StateReleasing =>
          return LeaseConflict, None;
        case StateWarm =>
      }
      gen := gen + 1;
      leaseName := r.lease;
      node := r.node;
      gpuID := r.gpu;
      gpuModel := r.model;
      state := StateActivating;
      return Accepted, Some(Callback(WarmupTimer, gen));
    }

    method CompleteWarmup(captured: nat)
      modifies this
      ensures Completes(old(Value()), Value(), Callback(WarmupTimer, captured))
      ensures Value() == WarmedUp(old(Value()), captured)
    {
      if gen != captured || state != StateActivating {
        return;
      }
      state := StateHot;
    }

    /** DELETE /lease. */
    method Release() returns (arm: Option<Callback>)
      modifies this
      ensures Abs(Value()) == Abs(old(Value())).Release() && Supersedes(old(Value()), Value(), arm)
      ensures (Value(), arm) == Released(old(Value()))
    {
      match state {
        case StateWarm | StateReleasing =>
          return None;
        case StateActivating =>
          gen := gen + 1;
          ClearLease();
          state := StateWarm;
          return None;
        case StateHot =>
      }
      gen := gen + 1;
      state := StateReleasing;
      return Some(Callback(TeardownTimer, gen));
    }

    method CompleteTeardown(captured: nat)
      modifies this
      ensures Completes(old(Value()), Value(), Callback(TeardownTimer, captured))
      ensures Value() == TornDown(old(Value()), captured)
    {
      if gen != captured || state != StateReleasing {
        return;
      }
      ClearLease();
      state := StateWarm;
    }

    /** As new, but for the state and the generation. */
    method ClearLease()
      modifies this
      ensures Value() == INITIAL.(state := old(state), gen := old(gen)) == Cleared(old(Value()))
    {
      leaseName := "";
      node := "";
      gpuID := -1;
      gpuModel := "";
    }
  }

  // Interleavings.

  /** `arming` are the threads between unlocking and arming; `armed` are the timers set. */
  datatype Async = Async(core: Core, arming: multiset<Callback>, armed: multiset<Callback>)

  datatype Label = Post(r: Request) | Delete | Arm(c: Callback) | Fire(c: Callback)

  function Bag(c: Option<Callback>): multiset<Callback> {
    if c.Some? then multiset{c.value} else multiset{}
  }

  predicate Enabled(a: Async, l: Label) {
    match l
    case Post(_) => true
    case Delete => true
    case Arm(c) => c in a.arming
    case Fire(c) => c in a.armed
  }

  function Next(a: Async, l: Label, own: string): Async
    requires Enabled(a, l)
  {
    match l
    case Post(r) =>
      var (core, _, arm) := Activated(a.core, r, own);
      a.(core := core, arming := a.arming + Bag(arm))
    case Delete =>
      var (core, arm) := Released(a.core);
      a.(core := core, arming := a.arming + Bag(arm))
    case Arm(c) =>
      a.(arming := a.arming - multiset{c}, armed := a.armed + multiset{c})
    case Fire(c) =>
      var core := if c.timer.WarmupTimer? then WarmedUp(a.core, c.gen) else TornDown(a.core, c.gen);
      a.(core := core, armed := a.armed - multiset{c})
  }

  function Outstanding(a: Async): multiset<Callback> {
    a.arming + a.armed
  }

  /**
   No callback is from the future; one of the current generation exists exactly when the
   reference machine's timer runs, exactly once, and is of that timer's kind; a warm core
   has forgotten its lease.
   */
  ghost predicate Inv(a: Async) {
    && (forall c :: c in Outstanding(a) ==> c.gen <= a.core.gen)
    && (forall c :: c in Outstanding(a) && c.gen == a.core.gen ==>
          Abs(a.core).Waiting() && c.timer == Abs(a.core).Running())
    && (Abs(a.core).Waiting() ==> Outstanding(a)[Callback(Abs(a.core).Running(), a.core.gen)] == 1)
    && (a.core.state.StateWarm? ==> a.core == Cleared(a.core))
  }

  /** What a label is in the reference machine: the same call, the timer's expiry, or nothing. */
  ghost predicate Simulates(a: Async, l: Label, own: string, m: PodMachine.Machine) {
    match l
    case Post(r) =>
      && m == Abs(a.core).Activate(r, own).0
      && Activated(a.core, r, own).1 == Abs(a.core).Activate(r, own).1
    case Delete => m == Abs(a.core).Release()
    case Arm(_) => m == Abs(a.core)
    case Fire(c) =>
      if c.gen == a.core.gen
      then Abs(a.core).Waiting() && c.timer == Abs(a.core).Running() && m == Abs(a.core).Expire()
      else m == Abs(a.core)
  }

  lemma StartInv()
    ensures Inv(Async(INITIAL, multiset{}, multiset{}))
  {
  }

  lemma PostStep(a: Async, r: Request, own: string)
    requires Inv(a)
    ensures Inv(Next(a, Post(r), own))
    ensures Simulates(a, Post(r), own, Abs(Next(a, Post(r), own).core))
  {
    var b := Next(a, Post(r), own);
    var (_, _, arm) := Activated(a.core, r, own);
    assert Outstanding(b) == Outstanding(a) + Bag(arm);
  }

  lemma DeleteStep(a: Async, own: string)
    requires Inv(a)
    ensures Inv(Next(a, Delete, own))
    ensures Simulates(a, Delete, own, Abs(Next(a, Delete, own).core))
  {
    var b := Next(a, Delete, own);
    var (_, arm) := Released(a.core);
    assert Outstanding(b) == Outstanding(a) + Bag(arm);
  }

  lemma ArmStep(a: Async, c: Callback, own: string)
    requires Inv(a) && c in a.arming
    ensures Inv(Next(a, Arm(c), own))
    ensures Simulates(a, Arm(c), own, Abs(Next(a, Arm(c), own).core))
  {
    assert Outstanding(Next(a, Arm(c), own)) == Outstanding(a);
  }

  lemma FireStep(a: Async, c: Callback, own: string)
    requires Inv(a) && c in a.armed
    ensures Inv(Next(a, Fire(c), own))
    ensures Simulates(a, Fire(c), own, Abs(Next(a, Fire(c), own).core))
  {
    assert c in Outstanding(a);
    var b := Next(a, Fire(c), own);
    assert Outstanding(b) == Outstanding(a) - multiset{c};
    assert forall d :: d in Outstanding(b) ==> d in Outstanding(a);
    assert b.core.gen == a.core.gen;
    if c.gen == a.core.gen {
      assert c == Callback(Abs(a.core).Running(), a.core.gen);
      assert c !in Outstanding(b);
    }
  }

  /** Refinement, one step of any thread at a time. */
  lemma Refines(a: Async, l: Label, own: string)
    requires Inv(a) && Enabled(a, l)
    ensures Inv(Next(a, l, own))
    ensures Simulates(a, l, own, Abs(Next(a, l, own).core))
  {
    match l
    case Post(r) => PostStep(a, r, own);
    case Delete => DeleteStep(a, own);
    case Arm(c) => ArmStep(a, c, own);
    case Fire(c) => FireStep(a, c, own);
  }

  // Runs.

  datatype Run = Run(own: string, states: seq<Async>, labels: seq<Label>)

  ghost predicate StepAt(run: Run, i: nat)
    requires |run.states| == |run.labels| + 1 && i < |run.labels|
  {
    Enabled(run.states[i], run.labels[i]) && run.states[i + 1] == Next(run.states[i], run.labels[i], run.own)
  }

  ghost predicate IsRun(run: Run) {
    && |run.states| == |run.labels| + 1
    && run.states[0] == Async(INITIAL, multiset{}, multiset{})
    && forall i :: 0 <= i < |run.labels| ==> StepAt(run, i)
  }

  function At(run: Run, i: nat): PodMachine.Machine
    requires i < |run.states|
  {
    Abs(run.states[i].core)
  }

  lemma {:induction false} RunInv(run: Run, i: nat)
    requires IsRun(run) && i < |run.states|
    ensures Inv(run.states[i])
  {
    if i == 0 {
      StartInv();
    } else {
      RunInv(run, i - 1);
      assert StepAt(run, i - 1);
      Refines(run.states[i - 1], run.labels[i - 1], run.own);
    }
  }

  /**
   In every interleaving, from any state on: every step is a step of the reference machine or
   invisible to it; a stale callback changes nothing; and while the reference timer runs there is
   exactly one callback that can expire it, arming or armed, and otherwise none.
   */
  lemma RunRefines(run: Run, i: nat)
    requires IsRun(run) && i < |run.labels|
    ensures Simulates(run.states[i], run.labels[i], run.own, At(run, i + 1))
    ensures run.labels[i].Fire? && run.labels[i].c.gen != run.states[i].core.gen ==>
              run.states[i + 1].core == run.states[i].core
    ensures forall c :: c in Outstanding(run.states[i]) && c.gen == run.states[i].core.gen ==>
              At(run, i).Waiting() && c.timer == At(run, i).Running()
    ensures At(run, i).Waiting() ==>
              Outstanding(run.states[i])[Callback(At(run, i).Running(), run.states[i].core.gen)] == 1
  {
    RunInv(run, i);
    assert StepAt(run, i);
    Refines(run.states[i], run.labels[i], run.own);
  }

  lemma BeginsWarming(a: Async, l: Label, own: string)
    requires Inv(a) && Enabled(a, l) && Abs(Next(a, l, own).core).WarmingUp?
    ensures
      || Abs(Next(a, l, own).core) == Abs(a.core)
      || (Abs(a.core).Warm? && l == Post(Abs(Next(a, l, own).core).req))
  {
    Refines(a, l, own);
  }

  lemma WarmingStep(run: Run, i: nat)
    requires IsRun(run) && i < |run.labels| && At(run, i + 1).WarmingUp?
    ensures At(run, i + 1) == At(run, i) || (At(run, i).Warm? && run.labels[i] == Post(At(run, i + 1).req))
  {
    RunInv(run, i);
    assert StepAt(run, i);
    BeginsWarming(run.states[i], run.labels[i], run.own);
  }

  /** A warming pod was asked to warm up by one request, and nothing has touched it since. */
  lemma {:induction false} WarmingSince(run: Run, i: nat) returns (j: nat)
    requires IsRun(run) && i < |run.states| && At(run, i).WarmingUp?
    ensures j < i && run.labels[j] == Post(At(run, i).req) && At(run, j).Warm?
    ensures forall k :: j < k <= i ==> At(run, k) == At(run, i)
  {
    WarmingStep(run, i - 1);
    if At(run, i - 1) == At(run, i) {
      j := WarmingSince(run, i - 1);
    } else {
      j := i - 1;
    }
  }

  /** Step i is a POST that is answered Accepted. */
  predicate Accepts(run: Run, i: nat)
    requires i < |run.labels| && i < |run.states|
  {
    run.labels[i].Post? && Activated(run.states[i].core, run.labels[i].r, run.own).1.Accepted?
  }

  lemma AcceptsSameLease(run: Run, i: nat)
    requires IsRun(run) && i < |run.labels| && At(run, i).WarmingUp? && Accepts(run, i)
    ensures run.labels[i].r.lease == At(run, i).req.lease
  {
    RunRefines(run, i);
  }

  /**
   A pod turns hot only on the request it accepted while warm, warming for it at every instant since:
   no release took effect, and every request accepted since then names the same lease.
   */
  lemma HotOnRequestAcceptedWhileWarm(run: Run, i: nat) returns (j: nat)
    requires IsRun(run) && i < |run.labels|
    requires !At(run, i).Hot? && At(run, i + 1).Hot?
    ensures j < i && run.labels[j] == Post(At(run, i + 1).req) && At(run, j).Warm? && Accepts(run, j)
    ensures forall k :: j < k <= i ==> At(run, k) == WarmingUp(At(run, i + 1).req)
    ensures forall k :: j < k <= i && Accepts(run, k) ==> run.labels[k].r.lease == At(run, i + 1).req.lease
  {
    RunRefines(run, i);
    j := WarmingSince(run, i);
    RunRefines(run, j);
    forall k | j < k <= i && Accepts(run, k) ensures run.labels[k].r.lease == At(run, i + 1).req.lease {
      AcceptsSameLease(run, k);
    }
  }

  /** Nobody waits for a timer that is not there: firing (after arming, if need be) expires it. */
  lemma TimerArrives(a: Async, own: string) returns (c: Callback, b: Async)
    requires Inv(a) && Abs(a.core).Waiting()
    ensures c in a.armed ==> b == a
    ensures c !in a.armed ==> Enabled(a, Arm(c)) && b == Next(a, Arm(c), own)
    ensures Enabled(b, Fire(c)) && Abs(Next(b, Fire(c), own).core) == Abs(a.core).Expire()
  {
    c := Awaited(a.core);
    assert c in Outstanding(a);
    if c in a.armed {
      b := a;
    } else {
      ArmStep(a, c, own);
      b := Next(a, Arm(c), own);
    }
    FireStep(b, c, own);
  }
}
