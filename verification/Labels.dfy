/**
 The labels and annotations of a pod, which both reconcilers write with JSON merge patches
 (section 2 of RFC 7396) computed against an earlier read: what a patch changes, and what
 every interleaving of the two writers keeps.
 */
module Labels {
  import opened Options

  datatype Key = Label(name: string) | Annotation(name: string)

  type Meta = map<Key, string>

  const STATE: Key := Label("gpu-lease.llm-d.ai/state")
  const LEASE: Key := Annotation("gpu-lease.llm-d.ai/lease")
  const GPU_ID: Key := Annotation("gpu-lease.llm-d.ai/gpu-id")
  const GPU_MODEL: Key := Annotation("gpu-lease.llm-d.ai/gpu-model")
  const COST: Key := Annotation("controller.kubernetes.io/pod-deletion-cost")

  const WARM := "warm"
  const ACTIVATING := "activating"
  const HOT := "hot"
  const RELEASING := "releasing"
  const COST_HOT := "100"
  const COST_WARM := "-100"

  function Get(m: Meta, k: Key): Option<string> {
    if k in m then Some(m[k]) else None
  }

  // Merge patches.

  /** A value per key to set, and None for a key to delete. */
  type Patch = map<Key, Option<string>>

  /** The patch that turns `from` into `to`: only the keys that differ. */
  function Diff(from: Meta, to: Meta): Patch {
    map k | k in from.Keys + to.Keys && Get(from, k) != Get(to, k) :: Get(to, k)
  }

  function Apply(p: Patch, m: Meta): Meta {
    map k | k in m.Keys + p.Keys && (k in p ==> p[k].Some?) :: if k in p then p[k].value else m[k]
  }

  /** Key by key: a diff takes over what differs and leaves the rest to the document it meets. */
  lemma AppliedDiff(from: Meta, to: Meta, m: Meta, k: Key)
    ensures Get(Apply(Diff(from, to), m), k) == if Get(from, k) == Get(to, k) then Get(m, k) else Get(to, k)
  {
  }

  /** What was to be changed is as wanted, everything else as the patch found it. */
  ghost predicate TakesOver(read: Meta, want: Meta, before: Meta, after: Meta) {
    forall k :: Get(after, k) == if Get(read, k) == Get(want, k) then Get(before, k) else Get(want, k)
  }

  /** On the document it was computed from, a diff gives the document it was computed for. */
  lemma DiffRoundTrip(from: Meta, to: Meta)
    ensures Apply(Diff(from, to), from) == to
  {
  }

  lemma SameGets(a: Meta, b: Meta)
    requires forall k :: Get(a, k) == Get(b, k)
    ensures a == b
  {
    assert forall k :: k in a <==> Get(a, k).Some?;
    assert forall k :: k in b <==> Get(b, k).Some?;
    forall k | k in a ensures a[k] == b[k] {
      assert Get(a, k) == Get(b, k);
    }
  }

  /** Patches of different keys commute. */
  lemma PatchesCommute(p: Patch, q: Patch, m: Meta)
    requires p.Keys !! q.Keys
    ensures Apply(p, Apply(q, m)) == Apply(q, Apply(p, m))
  {
  }

  // What the reconcilers want a pod's metadata to be.

  /** What a hot pod is annotated with. */
  datatype Tag = Tag(lease: string, gpu: string, model: string)

  function State(m: Meta): string {
    if STATE in m then m[STATE] else ""
  }

  function HotMeta(m: Meta, tag: Tag): Meta {
    m[STATE := HOT][LEASE := tag.lease][GPU_ID := tag.gpu][GPU_MODEL := tag.model][COST := COST_HOT]
  }

  function WarmMeta(m: Meta): Meta {
    (m[STATE := WARM] - {LEASE, GPU_ID, GPU_MODEL})[COST := COST_WARM]
  }

  function InitialMeta(m: Meta): Meta {
    m[STATE := WARM][COST := COST_WARM]
  }

  predicate Tagged(m: Meta, tag: Tag) {
    && Get(m, LEASE) == Some(tag.lease) && Get(m, GPU_ID) == Some(tag.gpu) && Get(m, GPU_MODEL) == Some(tag.model)
    && Get(m, COST) == Some(COST_HOT)
  }

  ghost predicate SameButState(read: Meta, m: Meta) {
    forall k :: k != STATE ==> Get(read, k) == Get(m, k)
  }

  /** A pod marked hot carries the tag, and is labelled hot unless it had been when read. */
  lemma HotTakesOver(read: Meta, tag: Tag, before: Meta, after: Meta)
    requires TakesOver(read, HotMeta(read, tag), before, after)
    ensures State(after) == if State(read) == HOT then State(before) else HOT
    ensures SameButState(read, before) ==> Tagged(after, tag)
  {
    var want := HotMeta(read, tag);
    assert Get(want, STATE) == Some(HOT) && Get(want, LEASE) == Some(tag.lease) && Get(want, GPU_ID) == Some(tag.gpu);
    assert Get(want, GPU_MODEL) == Some(tag.model) && Get(want, COST) == Some(COST_HOT);
  }

  /** A pod without the annotations of a lease, and cheap to delete. */
  predicate Untagged(m: Meta) {
    Get(m, COST) == Some(COST_WARM) && Get(m, LEASE).None? && Get(m, GPU_ID).None? && Get(m, GPU_MODEL).None?
  }

  /** A pod reverted to warm has lost the annotations, and is labelled warm unless it had been when read. */
  lemma WarmTakesOver(read: Meta, before: Meta, after: Meta)
    requires TakesOver(read, WarmMeta(read), before, after)
    ensures State(after) == if State(read) == WARM then State(before) else WARM
    ensures SameButState(read, before) ==> Untagged(after)
  {
    var want := WarmMeta(read);
    assert Get(want, STATE) == Some(WARM) && Get(want, COST) == Some(COST_WARM);
    assert Get(want, LEASE).None? && Get(want, GPU_ID).None? && Get(want, GPU_MODEL).None?;
  }

  /** A pod as the API server holds it, and the patch functions of the two reconcilers. */
  class PodObject {
    var meta: Meta
    const fails: bool

    constructor (meta: Meta, fails: bool)
      ensures this.meta == meta && this.fails == fails
    {
      this.meta, this.fails := meta, fails;
    }

    method SendPatch(orig: Meta, modified: Meta) returns (ok: bool)
      modifies this
      ensures ok == !fails
      ensures meta == if ok then Apply(Diff(orig, modified), old(meta)) else old(meta)
    {
      ok := !fails;
      if ok {
        meta := Apply(Diff(orig, modified), meta);
      }
    }

    /** Takes over exactly what makes a pod hot; keys that others have changed meanwhile are left to them. */
    method MarkPodHot(read: Meta, tag: Tag) returns (ok: bool)
      modifies this
      ensures ok == !fails && (!ok ==> meta == old(meta))
      ensures ok ==> TakesOver(read, HotMeta(read, tag), old(meta), meta)
      ensures ok ==> State(meta) == if State(read) == HOT then State(old(meta)) else HOT
      ensures ok && SameButState(read, old(meta)) ==> Tagged(meta, tag)
    {
      var pod := read;
      pod := pod[STATE := HOT];
      pod := pod[LEASE := tag.lease];
      pod := pod[GPU_ID := tag.gpu];
      pod := pod[GPU_MODEL := tag.model];
      pod := pod[COST := COST_HOT];
      ok := SendPatch(read, pod);
      if ok {
        forall k { AppliedDiff(read, pod, old(meta), k); }
        HotTakesOver(read, tag, old(meta), meta);
      }
    }

    method RevertPodToWarm(read: Meta) returns (ok: bool)
      modifies this
      ensures ok == !fails && (!ok ==> meta == old(meta))
      ensures ok ==> TakesOver(read, WarmMeta(read), old(meta), meta)
      ensures ok ==> State(meta) == if State(read) == WARM then State(old(meta)) else WARM
      ensures ok && SameButState(read, old(meta)) ==> Untagged(meta)
    {
      var pod := read;
      pod := pod[STATE := WARM];
      pod := pod - {LEASE};
      pod := pod - {GPU_ID};
      pod := pod - {GPU_MODEL};
      pod := pod[COST := COST_WARM];
      assert pod == WarmMeta(read);
      ok := SendPatch(read, pod);
      if ok {
        forall k { AppliedDiff(read, pod, old(meta), k); }
        WarmTakesOver(read, old(meta), meta);
      }
    }

    /** No key but the state label changes. */
    method PatchPodStateLabel(read: Meta, state: string) returns (ok: bool)
      modifies this
      ensures ok == !fails
      ensures meta == if ok && Get(read, STATE) != Some(state) then old(meta)[STATE := state] else old(meta)
    {
      ok := SendPatch(read, read[STATE := state]);
      if ok {
        forall k { AppliedDiff(read, read[STATE := state], old(meta), k); }
        SameGets(meta, if Get(read, STATE) != Some(state) then old(meta)[STATE := state] else old(meta));
      }
    }

    method InitializePodWarmState(read: Meta) returns (ok: bool)
      modifies this
      ensures ok == !fails
      ensures !ok ==> meta == old(meta)
      ensures ok ==> TakesOver(read, InitialMeta(read), old(meta), meta)
      ensures ok && old(meta) == read ==> meta == InitialMeta(read) && State(meta) == WARM && Get(meta, COST) == Some(COST_WARM)
    {
      var pod := read[STATE := WARM];
      pod := pod[COST := COST_WARM];
      ok := SendPatch(read, pod);
      if ok {
        forall k { AppliedDiff(read, pod, old(meta), k); }
        DiffRoundTrip(read, pod);
      }
    }
  }

  // Every interleaving of the two writers on one pod.

  /**
   `worker` and `pool` are what each reconciler last read of the pod and has not acted on yet; `claimed`
   says that a lease has claimed the pod, and `tag` is the last lease to have marked it hot.
   */
  datatype View = View(meta: Meta, worker: Option<Meta>, pool: Option<Meta>, claimed: bool, tag: Option<Tag>)

  /** `applied`: the patch took effect; `ok`: the caller was told so. */
  datatype Step =
    | WorkerReads
    | MarksHot(tag: Tag, applied: bool)
    | RevertsToWarm(applied: bool)
    | PoolReads
    | PoolInitialises(applied: bool, ok: bool)
    | PoolClaims
    | PoolLabels(state: string, applied: bool)
    | WorkerStops
    | PoolStops

  /** A pod is born without a state label or, from its template, with the label warm; either way without a deletion cost. */
  predicate Born(v: View) {
    (State(v.meta) == "" || State(v.meta) == WARM) && COST !in v.meta && v.worker.None? && v.pool.None? && !v.claimed && v.tag.None?
  }

  /**
   The lease reconciler acts on a pod some lease claims. The pool labels what has no label, claims what
   it has read as warm, and labels activating what it has claimed and releasing what it has read as hot.
   */
  predicate CanStep(v: View, s: Step) {
    match s
    case WorkerReads => v.claimed
    case MarksHot(_, _) => v.worker.Some?
    case RevertsToWarm(_) => v.worker.Some?
    case PoolReads => true
    case PoolInitialises(applied, ok) => v.pool.Some? && State(v.pool.value) == "" && (ok ==> applied)
    case PoolClaims => v.pool.Some? && State(v.pool.value) == WARM
    case PoolLabels(state, _) =>
      && v.pool.Some?
      && ((state == ACTIVATING && State(v.pool.value) == WARM && v.claimed) || (state == RELEASING && State(v.pool.value) == HOT))
    case WorkerStops => true
    case PoolStops => true
  }

  function Patched(v: View, read: Meta, want: Meta, applied: bool): Meta {
    if applied then Apply(Diff(read, want), v.meta) else v.meta
  }

  function StepOf(v: View, s: Step): View
    requires CanStep(v, s)
  {
    match s
    case WorkerReads => v.(worker := Some(v.meta))
    case MarksHot(tag, applied) =>
      v.(meta := Patched(v, v.worker.value, HotMeta(v.worker.value, tag), applied), worker := None,
         tag := if applied then Some(tag) else v.tag)
    case RevertsToWarm(applied) => v.(meta := Patched(v, v.worker.value, WarmMeta(v.worker.value), applied), worker := None)
    case PoolReads => v.(pool := Some(v.meta))
    case PoolInitialises(applied, ok) =>
      var meta := Patched(v, v.pool.value, InitialMeta(v.pool.value), applied);
      v.(meta := meta, pool := if ok then Some(meta) else None)
    case PoolClaims => v.(claimed := true)
    case PoolLabels(state, applied) => v.(meta := Patched(v, v.pool.value, v.pool.value[STATE := state], applied), pool := None)
    case WorkerStops => v.(worker := None)
    case PoolStops => v.(pool := None)
  }

  /** What a pod's metadata looks like. */
  predicate WellMarked(m: Meta, tag: Option<Tag>) {
    && (State(m) == HOT ==> tag.Some? && Tagged(m, tag.value))
    && (State(m) == WARM ==> COST !in m || Get(m, COST) == Some(COST_WARM))
    && (State(m) == "" ==> COST !in m)
  }

  /** Only the state label may have changed since the lease reconciler read the pod, and not to hot or warm. */
  ghost predicate OnlyRelabelled(read: Meta, m: Meta) {
    && SameButState(read, m)
    && (State(m) == State(read) || State(m) == ACTIVATING || State(m) == RELEASING)
  }

  ghost predicate Inv(v: View) {
    && WellMarked(v.meta, v.tag)
    && (v.claimed ==> State(v.meta) != "")
    && (v.worker.Some? ==> v.claimed && WellMarked(v.worker.value, v.tag) && State(v.worker.value) != ""
                           && OnlyRelabelled(v.worker.value, v.meta))
    && (v.pool.Some? ==> if State(v.pool.value) == "" then !v.claimed && v.pool.value == v.meta else State(v.meta) != "")
  }

  lemma MarksHotKeeps(v: View, tag: Tag, applied: bool)
    requires Inv(v) && v.worker.Some?
    ensures Inv(StepOf(v, MarksHot(tag, applied)))
  {
    var read, want := v.worker.value, HotMeta(v.worker.value, tag);
    forall k { AppliedDiff(read, want, v.meta, k); }
  }

  lemma RevertsToWarmKeeps(v: View, applied: bool)
    requires Inv(v) && v.worker.Some?
    ensures Inv(StepOf(v, RevertsToWarm(applied)))
  {
    var read, want := v.worker.value, WarmMeta(v.worker.value);
    forall k { AppliedDiff(read, want, v.meta, k); }
  }

  lemma PoolInitialisesKeeps(v: View, applied: bool, ok: bool)
    requires Inv(v) && CanStep(v, PoolInitialises(applied, ok))
    ensures Inv(StepOf(v, PoolInitialises(applied, ok)))
  {
    DiffRoundTrip(v.meta, InitialMeta(v.meta));
  }

  lemma PoolLabelsKeeps(v: View, state: string, applied: bool)
    requires Inv(v) && CanStep(v, PoolLabels(state, applied))
    ensures Inv(StepOf(v, PoolLabels(state, applied)))
  {
    var read := v.pool.value;
    forall k { AppliedDiff(read, read[STATE := state], v.meta, k); }
  }

  lemma StepKeeps(v: View, s: Step)
    requires Inv(v) && CanStep(v, s)
    ensures Inv(StepOf(v, s))
  {
    match s
    case MarksHot(tag, applied) => MarksHotKeeps(v, tag, applied);
    case RevertsToWarm(applied) => RevertsToWarmKeeps(v, applied);
    case PoolInitialises(applied, ok) => PoolInitialisesKeeps(v, applied, ok);
    case PoolLabels(state, applied) => PoolLabelsKeeps(v, state, applied);
    case _ =>
  }

  /** A patch that marks a pod hot takes hold: the tag for sure, the label unless the pool has relabelled a pod that was hot when read. */
  lemma MarkingTakesHold(v: View, tag: Tag)
    requires Inv(v) && v.worker.Some?
    ensures var after := StepOf(v, MarksHot(tag, true)).meta;
      Tagged(after, tag) && State(after) == if State(v.worker.value) == HOT then State(v.meta) else HOT
  {
    var read := v.worker.value;
    forall k { AppliedDiff(read, HotMeta(read, tag), v.meta, k); }
    HotTakesOver(read, tag, v.meta, StepOf(v, MarksHot(tag, true)).meta);
  }

  /** And so does one that reverts it to warm. */
  lemma RevertingTakesHold(v: View)
    requires Inv(v) && v.worker.Some?
    ensures var after := StepOf(v, RevertsToWarm(true)).meta;
      Untagged(after) && State(after) == if State(v.worker.value) == WARM then State(v.meta) else WARM
  {
    var read := v.worker.value;
    forall k { AppliedDiff(read, WarmMeta(read), v.meta, k); }
    WarmTakesOver(read, v.meta, StepOf(v, RevertsToWarm(true)).meta);
  }

  ghost predicate StepAt(views: seq<View>, steps: seq<Step>, i: nat)
    requires |views| == |steps| + 1 && i < |steps|
  {
    CanStep(views[i], steps[i]) && views[i + 1] == StepOf(views[i], steps[i])
  }

  ghost predicate History(views: seq<View>, steps: seq<Step>) {
    && |views| == |steps| + 1 && Born(views[0])
    && forall i :: 0 <= i < |steps| ==> StepAt(views, steps, i)
  }

  lemma {:induction false} HistoryInv(views: seq<View>, steps: seq<Step>, i: nat)
    requires History(views, steps) && i < |views|
    ensures Inv(views[i])
  {
    if i > 0 {
      HistoryInv(views, steps, i - 1);
      assert StepAt(views, steps, i - 1);
      StepKeeps(views[i - 1], steps[i - 1]);
    }
  }

  /** A pod labelled hot is annotated with one lease and expensive to delete; a warm one costs -100, or nothing yet. */
  lemma MarkedAsLabelled(views: seq<View>, steps: seq<Step>, i: nat)
    requires History(views, steps) && i < |views|
    ensures State(views[i].meta) == HOT ==> views[i].tag.Some? && Tagged(views[i].meta, views[i].tag.value)
    ensures State(views[i].meta) == WARM ==> COST !in views[i].meta || Get(views[i].meta, COST) == Some(COST_WARM)
    ensures State(views[i].meta) == "" ==> COST !in views[i].meta
  {
    HistoryInv(views, steps, i);
  }

  // Scale-down.

  ghost predicate Reachable(m: Meta) {
    exists views: seq<View>, steps: seq<Step> :: History(views, steps) && views[|steps|].meta == m
  }

  /** The deletion cost the ReplicaSet controller reads: 0 when there is none. */
  function Cost(m: Meta): int {
    if Get(m, COST) == Some(COST_HOT) then 100 else if Get(m, COST) == Some(COST_WARM) then -100 else 0
  }

  /** A scale-down takes cheaper pods first. */
  ghost predicate CheapestFirst(pods: map<string, Meta>, removed: set<string>) {
    && removed <= pods.Keys
    && forall r, s :: r in removed && s in pods && s !in removed ==> Cost(pods[r]) <= Cost(pods[s])
  }

  /** A pod without a label counts as warm. */
  function WarmPods(pods: map<string, Meta>): set<string> {
    set n | n in pods && (State(pods[n]) == WARM || State(pods[n]) == "")
  }

  lemma ReachableCost(m: Meta)
    requires Reachable(m)
    ensures State(m) == HOT ==> Cost(m) == 100
    ensures State(m) == WARM || State(m) == "" ==> Cost(m) <= 0
  {
    var views: seq<View>, steps: seq<Step> :| History(views, steps) && views[|steps|].meta == m;
    MarkedAsLabelled(views, steps, |steps|);
  }

  /** However the labels came about, a scale-down of no more pods than are warm spares every hot pod. */
  lemma HotPodsSurvive(pods: map<string, Meta>, removed: set<string>)
    requires forall n :: n in pods ==> Reachable(pods[n])
    requires CheapestFirst(pods, removed) && |removed| <= |WarmPods(pods)|
    ensures forall n :: n in removed ==> State(pods[n]) != HOT
  {
    forall h | h in removed ensures State(pods[h]) != HOT {
      if State(pods[h]) == HOT {
        ReachableCost(pods[h]);
        forall w | w in WarmPods(pods) ensures w in removed {
          ReachableCost(pods[w]);
        }
        MoreThan(WarmPods(pods), removed, h);
      }
    }
  }

  lemma MoreThan(a: set<string>, b: set<string>, x: string)
    requires a <= b && x in b && x !in a
    ensures |b| > |a|
  {
    assert b == a + (b - a) && x in b - a;
  }
}
