# GPU lease protocol: model and proofs

This project models the GPU lease controllers: a GPULease reconciler that takes a lease from
Pending through Kueue admission and pod activation to Bound (and out again through Failed or
Releasing), a WarmPool reconciler that decides which pods of a Deployment hold a GPU, the state
machine inside each pod, and the inventory and naming rules that make a lease's name the lock on
one GPU of one node.

How the files fit together:

- `Names`, `Inventory`, `LeaseStore`: the name of a lease and its inverse; free GPU ids per node,
  computed by two separate loops; what creating and deleting a lease does to the free ids.
- `PodMachine`, `GenerationMachine`: the pod's state machine with one cancellable timer, and the
  machine with generation-guarded callbacks that is armed after its lock is released, proved to
  behave like the first one under every interleaving.
- `Objects`, `Protocol`: the shared objects, and the whole system as a transition system. One
  transition is one API or pod call of either reconciler, or one event of the environment (clock,
  Kueue, pods appearing, restarting or going away, pod timers, an operator deleting a lease). A call
  may succeed, fail, or take effect with its reply lost; other actors run between any two calls.
- `Safety`, `History`, `Exclusivity`, `Binding`, `Quota`, `Release`, `Decisions`, `Marking`,
  `Retention`, `Occupancy`, `Placement`, `Timing`: theorems over all runs of `Protocol`. `Witnesses`
  holds continuations and reachable states that show which conditions the conditional ones need.
- `LeaseReconciler`: the GPULease reconciler as methods that make those calls one by one; every
  reconcile is proved to be a piece of a run, so the theorems above speak about it.
- `Pods`, `Greedy`, `WarmPool`, `Sweep`, `Labels`: the WarmPool reconciler's arithmetic, stable
  sorts, promotion and demotion loops, control loop, orphan and retention sweep, and the merge
  patches both reconcilers apply to pod metadata.
- `Options`, `Bounds`, `Durations`, `Calls`: small shared definitions.

Times are in nanoseconds; a stored `metav1.Time` loses its fraction of a second, which the model
keeps. Integers are unbounded except where `strconv.ParseInt(…, 32)` bounds them. UID 0 stands for
the empty UID. The phase `Pending` stands for both `""` and `"Pending"`.

Four statements hold only under a condition that the code does not establish on its own. Each
condition is exact. For the first three, a step keeps the invariant behind the statement if and only
if it meets the condition, and from every step that does not a violation can follow; the last one is
a condition on the settings.

- Exclusivity: a release that finds its claim pod computing for the lease must get through, both its
  pod lookup and its `DELETE /lease` (`Exclusivity.Delivered`, `Exclusivity.CoreIffDelivered`).
  Releases go on without them, and whenever one is lost a state follows in which two pods compute on
  one GPU (`Witnesses.LostReleaseSharesGPU`).
- Binding to the right GPU: a `POST /lease` must not wake a pod that another Activating lease waits
  for (`Binding.Unrivalled`, `Binding.OwnIffUnrivalled`). `bindLease` compares no names, so whenever
  one does, that other lease can be bound on the wrong GPU (`Witnesses.RivalPostMisbinds`).
- The quota bound: for a lease past admission, a Workload deletion that takes effect must be
  acknowledged and the failure then recorded, and Kueue must not evict a Workload in use
  (`Quota.Recorded`, `Quota.BookedIffRecorded`). Whenever a step falls short of this, a state follows
  in which leases past admission outnumber admitted Workloads (`Witnesses.UnrecordedExceeds`); all
  three shortfalls are reachable (`UnrecordedFailureExceeds`, `LostReplyExceeds`, `EvictionExceeds`).
- A Failed lease is gone by failure plus retention, with sweeps that start on time, if and only if the
  requeue a sweep asks for is within the retention period (`Witnesses.OnTimeIffWithinRetention`); a
  sweep that starts late delays this by no more than its lateness. The manager sets no resync period
  and no retention (`cmd/manager/main.go:218-223`), so as shipped the requeue is at most 30s and the
  retention period 60s; only a configured resync period above the retention period breaks the condition.

`reconcilePending` has a branch that deletes and recreates a Workload whose spec does not match its
lease. Over all runs of the model this branch is never reached (`Safety.NoStaleWorkload`), because a
Workload always belongs to the lease of its name and lease specs do not change.

## Model

| member | source | states |
|---|---|---|
| Names.ParsePrinted | api/v1alpha1/names.go:118-123 | a parser undoes LeaseName for every node string, including ones that contain "-gpu-" and digits, and every id |
| Names.PrintParsed | api/v1alpha1/names.go:118-123 | whatever parses as a lease name is the name of what it parses to |
| Names.LeaseNameInjective | api/v1alpha1/names.go:118-123 | two (node, id) pairs with one name are equal, so name uniqueness in the store is uniqueness of the pair |
| Names.ParseInt32Printed | internal/controller/inventory/inventory.go:86-101 | reading back a printed number gives the number exactly when it fits 32 bits |
| Names.ParseInt32Digits | internal/controller/inventory/inventory.go:86-101 | any digits, bare or with either sign, are read as the number they denote if that fits 32 bits and refused otherwise |
| Names.ParseInt32Padded | internal/controller/inventory/inventory.go:86-101 | leading zeros, any number of them, change nothing |
| Names.ParseInt32Refuses | internal/controller/inventory/inventory.go:86-101 | an empty number, a bare sign and a number with a character that is no digit are refused |
| Inventory.FreeBelowComplete | internal/controller/inventory/inventory.go:123-139 | an id is in the free list if and only if it is below the count and unused |
| Inventory.FreePlusUsed | internal/controller/inventory/inventory.go:108-139 | free ids plus used ids in range number exactly the node's count |
| Inventory.LeasingOne | internal/controller/inventory/inventory.go:108-139 | using one more free id shortens the free list by one |
| Inventory.FirstIsLeast | internal/controller/inventory/inventory.go:142-151 | the head of the free list is the least unused id, and an empty list means that every id below the count is used |
| Inventory.CapacityByLabel | internal/controller/inventory/inventory.go:86-101 | a node labelled with the number c has capacity c for every c from 0 to 2^31 - 1, and is malformed for every other c |
| Inventory.CapacityWithoutLabel | internal/controller/inventory/inventory.go:86-101 | a node without the label, or an unknown node, is not found |
| Inventory.Client.NodeCapacity | internal/controller/inventory/inventory.go:86-101 | the number the node is labelled with, malformed if that is negative or beyond 32 bits, and the model it is labelled with, if any |
| Inventory.Client.UsedGPUIDs | internal/controller/inventory/inventory.go:108-120 | exactly the ids leased on the node, whatever the leases' phase |
| Inventory.Client.FreeGPUIDs | internal/controller/inventory/inventory.go:123-139 | strictly ascending; on a node labelled with c an id is listed if and only if 0 <= id < c and no lease of that node has it; errors passed on |
| Inventory.Client.AllocateID | internal/controller/inventory/inventory.go:142-151 | on a node labelled with c the least id below c that no lease of the node has, or Exhausted exactly when leases have them all; errors passed on |
| Inventory.Client.NodeFreeCounts | internal/controller/inventory/inventory.go:154-192 | the separately counted totals equal the length of FreeGPUIDs' list for every validly labelled node: the count it is labelled with less the ids below it in use; no other node has an entry |
| LeaseStore.UnusedIsAbsent | internal/controller/warmpool_controller.go:307-359 | an id no lease of the node uses has a name no lease bears |
| Occupancy.RunInRange | internal/controller/warmpool_controller.go:307-359 | in every state of every run whose created leases are for ids their nodes have, every lease is well named and in range |
| Occupancy.LeasesWithinCapacity | internal/controller/warmpool_controller.go:307-359 | in every such state the leases of a node plus its free ids number exactly its capacity, an unlabelled node has none, and no two leases share a GPU |
| Occupancy.PoolAdds | internal/controller/warmpool_controller.go:328-357 | a lease appears only by a create call of the pool, and then for the candidate pod: its node, name and UID, the given id, model, Deployment and queue, with finalizer, Pending and without conditions |
| Placement.ClaimedOnItsNode | internal/controller/warmpool_controller.go:328-357 | in every state of every run a lease whose claimed pod is there, in the incarnation meant, is for that pod's node |
| LeaseStore.CreateInRange | internal/controller/warmpool_controller.go:328-357 | a lease created under an absent name keeps all leases in range if and only if its id is within the node's count |
| LeaseStore.FreeAfter | internal/controller/warmpool_controller.go:328-357 | leasing a free id costs its node one free id and no other node any |
| LeaseStore.DeletedKeepsIds | internal/controller/inventory/inventory.go:108-120 | deleting a lease that has the finalizer frees no id |
| PodMachine.Lifecycle | internal/workload/state.go:183-301 | accepted while warm, hot after the warm-up, torn down after a release and then warm again; a release during the warm-up cancels it; a repeated POST is accepted and changes nothing, another lease's is a conflict while the pod is taken, and a foreign node's a mismatch |
| GenerationMachine.Machine.Activate | internal/workload/state.go:183-224 | moves and answers as the reference machine does; the generation goes up exactly when the machine moves, making every earlier callback stale, and a callback is armed exactly when a wait begins, for that wait |
| GenerationMachine.Machine.CompleteWarmup | internal/workload/state.go:229-242 | the callback armed for the current warm-up expires the reference machine's timer; any other changes nothing |
| GenerationMachine.Machine.Release | internal/workload/state.go:252-285 | moves as the reference machine does, superseding earlier callbacks and arming one exactly when a teardown begins |
| GenerationMachine.Machine.CompleteTeardown | internal/workload/state.go:288-301 | the callback armed for the current teardown expires the reference machine's timer; any other changes nothing |
| GenerationMachine.Refines | internal/workload/state.go:107-123 | every step of every interleaving is a step of the one-timer machine or no step at all, and keeps the invariant |
| GenerationMachine.RunRefines | internal/workload/state.go:183-301 | over whole runs: stale callbacks change nothing; activating or releasing has exactly one live callback outstanding, of the right kind; warm and hot have none |
| GenerationMachine.WarmingSince | internal/workload/state.go:183-224 | an activating machine has been activating, unchanged, since one POST accepted while warm, with that request |
| GenerationMachine.HotOnRequestAcceptedWhileWarm | internal/workload/state.go:183-242 | a machine that turns hot carries the request it accepted while warm, has been warming for it ever since, and every POST accepted since names the same lease |
| GenerationMachine.TimerArrives | internal/workload/state.go:205-242 | the live callback can always be armed and fired, and then the wait is over |
| Safety.NextInv | internal/controller/gpulease_controller.go:110-169 | every transition of the system keeps the store and program-counter invariants |
| Safety.NoQuotaLeak | internal/controller/gpulease_controller.go:398-445 | in every state of every run a Workload has its lease in the store, with finalizer, not Failed, claiming a pod of the Workload's namespace, and the Workload is in that lease's queue and pinned to its node |
| Safety.NoWorkloadLeftBehind | internal/controller/warmpool_controller.go:545-578 | a lease that is gone or Failed has no Workload, so stripping a Failed lease's finalizer leaves none behind |
| Safety.NoStaleWorkload | internal/controller/gpulease_controller.go:185-193 | the branch for a Workload whose spec does not match is never reached |
| Safety.ConditionsTellPhase | internal/controller/gpulease_controller.go:552-564 | in every state of every run the conditions of a lease that is neither Failed nor Releasing tell its phase: QuotaReserved from Admitted on, PodActivated false in Activating and true in Bound, Ready in Bound only |
| History.PhasesMoveForward | internal/controller/gpulease_controller.go:142-163 | between two sightings a lease stayed in the store, kept its identity and spec, and its phase did not move back; Releasing only under a deletion timestamp |
| History.FailedSinceIsEntry | internal/controller/warmpool_controller.go:519-524 | the failure time read by the sweep is the second in which the lease entered Failed, in one identifiable step |
| History.ActivatingSince | internal/controller/gpulease_controller.go:570-575 | an Activating lease went from Admitted to Activating in one identifiable step, has been Activating since, and its activation timeout counts from the second of that step |
| History.WorkloadSince | internal/controller/gpulease_controller.go:202-217 | a Workload was created in one identifiable step, for the lease of its name; its creation time is the second of that step and its spec has not changed since |
| History.CreatedWorkload | internal/controller/kueue.go:79-114 | the Workload a create step adds is in the claimed pod's namespace, under the lease's name, in its queue and pinned to its node, neither admitted nor rejected |
| History.NamedAfterGPU | internal/controller/warmpool_controller.go:328-357 | every lease in the store bears the name of its node and id |
| Exclusivity.NoSharedGPU | internal/controller/gpulease_controller.go:282-319 | if no release call is lost on a pod computing for the lease, no two pods are ever activating or hot on the same GPU |
| Exclusivity.ComputingPodIsClaimed | internal/workload/state.go:183-285 | under the same condition, a pod activating or hot on a lease is claimed by that lease, which exists, is not Failed, is for the pod's node, and has the GPU id and model the pod was told |
| Exclusivity.CoreIffDelivered | internal/controller/gpulease_controller.go:466-490 | every step of the system keeps computing pods claimed and ending leases quiet if and only if it does not lose a pod lookup or DELETE /lease on a pod computing for the lease |
| Binding.BindsOwnGPU | internal/controller/gpulease_controller.go:338-374 | if no POST wakes a pod another Activating lease waits for, a lease becomes Bound only after its pod was hot on that lease's name, node and id |
| Binding.OwnIffUnrivalled | internal/controller/gpulease_controller.go:295-319 | every step keeps waiting leases on their own GPU if and only if it is not a POST that wakes a pod while another Activating lease claims it |
| Binding.SeenBefore | internal/controller/gpulease_controller.go:338-343 | the "hot" a lease is bound on was the state of its own claimed pod earlier in the run |
| Quota.HoldersWithinQuota | internal/controller/gpulease_controller.go:222-277 | if Kueue admits at most the quota per node and every step records what it takes away, the leases past admission on a node, but for one whose failure is being written, stay within the quota |
| Quota.BookedIffRecorded | internal/controller/gpulease_controller.go:398-414 | every step keeps every lease past admission backed by an admitted Workload if and only if, for such leases, a Workload deletion that takes effect is acknowledged, the Failed write takes effect, and no Workload in use is evicted |
| Release.DeletionCompletes | internal/controller/gpulease_controller.go:421-490 | from any point where a deletion was cut short, one more attempt with working lease and Workload calls ends with both gone, whatever the pod calls do |
| Release.Finishes | internal/controller/gpulease_controller.go:202-445 | once the reconciler has decided, each working lease or Workload call brings the end closer: within the number of calls left the Workload is created, the lease is in the phase meant, or lease and Workload are gone, whatever the pod calls of a release and the other actors do |
| Decisions.DecidesExactly | internal/controller/gpulease_controller.go:173-390 | each deciding call takes the lease on if and only if what it finds allows that, and sends it to Failed if and only if what it finds condemns it, with the reason for it: unadmitted and inadmissible or out of time; pod lost; POST not accepted; not hot and out of time |
| Decisions.WhyLost | internal/controller/pods.go:205-223 | a claim pod that is gone, replaced, terminating or not ready is gone, one that is fine but for its node is a mismatch, any other is valid |
| Decisions.DoomedFails | internal/controller/gpulease_controller.go:398-414 | in every run, five working calls after a call that condemns a lease it is Failed, or somebody deleted it, and its Workload is gone |
| Decisions.RipeMovesOn | internal/controller/gpulease_controller.go:252-374 | in every run, two working calls after a call that takes a lease on it is Admitted, Activating or Bound, as the call was for, or somebody deleted it |
| Decisions.IsLookedAt | internal/controller/gpulease_controller.go:142-163 | a lease that is taken up, not Failed and not being deleted is looked at by the next call: for its Workload if Pending, for its claim pod if past admission |
| Decisions.FailureCompletes | internal/controller/gpulease_controller.go:381-414 | in every run, if an Admitted, Activating or Bound lease is taken up and its claim pod is found lost, then five working calls later it is Failed, or somebody deleted it, and its Workload is gone |
| Decisions.WorkloadIsCreated | internal/controller/gpulease_controller.go:173-217 | in every run, a Pending lease that is taken up and has no Workload has one, recorded in its status, two working calls after the look, unless somebody deleted the lease |
| Marking.HotBeforeBound | internal/controller/gpulease_controller.go:357-374 | in every run, before a lease is written Bound its claim pod was patched hot, by a call that got through for that very lease |
| Marking.WarmBeforeEnd | internal/controller/gpulease_controller.go:466-490 | in every run, before a lease is written Failed or loses its finalizer its claim pod was patched warm, as far as the call got through, or the release found no such pod |
| Marking.PoolLabels | internal/controller/pods.go:170-180 | what the pool promotes it labels activating, what it demotes releasing |
| Witnesses.ExclusivityCanFail | internal/controller/gpulease_controller.go:466-490 | a reachable state with two pods on one GPU after a lost release |
| Witnesses.LostReleaseSharesGPU | internal/controller/gpulease_controller.go:398-490 | from every reachable state in which a pod lookup or DELETE /lease, on the way to Failed or out of the store, is lost on a computing pod, a state follows with two pods on one GPU |
| Witnesses.RivalPostMisbinds | internal/controller/gpulease_controller.go:295-374 | from every reachable state in which a POST wakes a pod that is not terminating and that another Activating lease waits for, a state follows in which that lease is Bound while the pod is hot on the first one |
| Witnesses.BindingCanMiss | internal/controller/gpulease_controller.go:338-374 | a reachable state with a lease Bound while its pod is hot on another lease and another GPU |
| Witnesses.UnrecordedExceeds | internal/controller/gpulease_controller.go:398-414 | from every reachable state and every step that does not record what it takes away from a lease past admission, a state follows in which leases past admission on its node outnumber the Workloads admitted there |
| Witnesses.UnrecordedFailureExceeds | internal/controller/gpulease_controller.go:398-408 | a reachable state with one admitted Workload and two leases past admission, after a Failed write that was lost |
| Witnesses.LostReplyExceeds | internal/controller/gpulease_controller.go:398-401 | the same after a Workload deletion whose reply was lost |
| Witnesses.EvictionExceeds | internal/controller/gpulease_controller.go:222-277 | the same after an eviction by Kueue |
| Witnesses.LateSweepLeavesOverdue | internal/controller/warmpool_controller.go:221-246 | for every retention period and every requeue beyond it, a run in which a lease that fails right after a sweep outlives its failure by more than the retention period, the next sweep being on time |
| LeaseReconciler.Reconciler.Reconcile | internal/controller/gpulease_controller.go:110-169 | takes the lease up and ends idle, its calls being steps of a run whatever they return; a requested wait is positive, an error answers a call that failed, and asking for nothing means that there is no such lease, that it is Failed or Releasing, or deleting without the finalizer, or that the final write was acknowledged |
| LeaseReconciler.Reconciler.ReconcilePending | internal/controller/gpulease_controller.go:173-196 | from reading the Workload to the end, a piece of a run; a wait is one poll interval after creating the Workload, or the time to the next poll as the step that read it found it, within the deadline |
| LeaseReconciler.Reconciler.CreateWorkload | internal/controller/gpulease_controller.go:202-217 | waits one poll interval, and only after the create was acknowledged, which left a Workload in the claimed pod's namespace, under the lease's name, in its queue and pinned to its node; an error only when a call failed |
| LeaseReconciler.Reconciler.EvaluateAdmissionOf | internal/controller/gpulease_controller.go:222-277 | asks for a wait exactly when there is still time, and the wait does not pass the deadline |
| LeaseReconciler.Reconciler.ReconcileAdmitted | internal/controller/gpulease_controller.go:282-319 | pod checks, POST /lease and the Activating write are steps of a run; a wait only after that write is acknowledged, an error only after a failed call, and every failure goes through the cleanup path |
| LeaseReconciler.Reconciler.ReconcileActivating | internal/controller/gpulease_controller.go:327-353 | pod checks, the poll and what follows are steps of a run; unless the lease was written Bound, a wait is the time to the next poll as the polling step found it, within the deadline counted from the PodActivated transition |
| LeaseReconciler.Reconciler.BindLease | internal/controller/gpulease_controller.go:357-374 | the pod is patched before the lease is written Bound, and the longer wait is asked for only after that write |
| LeaseReconciler.Reconciler.ReconcileBound | internal/controller/gpulease_controller.go:381-390 | the next look is asked for exactly on a lookup that found the pod valid; otherwise the cleanup path, or an error on a failed call |
| LeaseReconciler.Reconciler.TransitionToFailed | internal/controller/gpulease_controller.go:398-414 | Workload deletion, release of the pod and the Failed write, in that order; done only when the Failed write is acknowledged, otherwise an error, so that it is retried |
| LeaseReconciler.Reconciler.ReconcileDeletion | internal/controller/gpulease_controller.go:421-445 | Releasing write, Workload deletion, release of the pod and finalizer removal, in that order; done only when the removal is acknowledged or there was no finalizer, otherwise an error |
| LeaseReconciler.Reconciler.ReleaseClaimPod | internal/controller/gpulease_controller.go:466-490 | whatever the pod calls return, the caller goes on |
| Timing.NextPoll | internal/controller/gpulease_controller.go:580-585 | positive while time is left, never past the budget or the poll interval |
| Timing.PollTimes | internal/controller/gpulease_controller.go:580-585 | poll k of a schedule is at the first poll plus k intervals, cut off at the deadline |
| Timing.GivesUp | internal/controller/gpulease_controller.go:241-248 | polling ends: from any first poll the schedule reaches a poll that gives up |
| Timing.PollCount | internal/controller/gpulease_controller.go:580-585 | the number of polls is the remaining budget over the poll interval, rounded up |
| Timing.FailsAtDeadline | internal/controller/gpulease_controller.go:241-248 | over a run with polls on schedule, the lease is given up by the poll at max(first poll, anchor + timeout) and by no other; the anchor is the QuotaReserved or PodActivated transition, or the creation of the Workload or lease when there is none |
| Timing.ActivationFailsAtDeadline | internal/controller/gpulease_controller.go:345-352 | for activation the anchor is the second of the step that took the lease from Admitted to Activating |
| Timing.AdmissionAnchoredAtCreation | internal/controller/kueue.go:164-169 | for admission, while Kueue has said nothing on the reservation, the anchor is the second of the step that created the Workload |
| Pods.TargetHot | internal/controller/pods.go:123-132 | at most ready, at least minHot where possible, and exactly `warm` pods spare when ready >= minHot + warm |
| Pods.StableOrderUnique | internal/controller/pods.go:138-164 | there is one stable order, so any stable sort gives it |
| Pods.SortStable | internal/controller/pods.go:144-151 | in place: a permutation in stable sorted order |
| Pods.SortDemotionCandidates | internal/controller/pods.go:157-164 | newest first, ties in input order, a permutation of the input |
| Pods.SortPromotionCandidates | internal/controller/pods.go:138-153 | exactly the pods on nodes with a free GPU, freest node first, then oldest, then input order |
| Greedy.PromotableStep | internal/controller/warmpool_controller.go:263-288 | one more candidate raises the attainable total by one exactly when its node has given less than it has |
| Greedy.CandidatesPromotable | internal/controller/pods.go:138-153 | filtering and sorting the candidates does not change how many can be promoted |
| WarmPool.Cluster.AcquireLeaseOnNode | internal/controller/warmpool_controller.go:307-359 | against others who create and delete leases between calls, and calls that fail or take effect unanswered: ids are tried in order from the list read by the first call, each try meeting the store the others left; success created exactly one lease, under a name absent at that instant, for an id of the node, naming the pod, its UID, its node and the Deployment, with the finalizer and not being deleted; a failed call may have created that of the last try and no other; exhaustion created none and every free id listed was found taken |
| WarmPool.Cluster.AllAccounted | internal/controller/warmpool_controller.go:263-288 | a quiet pass over any candidates, one least free id per pod, has promoted what nodes and ids allow and given each promoted pod a new lease that names it, its UID, its node and the Deployment |
| WarmPool.Cluster.Promote | internal/controller/warmpool_controller.go:252-300 | in a quiet cluster promotes min(need, sum over nodes of min(warm pods, free ids)) pods, each with a new lease of its own that names it, its UID, its node and the Deployment, and changes no other lease; after a shortfall every unpromoted warm pod sits on a node without a free id; always relabels only the warm pods given |
| WarmPool.Cluster.FindLeaseForPod | internal/controller/warmpool_controller.go:422-432 | the first listed lease that claims the pod, whatever its phase, or none when none does |
| WarmPool.Cluster.Demote | internal/controller/warmpool_controller.go:365-402 | exactly min(need, hot) pods, a prefix of the newest-first stable order; each relabelled and a lease that claims it deleted; nothing else changes |
| WarmPool.Cluster.DemotionUndoesPromotion | internal/controller/warmpool_controller.go:365-432 | demoting a pod that a promotion pass gave a lease, and that no other lease points at, finds exactly that lease and marks it, and no other, for deletion |
| WarmPool.Cluster.ConsiderPods | internal/controller/warmpool_controller.go:155-171 | labels unlabelled pods warm, leaves other labels alone and keeps exactly the pods that are scheduled, running, ready and not terminating |
| WarmPool.Cluster.Classify | internal/controller/warmpool_controller.go:173-188 | exactly the pods labelled hot and exactly those labelled warm, in order, and the number labelled hot or activating |
| WarmPool.Cluster.Reconcile | internal/controller/warmpool_controller.go:155-228 | in a quiet cluster held' = min(target, held + promotable) below the target and max(target, activating) above it, so it never overshoots or moves away; one new lease per pod promoted, at most one deleted per pod demoted, no other change to leases; the requeue is never later than the sweep's |
| Durations.MinPositive | internal/controller/warmpool_controller.go:235-246 | the least of the waits that are positive |
| Sweep.Sweeper.ReclaimFailedLease | internal/controller/warmpool_controller.go:545-578 | removes a Failed lease exactly when it has been Failed for the retention period, otherwise says how long it still has; a failed call has done at most part of what was due |
| Sweep.Sweeper.IsOrphan | internal/controller/pods.go:205-223 | orphaned exactly when the claimed pod is not there, not the one meant, not up, not selected or on another node |
| Sweep.Sweeper.ReconcileOrphans | internal/controller/warmpool_controller.go:447-503 | a validly claimed lease goes if and only if it is Failed and due, other valid ones and other Deployments' are untouched, orphans are deleted through their finalizer, and the wait is the least remaining one; when calls fail, or take effect unanswered, nothing more than that happens |
| Retention.FreesOnlyReclaimed | internal/controller/warmpool_controller.go:447-503 | a sweep frees the GPUs of due Failed leases and no others; orphans keep theirs until the finalizer goes |
| Retention.SweepIsInTime | internal/controller/warmpool_controller.go:221-246 | nothing the sweeping loop leaves falls due before the requeue its wait is folded into |
| Retention.FailedThroughout | internal/controller/warmpool_controller.go:519-524 | a lease Failed at both ends of a stretch of a run is the same Failed lease, with the same failure time, all the way through |
| Retention.SweepsInTime | internal/controller/warmpool_controller.go:447-503 | in a run, whatever others do meanwhile, a sweep without failing calls leaves no lease it found Failed that falls due before its requeue |
| Retention.NotOverdue | internal/controller/warmpool_controller.go:447-503 | between such sweeps an overdue lease, lateness of the next sweep allowed for, was not yet Failed when the last one began |
| Retention.ReclaimedOnTime | internal/controller/warmpool_controller.go:221-246 | between such sweeps, with a requeue within the retention period, no Failed lease that is not being deleted is in the store later than the step that failed it plus the retention period and the lateness of the next sweep |
| Witnesses.OnTimeIffWithinRetention | internal/controller/warmpool_controller.go:221-246 | for every retention and requeue: no run with sweeps on schedule has an overdue lease if and only if the requeue is within the retention period |
| Labels.AppliedDiff | internal/controller/pods.go:166-180 | a diff patch takes over the keys that differ and leaves the others to the document it meets |
| Labels.DiffRoundTrip | internal/controller/pods.go:166-180 | applied where it was computed, a diff gives the wanted document |
| Labels.PatchesCommute | internal/controller/gpulease_controller.go:505-526 | patches of different keys commute |
| Labels.PodObject.MarkPodHot | internal/controller/gpulease_controller.go:509-526 | the label ends up hot, unless it was hot when read and others changed it since; cost 100 and the tag are on the pod when only the label was changed meanwhile; every other key is as others left it |
| Labels.PodObject.RevertPodToWarm | internal/controller/gpulease_controller.go:533-550 | the label ends up warm, unless it was warm when read and others changed it since; cost -100 and no lease annotation when only the label was changed meanwhile; every other key is as others left it |
| Labels.PodObject.PatchPodStateLabel | internal/controller/pods.go:170-180 | no key but the state label changes |
| Labels.PodObject.InitializePodWarmState | internal/controller/pods.go:185-199 | the label and the deletion cost are as wanted where they had to change, every other key is as others left it |
| Labels.MarkingTakesHold | internal/controller/gpulease_controller.go:509-526 | in every state of every interleaving of both reconcilers' patches a patch that marks the pod hot leaves cost 100 and the tag, and the label hot unless the pool relabelled a pod that was hot when read |
| Labels.RevertingTakesHold | internal/controller/gpulease_controller.go:533-550 | the same for the way back: cost -100, no lease annotation, and the label warm unless the pool relabelled a pod that was warm when read |
| Labels.MarkedAsLabelled | internal/controller/gpulease_controller.go:505-550 | for pods born unlabelled or warm, over every interleaving of both reconcilers' patches, hot means deletion cost 100 and one lease's annotations, warm means -100 or none, unlabelled means none |
| Labels.HotPodsSurvive | api/v1alpha1/names.go:84-94 | a cost-ordered scale-down of at most as many pods as are warm removes no hot pod |

## Left out

- HTTP, JSON and the pod client: a call is accepted, answered with a conflict, or fails; both conflict answers arrive as the same status code.
- `POST` requests delivered after the caller gave up on them, and a pod IP taken over by another pod.
- Informer cache staleness: reads see the store as it is.
- Metrics and Events; `internal/workload/demand.go`; `cmd`, RBAC, watch mapping and manifests.
- Kueue and KEDA internals: Kueue is an environment that may admit, reject or evict; a Workload's own finalizer is not modelled, deleting it removes it.
- The ResourceFlavor cross-check, which changes no decision.
- Parsing of Deployment annotations beyond non-negative counts and timeouts.
- Wrap-around of the 64-bit generation counter and of the 32-bit sum that gates an Event.
- Machine hooks and the order in which they are delivered.
- Bound implies hot is not stated: a Bound lease's pod may restart or be released by another lease's deletion at any time.
- `Protocol` lets the WarmPool reconciler make its calls on any lease and pod in any order, and gives it one goroutine; `WarmPool` and `Sweep` give the order within one reconcile, without the other reconciler's status writes.
- WarmPool.Cluster.Promote: optimality and the leases of promoted pods are stated for a cluster in which no call fails and nobody else writes; under interference each allocation keeps what AcquireLeaseOnNode states.
- WarmPool.Cluster.Reconcile: starts after the sweep, whose wait is a parameter, and takes the listed pods as given; the control law is for a quiet cluster.
- Pods.SortStable: the library's stable sort is an insertion sort here; StableOrderUnique makes the choice immaterial.
- Sweep.Sweeper.ReconcileOrphans: nobody else writes leases during the sweep; sweeps among other actors are in `Retention.Sweeps`, over runs of `Protocol`.
- Timing.FailsAtDeadline: speaks of the poll that decides to give up; the calls that record the failure come after it.
- Labels.HotPodsSurvive: assumes the pods are otherwise equal for the ReplicaSet controller (all scheduled and ready) and that pod templates set no deletion cost of their own.
