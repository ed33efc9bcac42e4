# HAMi: the accounting core of the device scheduler

HAMi shares accelerator cards between pods. Its scheduler extender keeps a cache of
reserved pods, places new pods on simulated nodes, charges their namespaces, writes every
placement to a pod annotation, and rebuilds its accounting from those annotations. This
project models that core in Dafny and proves what holds over whole runs of it.

A pod has ordinary init containers, which run one after another and exit, sidecars, which
stay, and app containers. What it is charged on a device is therefore a peak over the
stages of its life, and it shrinks to a steady state once the init containers are done. The
code computes this one quantity in five ways: in closed form when a pod is cached, step by
step while a placement is simulated, by preloading candidates when a NUMA refit moves a
container, from a string when an annotation is read back, and at admission before any
device is chosen. `Lifecycle.Effective` is the reference: what runs on a device at each
stage, counter by counter (memory, cores, slots). Everything else is proved against it.

How the files build on each other, all in `src/`:

- `Usages`, `Devices`: amounts, sums over maps and sets, the data of the system.
- `Collapse`, `Lifecycle`, `Reach`, `Totals`: phase-aware usage and the lifecycle it stands for.
- `Quotas`, `QuotaObjects`, `QuotaManagers`, `QuotaHistory`: namespace quotas.
- `Counting`, `Stretches`, `Combinations`, `Nvidia`, `Ascend`: the two backends the scheduler
  model places with.
- `Placement`, `Nodes`, `Fitting`, `Simulation`, `Scoring`, `Agreement`: placing a pod.
- `Refusals`, `Promises`: what a refusal means, which devices are granted, which nodes must
  take a pod.
- `Text`, `Codec`, `Accounting`: the annotation.
- `Pods`, `Snapshots`, `Ledgers`, `Events`, `QuotaSoundness`, `Schedulers`: the cache, the ledger of
  namespace usage, the event handlers and Filter.
- `Moving`, `Preparing`, `Refits`: the NUMA refit.
- `Claims`, `Reserving`, `Worlds`, `Assigning`, `Relocating`, `Rooms`, `Runs`, `Replays`,
  `Stepping`: safety over runs. A world is the cache next to the pods of the API server; its
  claims are what cached pods are charged and what annotated pods outside the cache will be
  charged by their next event.
- `Mishaps`: runs in which a safety property fails.
- `Masks`, `Neuron`, `NeuronRuns`, `CoreOverlaps`, `CoreSharing`: neuron cores, one fit and
  whole runs.
- `Admission`, `Amd`, `Enflame`, `Feedback`: self-contained cores.

## What is assumed

- Every handler is one atomic step. The paths for terminated and deleted pods do not take
  the allocation lock in the source; finer interleavings are not covered.
- Events carry the object the API server holds. A UID fixes a pod's name, namespace and spec,
  device identifiers are unique and free of the codec's separators, registered capacities
  do not change, and completed init containers stay completed.
- Stored objects carry a version, and the API server refuses a patch that names another
  version than the stored one. A refit names the version of the cached object, so its patch
  can succeed only if the cached object is the stored one. (Filter's patch names no version.)
- Integers are unbounded. The order in which the policies sort nodes and devices is arbitrary.
- The parts of pod and node annotations that steer device selection are a parameter
  (`Selection`), and so are the outcome of Filter's patch, the object stored when a refit
  patches, the container-name check and the pending-allocation annotation of a refit.
- Two backends are registered: NVIDIA cards that are not in MIG mode, and Ascend cards with
  their core checks.

## Where the code and the expected property differ

- Safety over runs, and pods outside the cache. A pod that is annotated but no longer cached
  (its Filter found no node or could not write, or its binding failed) is brought back by its
  next event. If its room was given away in between, a device is overcommitted or an
  exclusive card is shared. `Mishaps.ReturnOvercommits` and `Mishaps.ReturnBreaksExclusivity`
  show this for every pair of pods that can each be placed alone but not together, and three
  concrete runs of six steps follow: one for capacity, one for a whole NVIDIA card whose
  counters all have room, one for the cores of an oversold Ascend card.
  `Runs.RunKeepsIff` and `Replays.RunWithstandsIff` give the exact condition for each of the
  three properties: a run keeps it in every state and under every replay of add events if and
  only if every reservation and every refit in it leaves the pods outside the cache what they
  claim.
- Refits and old objects. A refit reads the cached object, and it does not replace it. The
  patch names the version that was read, so every refit that completes has read the stored
  object, and cache and annotation stay in step in every run (`Runs.RunConsistent`). The
  price is that after a refit that changed a row (`Relocating.RefitFallsBehind`) every further
  refit of the pod is refused until an event of the pod has come in or it is placed anew,
  whatever else happens meanwhile (`Runs.RefitsWaitForEvents`).
- The run theorems hence name one condition, about the state before a step: every reservation
  and every refit leaves room for the pods outside the cache. It holds in particular when no
  other pod waits outside the cache with a claim on the node (`Runs.RunSafe`).
- Neuron cores. A pod's cores are a mask, and collapse takes the larger of two masks as
  numbers. An init container on core 0 and a container on cores 2 and 3 leave a pod that is
  cached with cores 2 and 3 only; `CoreOverlaps.MaximumHidesCores` is a run of five steps in
  which core 0 is then granted a second time. `NeuronRuns.CoveredIff` says when the cached
  mask has every core on which the pod runs: when one stage of its life uses all the cores
  that any stage uses. `CoreSharing.ProtectedIff` shows that this condition on the placed pods
  is exact: under it no two pods ever run on one core, and without it some state of the run
  lets the next pod onto a core that is in use.
- NUMA-bound requests. The search starts over whenever the next device it reaches is on
  another node, so it finds a node's devices only where they stand next to each other. Under
  the topology policy it does not stop at the first node that is large enough and ends with
  the devices at the front of the list: `Nvidia.FrontMisses` is a request that a device could
  serve and that is refused. `Nvidia.Fit` and `Ascend.Fit` state the exact condition on any
  list, and `Stretches.GroupedIff` what it means on a list sorted by node.
- Collapsed usage. For an ordinary init container the code takes a maximum over the grants of a
  row where the lifecycle adds them, so a row that names a device twice is undercharged.
  `Lifecycle.CollapseExactIff` shows that collapse is the lifecycle peak for every amount on a
  layout if and only if no ordinary init row names a device twice.
- Quota limits. Adding a ResourceQuota object that has become scoped leaves its earlier
  limits recorded (`QuotaHistory.StaleAddKeepsLimit`). `QuotaHistory.EventTracksIff` shows
  that this is the only event that does, and `QuotaHistory.EventEffectiveIff` that the
  effective limit is then wrong unless a live object has a limit at least as tight.
- Refit preload. For an ordinary init container whose usage was released the preload is
  an upper bound; `Moving.ReleasedPreloadExactIff` says when it is exact.
- Add events. An add event of a pod that is cached already overwrites its devices without
  touching the namespace. The ledgers stay in step if and only if both are charged alike
  (`Schedulers.Scheduler.Restore`), and `Stepping.EventsRecur` shows that this holds in every
  consistent state.

## Model

| member | source | states |
|---|---|---|
| `Collapse.CollapseInitContainerUsage` | pkg/device/initContainer.go:47-120 | the loops over rows and grants yield, per device type, one row that lists the named devices in increasing order with the per-device state of the specification |
| `Collapse.SteadyStateDeviceUsage` | pkg/device/initContainer.go:122-161 | the same for the sums that leave ordinary init containers out |
| `Lifecycle.CollapsedRowUse` | pkg/device/initContainer.go:92-117 | the collapsed row names exactly the devices of the rows, each once, and charges each its collapsed usage |
| `Lifecycle.CollapseIsLifecyclePeak` | pkg/device/initContainer.go:71-112 | collapsed usage is the least upper bound of what runs on the device over all stages of the pod, steady-state usage is the last stage, and hence never more |
| `Lifecycle.CollapseExactIff` | pkg/device/initContainer.go:85-91 | for a layout of rows, collapse is the lifecycle peak whatever the amounts, if and only if no ordinary init row names a device twice |
| `Lifecycle.DoubleGrantUndercharged` | pkg/device/initContainer.go:85-91 | an ordinary init row with two grants on a device is charged less there than it uses |
| `Lifecycle.InitThenApp` | pkg/device/initContainer.go:71-112 | an init container and an app container on one device are charged the larger of the two, or the app alone once released; a sidecar and an app are charged their sum |
| `Quotas.CountPodDevices` | pkg/device/quota.go:99-123 | a pod's count for a resource is the sum over registered types, rows and grants of the amounts that type books to it |
| `QuotaManagers.QuotaManager.FitQuota` | pkg/device/quota.go:64-97 | accepts exactly when used plus requested stays within every set limit, memory limits scaled by the factor |
| `Quotas.FitsExactly` | pkg/device/quota.go:64-97 | an amount that uses up a limit exactly fits, and one more does not |
| `QuotaManagers.QuotaManager.AddUsage` | pkg/device/quota.go:125-156 | the namespace's usage grows by the pod's count of every resource, nothing else changes |
| `QuotaManagers.QuotaManager.RmUsage` | pkg/device/quota.go:158-189 | it falls by the pod's count, stopping at zero, nothing else changes |
| `QuotaManagers.QuotaManager.ReplaceUsage` | pkg/device/quota.go:190-200 | one set of devices is exchanged for another, nothing else changes |
| `QuotaManagers.QuotaManager.RecalcLimitLocked` | pkg/device/quota.go:250-288 | the effective limit becomes the smallest limit of the objects that name the resource, or is cleared; usage is kept |
| `QuotaManagers.QuotaManager.AddQuota` | pkg/device/quota.go:302-352 | an unscoped object with an integer under `limits.` and the name of a registered resource leaves that resource limited to at most that amount, and to exactly it if no other object of the namespace limits it; resources that neither the object nor its earlier version names this way keep their limits; usage is kept |
| `QuotaManagers.QuotaManager.DelQuota` | pkg/device/quota.go:355-386 | resources that the object did not limit keep their limits, one that no other object limits has none, and all effective limits again agree with the objects; usage is kept |
| `QuotaManagers.QuotaManager.UpdateQuota` | pkg/device/quota.go:235-245 | delete and add in one step, with the same agreement |
| `QuotaHistory.EventTracksIff` | pkg/device/quota.go:293-386 | an event keeps the recorded limits those of the live objects if and only if it does not add a scoped object over recorded limits |
| `QuotaHistory.EventEffectiveIff` | pkg/device/quota.go:293-386 | after an event a resource has the smallest limit of the live objects if and only if no skipped add left a limit recorded that no live object matches or undercuts |
| `QuotaHistory.StaleAddKeepsLimit` | pkg/device/quota.go:302-352 | adding any limiting object and then its scoped version leaves a limit in force that no live object sets |
| `QuotaHistory.LimitsAreHistoryIndependent` | pkg/device/quota.go:235-386 | after any run of quota events without such adds a limit is set exactly when a live unscoped object limits the resource, and is then the minimum over those objects |
| `Combinations.PicksComplete` | pkg/device/nvidia/device.go:1213-1241 | the enumeration contains every index-increasing choice |
| `Combinations.PicksIncreasing` | pkg/device/nvidia/device.go:1213-1241 | the enumeration is strictly increasing, so it contains each choice once |
| `Combinations.GenerateCombinations` | pkg/device/nvidia/device.go:1213-1241 | the recursive generator lists the devices of exactly these choices, in this order |
| `Combinations.ComputeBestCombination` | pkg/device/nvidia/device.go:1294-1319 | returns the first combination whose total pair score no other exceeds |
| `Combinations.BestOf` | pkg/device/nvidia/device.go:1213-1319 | generating and maximising finds the lexicographically first optimum among all choices |
| `Nvidia.FitQuota` | pkg/device/nvidia/device.go:967-993 | accepts exactly when the namespace can take the collapsed usage of the rows placed so far with the tentative grant |
| `Nvidia.ComputeWorstSingleCard` | pkg/device/nvidia/device.go:1268-1292 | returns the first card whose links to the others score least |
| `Nvidia.Fit` | pkg/device/nvidia/device.go:1016-1202 | a result names the requested number of different admissible devices, on one NUMA node when bound, within the quota. It is the first row, from the end of the list, that a stretch of one node completes when devices join it one by one as the quota allows; under the topology policy the choice from what the stretch at the front gives: the first combination of the best total link score, or for one card the first with the weakest links. Without limits it succeeds if and only if some stretch has enough admissible devices, under the topology policy the one at the front |
| `Nvidia.TwoCardsBest` | pkg/device/nvidia/device.go:1181-1191 | where two cards are asked, no two candidates have a better registered link than those chosen |
| `Nvidia.OneCardWeakest` | pkg/device/nvidia/device.go:1268-1292 | where one card is asked and two are left, the one with the weaker registered link to the other is chosen |
| `Nvidia.QuotaOkExactly` | pkg/device/nvidia/device.go:967-993 | the quota check, written out for both resources with the memory factor |
| `Nvidia.FrontMisses` | pkg/device/nvidia/device.go:1051-1059 | a NUMA-bound request under the topology policy is refused on two devices of different nodes of which the first is reached and cannot take it and the second can |
| `Stretches.GroupedIff` | pkg/device/nvidia/device.go:1051-1059 | on a list whose devices stand together by node, some stretch is large enough if and only if some node has enough usable devices |
| `Stretches.MissedIff` | pkg/device/nvidia/device.go:1029-1166 | a search that only the devices restrict finds nothing if and only if no stretch of one node has enough usable devices |
| `Stretches.GatheredExactly` | pkg/device/nvidia/device.go:1029-1166 | and its row has the grants of exactly the usable devices of the stretch |
| `Ascend.ExclusiveOccupant` | pkg/device/ascend/device.go:722-738 | says exactly whether a single tenant holds the percentage base |
| `Ascend.OthersOnDevice` | pkg/device/ascend/device.go:812-832 | sums the cores of the other pods' grants on the card |
| `Ascend.IncomingOnDevice` | pkg/device/ascend/device.go:756-807 | sums the pod's own cores over the containers still running when the next one starts |
| `Ascend.Fit` | pkg/device/ascend/device.go:844-1109 | a result names the requested number of different cards, on one NUMA node when bound, each admissible beside its tenants and the pod's own running cores, and is the first row from the end of the list that a stretch of one node completes; it succeeds if and only if some stretch has enough such cards |
| `Fitting.FitInDevices` | pkg/scheduler/score.go:88-147 | every requested type gets the row its backend answers on the node's devices, and the rows are booked; the container is refused only if the backend of some type refuses it |
| `Simulation.SnapshotPeakUsage` | pkg/scheduler/score.go:208-218 | the usage of every device |
| `Simulation.UpdatePeakUsage` | pkg/scheduler/score.go:220-243 | each counter of each device is raised to the node's where that is larger |
| `Simulation.ApplyPeakUsage` | pkg/scheduler/score.go:245-278 | each device ends with the larger of peak and steady usage, counter by counter |
| `Simulation.PlaceContainer` | pkg/scheduler/score.go:316-340 | a placed container adds one row to every type, so that row positions stay container positions |
| `Scoring.AllocateInitContainers` | pkg/scheduler/score.go:304-342 | after the init containers the node shows what still runs, the peak map the init-phase peaks, and every row was judged against what ran when its container started |
| `Scoring.AllocateAppContainers` | pkg/scheduler/score.go:344-374 | the same for all containers, with the init peaks unchanged |
| `Scoring.ScoreNode` | pkg/scheduler/score.go:415-477 | on success every row is what its backend answered after the rows before it, the rows are a placement that passed the quota checks, and the node is charged their collapsed usage; otherwise a backend refused some container after rows for those before it, and the node is unchanged |
| `Refusals.UnlimitedAnswer` | pkg/scheduler/score.go:415-477 | without limits a container is refused if and only if it met a list of the node's devices without a stretch of one NUMA node that has enough admissible ones |
| `Refusals.RefusalCause` | pkg/device/nvidia/device.go:1064-1110 | with limits a refusal has two causes: such a list, or an admissible card that the namespace could not take beside the fewer cards gathered |
| `Refusals.OneNumaStuck` | pkg/scheduler/score.go:415-477 | a pod refused on a node whose devices of each type share a NUMA node is refused for what it would be without a bind: no devices would do for some container |
| `Refusals.PlacedTogether` | pkg/device/nvidia/device.go:1051-1059 | every container of a placed pod that is bound to a NUMA node has its devices of a type on one node |
| `Promises.GrantedCard` | pkg/device/nvidia/device.go:1034-1145 | every NVIDIA grant is on a healthy card that the pod accepts and nobody cordoned, with a free slot and room for the memory and cores asked, a percentage rounded down; a card wanted alone had no tenant |
| `Promises.GrantedAscend` | pkg/device/ascend/device.go:955-1052 | the same for Ascend cards, and no card on which a tenant has all cores is shared |
| `Promises.IdleNodeServes` | pkg/scheduler/score.go:415-477 | a node with as many idle accepted cards as a pod's only container asks for is not refused, without limits and with the cards on one NUMA node or no bind |
| `Promises.IdleAscendServes` | pkg/scheduler/score.go:415-477 | the same for Ascend cards |
| `Agreement.SimulationRefinesCollapse` | pkg/scheduler/score.go:208-278 | after a placement every device has its starting usage plus what the collapsed rows charge on it, for any mix and order of containers |
| `Agreement.SimulationRefinesCharge` | pkg/scheduler/scheduler.go:1474-1480 | the same read from the collapsed devices that are cached and charged |
| `Codec.EncodeContainerDevices` | pkg/device/devices.go:473-487 | the loop writes the specified text |
| `Codec.EncodePodSingleDevice` | pkg/device/devices.go:504-512 | the loop writes the specified text |
| `Codec.DecodeContainerDevices` | pkg/device/devices.go:524-581 | the loop reads the specified row or fails on the same input |
| `Codec.DecodePodSingleDevice` | pkg/device/devices.go:583-610 | one row per segment, empty ones included; one bad segment fails the annotation |
| `Codec.RoundTrip` | pkg/device/devices.go:473-610 | decoding an encoded placement gives the same rows, slot counts of one unset, and one empty row at the end |
| `Codec.WireFormat` | pkg/device/devices.go:473-487 | the text of a grant, field by field, is what is written and what is read back |
| `Codec.RowsFormat` | pkg/device/devices.go:504-512 | every container's text is followed by a semicolon, in the order of the containers |
| `Text.Decimal` | pkg/device/devices.go:473-487 | amounts are written in decimal notation |
| `Codec.Malformed` | pkg/device/devices.go:524-581 | a grant without an identifier or a type, with too few fields, or with memory or cores that are no numbers or negative is an error |
| `Codec.ReplaceChangesOneRow` | pkg/scheduler/numa_refit_handler.go:329-336 | replacing an entry changes exactly the indexed row of the decoded annotation |
| `Accounting.AnnotationPreservesAccounting` | pkg/device/devices.go:504-610 | collapsed and steady-state usage of the rows read back are those of the rows written |
| `Accounting.ReadBackEffective` | pkg/device/devices.go:583-610 | so is every counter of every device at either phase |
| `Pods.DecodePodDevices` | pkg/device/devices.go:583-610 | all types are decoded, or the whole annotation fails |
| `Pods.ReadsAllOrNothing` | pkg/device/devices.go:583-610 | one unreadable annotation makes the pod unreadable; otherwise every type has the rows of its own annotation |
| `Pods.AllNonSidecarInitContainersSucceeded` | pkg/util/util.go:191-210 | there is an init container, and every one that is no sidecar exited with code zero |
| `Pods.EffectivePodDeviceUsage` | pkg/scheduler/numa_refit_handler.go:319-324 | collapsed before release, steady after it |
| `Pods.PodManager.AddPod` | pkg/device/pods.go:57-97 | stores the devices, except that usage already shrunk is not inflated again; reports whether the pod is new |
| `Pods.PodManager.UpdatePod` | pkg/device/pods.go:100-110 | replaces the object of a cached pod only |
| `Pods.PodManager.DelPod` | pkg/device/pods.go:126-142 | removes the pod |
| `Pods.PodManager.TakeAndDeletePod` | pkg/device/pods.go:163-181 | removes and returns the pod only when UID, name and namespace agree |
| `Pods.PodManager.ReplacePodDevices` | pkg/device/pods.go:187-198 | replaces the devices and keeps the release flag |
| `Pods.PodManager.UpdatePodDevice` | pkg/device/pods.go:200-215 | replaces the devices and sets the release flag |
| `Snapshots.GetNodesUsage` | pkg/scheduler/scheduler.go:956-995 | every device shows the sum over the cached pods of the node, and its tenants are the grants of those pods on it, each as often as it occurs |
| `Ledgers.BalancedTake` | pkg/device/quota.go:158-189 | taking a cached pod off keeps usage equal to the cached pods' counts, and the clamp at zero does not fire |
| `Ledgers.BalancedReplace` | pkg/device/quota.go:190-200 | so does exchanging its devices |
| `Ledgers.BalancedOverwriteIff` | pkg/device/pods.go:76-94 | overwriting cached devices without touching the namespace keeps the balance if and only if both are charged alike |
| `Ledgers.RestoredUsage` | pkg/scheduler/numa_refit_handler.go:222-226 | taking usage off and putting it back leaves every namespace as it was |
| `QuotaSoundness.WholePlacementChecked` | pkg/scheduler/score.go:335-339 | the checks made container by container amount to a check of the whole placement, because padding charges nothing |
| `QuotaSoundness.ReservationWithinQuota` | pkg/device/nvidia/device.go:967-993 | charging a placement that passed its checks leaves memory within limit times factor and cores within their limit |
| `Schedulers.Scheduler.OnAddPod` | pkg/scheduler/scheduler.go:243-266 | a terminated pod leaves the cache, an unassigned one changes nothing, a terminating cached one only gets its object; otherwise the pod is cached with what its annotation is charged, the last stage once its init containers are done; no other entry changes, and where the pod recurs its namespace changes by exactly the difference of the counts |
| `Schedulers.Scheduler.OnAddPodLocked` | pkg/scheduler/scheduler.go:269-299 | an assigned pod is restored and shrunk if its init containers are done, with the same proviso |
| `Schedulers.Scheduler.Restore` | pkg/scheduler/scheduler.go:285-294 | a pod that is new is charged, one that is cached is overwritten; the ledgers stay in step if and only if the overwritten rows were charged alike |
| `Schedulers.Scheduler.OnUpdatePod` | pkg/scheduler/scheduler.go:301-350 | a terminated pod leaves the cache, an unassigned one changes nothing, a cached one gets its object and, once its init containers are done, the devices of its last stage; a pod that is not cached comes in as it does by an add; no other entry changes, and its namespace changes by exactly the difference of the counts |
| `Schedulers.Scheduler.ReleaseCompletedInitContainersLocked` | pkg/scheduler/scheduler.go:355-389 | init usage is released once, and the namespace is charged the steady state instead |
| `Schedulers.Scheduler.OnDelPod` | pkg/scheduler/scheduler.go:391-416 | a cached pod of the same UID, name and namespace leaves with its usage, and nothing else changes |
| `Schedulers.Scheduler.CleanupStalePodAllocation` | pkg/scheduler/scheduler.go:1116-1120 | the same after a failed bind |
| `Schedulers.Scheduler.CalcScore` | pkg/scheduler/score.go:491-552 | a chosen node is a candidate on which the pod was placed against a snapshot of the cache; without one, every candidate refused the pod |
| `Schedulers.Scheduler.Reserve` | pkg/scheduler/scheduler.go:1474-1491 | the placement is cached and charged; a failed patch leaves cache and usage as they were |
| `Schedulers.Scheduler.Filter` | pkg/scheduler/scheduler.go:1366-1491 | a chosen pod was placed beside the other cached pods and its namespace is within its NVIDIA limits; no node means that every candidate refused it, and then, as when the patch fails, the pod is only forgotten; in every case both ledgers are in step |
| `Schedulers.Scheduler.OnAddQuota` | pkg/scheduler/scheduler.go:467-474 | the object's limits are imposed as by the quota manager, usage does not change |
| `Schedulers.Scheduler.OnUpdateQuota` | pkg/scheduler/scheduler.go:479-489 | limits change in one step, usage does not |
| `Schedulers.Scheduler.OnDelQuota` | pkg/scheduler/scheduler.go:491-497 | limits change, usage does not |
| `Moving.PreloadIsRight` | pkg/scheduler/numa_refit_handler.go:374-436 | preload plus the moved container is at least the charge with the container on the candidate, and equal unless the container is a released ordinary init |
| `Moving.ReleasedPreloadExactIff` | pkg/scheduler/numa_refit_handler.go:374-436 | for a released ordinary init it is equal if and only if the rest of the pod uses that much there |
| `Moving.MoveKeepsIff` | pkg/scheduler/numa_refit_handler.go:88-314 | a move whose targets passed the fit on prepared usage keeps capacity, whole NVIDIA cards and full Ascend cards, each if and only if the pod without the moved container keeps it, for any number of devices |
| `Moving.MoveKeeps` | pkg/scheduler/numa_refit_handler.go:88-314 | so a move from current rows breaks none of them |
| `Preparing.ReleaseContainerUsage` | pkg/scheduler/numa_refit_handler.go:441-453 | every device loses what the row uses of it, stopping at zero |
| `Preparing.AggregateDeviceUsage` | pkg/scheduler/numa_refit_handler.go:355-369 | one total per device |
| `Preparing.EffectiveUsageOnCandidate` | pkg/scheduler/numa_refit_handler.go:374-394 | filtering the rows to one device first gives the pod's charge with the container moved there |
| `Preparing.PreparePhaseAwareRefitUsage` | pkg/scheduler/numa_refit_handler.go:402-436 | every device shows its usage without the pod's cached devices, plus the preload on a candidate and the rest of the pod elsewhere |
| `Preparing.RestrictNodeUsage` | pkg/scheduler/numa_refit.go:41-68 | keeps exactly the allowed devices of the type and all devices of other types |
| `Preparing.FitInRestrictedDevices` | pkg/scheduler/numa_refit.go:94-110 | answers what the NVIDIA backend answers on the allowed devices of the node given; a row it returns is admissible there and within the quota |
| `Refits.RefitNumaAllocation` | pkg/scheduler/numa_refit_handler.go:88-314 | a refusal changes nothing in either ledger. A container whose recorded devices are all allowed is answered with them, and only such a one. Otherwise a well-addressed request for equal amounts moves if and only if the fit answers a row on the allowed devices of the prepared node, the namespace can take what the pod will then be charged, and the patch finds the object that was read; it moves to that row. A moved row has the memory and cores of every grant it replaces and the same totals, the cached devices are rebuilt from the rewritten annotation, and the namespace is within its NVIDIA limits |
| `Refits.AcceptableMoves` | pkg/scheduler/numa_refit_handler.go:225-284 | without NUMA bind and limits, a request on the stored object moves whenever the allowed devices can take the container |
| `Refits.SeededRows` | pkg/scheduler/numa_refit_handler.go:211-223 | the fit is given the rows of exactly the other containers that have one |
| `Refits.PreparedElsewhere` | pkg/scheduler/numa_refit_handler.go:198-202 | on devices that are not allowed the prepared node shows the other pods and what the rest of the pod is charged |
| `Worlds.CachedTotal` | pkg/scheduler/scheduler.go:956-995 | what cached pods use of a device is the sum of what their annotations are charged |
| `Worlds.ListedIsClaimed` | pkg/scheduler/scheduler.go:956-995 | a cached pod is a tenant of a device once if its annotation has an entry there, with the cores it is charged, and otherwise not |
| `Worlds.SnapshotReflects` | pkg/scheduler/scheduler.go:913-1052 | a snapshot of the cache shows exactly what the other cached pods claim on the node |
| `Reserving.ReserveKeeps` | pkg/device/nvidia/device.go:1066-1127 | a placement judged beside all other claims keeps capacity, whole NVIDIA cards and full Ascend cards exclusive |
| `Assigning.ReservedConsistent` | pkg/scheduler/scheduler.go:1466-1491 | after a reservation the cached devices are those the written annotation is charged |
| `Rooms.ReservedKeepsIff` | pkg/scheduler/scheduler.go:1420-1491 | after a reservation each safety property holds for the claims of all pods if and only if the placement leaves the pods outside the cache what they claim: room on every counter, and no card that one side has for itself and the other uses |
| `Rooms.SettledReservation` | pkg/scheduler/scheduler.go:1420-1491 | it does so whenever no other pod waits outside the cache with a claim on the node |
| `Relocating.RefittedConsistent` | pkg/scheduler/numa_refit_handler.go:264-300 | after a refit the cached devices are those the patched annotation is charged |
| `Relocating.RefitFallsBehind` | pkg/scheduler/numa_refit_handler.go:38-60 | a refit that changes the row leaves the pod cached with annotations that are no longer the stored ones, so that the next patch would name an old version |
| `Rooms.RefittedKeepsIff` | pkg/scheduler/numa_refit_handler.go:88-314 | after a refit each safety property holds for the claims of all pods if and only if, on the devices the container moved to, the pods outside the cache keep what they claim: room on every counter, and no card that one side has for itself and the other uses |
| `Rooms.SettledRefit` | pkg/scheduler/numa_refit_handler.go:88-314 | it does so whenever no other pod waits outside the cache with a claim on the node |
| `Runs.EventStep` | pkg/scheduler/scheduler.go:243-389 | an add or update event keeps cache and annotation in step and never raises a claim |
| `Runs.StepConsistent` | pkg/scheduler/scheduler.go:243-416 | every step, refits included, keeps cache and annotations in step |
| `Runs.StepKeepsIff` | pkg/scheduler/scheduler.go:243-416 | every step keeps every safety property, a reservation or refit if and only if it leaves room |
| `Runs.RunConsistent` | pkg/scheduler/scheduler.go:243-416 | every state of every run of creations, status changes, events, drops, restarts, reservations and refits is consistent |
| `Runs.RunKeepsIff` | pkg/scheduler/scheduler.go:1420-1491 | such a run keeps a safety property in every state, pods outside the cache included, if and only if every reservation and refit leaves room |
| `Runs.RunSafe` | pkg/scheduler/scheduler.go:1420-1491 | every run whose reservations and refits meet no other pod outside the cache on their node is safe throughout |
| `Runs.RefitsWaitForEvents` | pkg/scheduler/numa_refit_handler.go:38-60 | while a pod is cached with other annotations than the stored ones, no refit of it completes, whatever steps are taken, until an event of the pod comes in or it is placed anew |
| `Runs.TerminatedStaysGone` | pkg/scheduler/scheduler.go:309-316 | once the event of a terminated pod is in, the pod claims nothing in any later state of any run, unless it is placed anew |
| `Runs.RemovedClaimsNothing` | pkg/scheduler/scheduler.go:391-416 | a pod that the API server has removed and that is not cached claims nothing |
| `Runs.UsageWithinCapacity` | pkg/scheduler/scheduler.go:956-995 | in every state of every run that leaves room, memory, cores and slots as rebuilt from the cache are within the registered memory, cores and count of every device |
| `Runs.WholeCardAlone` | pkg/device/nvidia/device.go:1111-1127 | in every state of every run that keeps whole cards apart, no cached pod has an entry on a card of which another one has a container with all cores |
| `Runs.FullCoresAlone` | pkg/device/ascend/device.go:1016-1052 | in every state of every run that keeps full cores apart, beside a pod whose cores on an Ascend card reach 100, by one container or several, no other cached pod has cores there, even when the card is oversold |
| `Replays.WithstandsIff` | pkg/scheduler/scheduler.go:243-299 | the cached pods keep a safety property under every replay of add events if and only if cached pods and pods outside the cache keep it together |
| `Replays.WithstandsFits` | pkg/scheduler/scheduler.go:956-995 | for capacity this is the usage rebuilt from the cache |
| `Replays.ReservationWithstandsIff` | pkg/scheduler/scheduler.go:1420-1491 | a reservation withstands every replay if and only if it leaves room for the pods outside the cache, for each of the three properties |
| `Replays.RefitWithstandsIff` | pkg/scheduler/numa_refit_handler.go:88-314 | so does a refit |
| `Replays.RunWithstandsIff` | pkg/scheduler/scheduler.go:243-416 | a run keeps a safety property in every state and under every replay if and only if each reservation and refit in it left room |
| `Mishaps.ReturnOvercommits` | pkg/scheduler/scheduler.go:301-350 | for any two pods that fit a node alone but exceed a device together: the second is placed after the first was dropped, the first comes back, and the device is overcommitted |
| `Mishaps.ReturnBreaksExclusivity` | pkg/scheduler/scheduler.go:301-350 | the same for pods that do not keep a card's exclusivity |
| `Mishaps.StrayRunOvercommits` | pkg/scheduler/scheduler.go:301-350 | such a run exists on a card with one slot |
| `Mishaps.StrayRunSharesWholeCard` | pkg/device/nvidia/device.go:1111-1127 | and on a card with two slots and room on every counter, which one pod holds whole |
| `Mishaps.StrayRunSharesFullCores` | pkg/device/ascend/device.go:1016-1052 | and on an oversold Ascend card on which one pod has 100 cores |
| `Stepping.EventsRecur` | pkg/scheduler/scheduler.go:285-294 | in a consistent state an add event is charged as the cached pod is, so both ledgers stay in step |
| `Stepping.FilterTakesStep` | pkg/scheduler/scheduler.go:1420-1491 | a link that follows from the definitions: a node chosen by Filter is a reservation step of the runs |
| `Stepping.RefitTakesStep` | pkg/scheduler/numa_refit_handler.go:276-300 | a completed refit, whose patch found the object it read, is a refit step |
| `Admission.FitResourceQuota` | pkg/scheduler/webhook.go:309-377 | decides by the most the pod asks at any stage of its life |
| `Admission.AskPeakIsStagePeak` | pkg/scheduler/webhook.go:309-377 | what is compared with the quota is the most that the containers running together in any stage ask |
| `Admission.SingleAsk` | pkg/scheduler/webhook.go:309-377 | a single container asks the number of devices times the amounts of each |
| `Admission.AdmissionBelowCharge` | pkg/scheduler/webhook.go:342-368 | that peak is at most what any placement is charged over all its devices |
| `Admission.AdmissionNeverStricter` | pkg/scheduler/webhook.go:369-373 | at the same usage, admission denies nothing the scheduler's quota check accepts |
| `Amd.BestInGroup` | pkg/device/amd/device.go:714-746 | the lexicographically first optimum of at most 16 candidates, and the first of more |
| `Amd.BestLinkedCombination` | pkg/device/amd/device.go:655-690 | with a NUMA bind the best over the nodes' groups, the earliest on ties, all on one node; it fails exactly when no group is large enough |
| `Amd.LinkedPairChosen` | pkg/device/amd/device.go:644-700 | where two GPUs are asked of a group with a linked pair, a linked pair is chosen |
| `Enflame.Fit` | pkg/device/enflame/device.go:436-540 | succeeds exactly when enough devices are admissible, and grants different ones |
| `Enflame.GrantedProfile` | pkg/device/enflame/device.go:484-526 | a granted profile takes its slices, its gigabytes times 1024 and its share of the cores rounded down, on a healthy accepted card that has them free |
| `Enflame.FitInStep` | pkg/device/enflame/device.go:506-526 | a link that follows from the definitions: a granted row keeps cores in step with slices, because the share is rounded down |
| `Enflame.ChargeInStep` | pkg/device/enflame/device.go:646-652 | a pod's charged cores times the slices of a card never exceed 100 times its charged slices, collapsed or steady |
| `Enflame.TotalInStep` | pkg/device/enflame/device.go:419-434 | nor do those of any pods together |
| `Enflame.SlicesBringCoresInAnyState` | pkg/device/enflame/device.go:484-505 | a profile that passes the free-slice check passes the core check |
| `Masks.CountMask` | pkg/device/awsneuron/device.go:341-349 | counts the cores of a mask |
| `Masks.OnesJoin` | pkg/device/awsneuron/device.go:333-335 | joining two masks counts every core once |
| `Neuron.AllocateCoreMask` | pkg/device/awsneuron/device.go:354-365 | finds the first run of neighbouring cores within the available and outside the used ones, if there is one |
| `Neuron.ContinuousDeviceAvailable` | pkg/device/awsneuron/device.go:379-393 | the indexes of a run of idle devices, if all of them are |
| `Neuron.GraphSelect` | pkg/device/awsneuron/device.go:395-445 | the first run of idle devices in index order that the topology allows, if there is one |
| `Neuron.Fit` | pkg/device/awsneuron/device.go:447-584 | every grant is the first free run of its length on its device, of the cores asked of each device or all of them, and with a total the grants add up to it on uniform nodes; devices with unique indexes get one grant each. One device is found if and only if some device serves the request alone, and is the last such; several if and only if a run of idle neighbouring devices that the topology allows has the cores, where indexes are unique and, for a total, devices have the same number of cores, and they are the first such run |
| `Neuron.SelectableExactly` | pkg/device/awsneuron/device.go:379-445 | what may be selected: neighbouring healthy unused devices, anywhere on a ring, elsewhere in blocks of 1, 4, 8 or 16 at multiples of their length |
| `NeuronRuns.FitPlaces` | pkg/device/awsneuron/device.go:447-584 | a row the fit returns grants cores of different devices that are free beside what is used and what the pod's earlier containers still run |
| `NeuronRuns.CachedMask` | pkg/device/initContainer.go:92-112 | the cached row of a pod carries, per device, the largest number among the masks of its stages, or that of the last stage once its init containers are released |
| `NeuronRuns.SumsAreJoins` | pkg/device/awsneuron/device.go:322-335 | the masks that collapse adds are disjoint, so their sum is the join that the simulation booked |
| `NeuronRuns.CoveredIff` | pkg/device/initContainer.go:85-112 | the cached mask has every core on which the pod still runs in some stage if and only if one stage uses every core that any of them uses |
| `NeuronRuns.CoresConserved` | pkg/scheduler/scheduler.go:989-990 | in every run of placements, releases and removals on a node that starts empty, rebuilt from the cached masks, if each placed pod has a stage that uses all its cores: no two held pods run on the same core in any stages, the rebuilt masks have every core that runs, and as many cores are in use as the cached masks hold |
| `NeuronRuns.AlwaysCoveredIff` | pkg/scheduler/scheduler.go:989-990 | the rebuilt masks have every core that runs in every state of a run if and only if each placed pod has such a stage |
| `CoreOverlaps.MaximumHidesCores` | pkg/device/initContainer.go:85-112 | a run of five steps that gives every container the first free cores and grants a core on which an init container can run a second time |
| `CoreSharing.MissedIsShared` | pkg/scheduler/scheduler.go:989-990 | a core that a held pod runs on and its cached mask lacks can be granted to the next pod |
| `CoreSharing.ProtectedIff` | pkg/scheduler/scheduler.go:989-990 | no state of a run lets the next pod onto a core that runs if and only if each placed pod has a stage that uses all its cores |
| `Feedback.CheckBlocking` | cmd/vGPUmonitor/feedback.go:46-56 | says exactly whether a more urgent active container shares a valid device |
| `Feedback.CheckPriority` | cmd/vGPUmonitor/feedback.go:59-75 | or a second slot of the same priority does |
| `Feedback.Observe` | cmd/vGPUmonitor/feedback.go:79-143 | after a tick a container is blocked if and only if a strictly more urgent one whose counter was at least two shares a valid device; counters and switches are those of the specification |
| `Feedback.TickExactly` | cmd/vGPUmonitor/feedback.go:79-143 | a tick lowers counters by one down to zero, gives blocked containers a counter below zero, and switches control on exactly where a device is held by a more urgent active container or by two slots of the same priority |
| `Feedback.LeastNeverBlocked` | cmd/vGPUmonitor/feedback.go:113-127 | a container of least priority number is never blocked |
| `Feedback.NobodyStaysBlocked` | cmd/vGPUmonitor/feedback.go:84-127 | with no counter refreshed, from as many ticks on as the largest counter nobody is blocked |

## Left out

- Runs.UsageWithinCapacity: states runs whose reservations and refits leave room for pods outside the cache; without that the property is false, and `Runs.RunKeepsIff` and `Replays.RunWithstandsIff` have the exact condition over all runs.
- Runs.WholeCardAlone: the same for whole NVIDIA cards.
- Runs.FullCoresAlone: the same for full Ascend cores.
- Quotas.CountPodDevices: the backends that book core masks count the bits of a mask; their counts are not part of this model.
- Ascend.Fit: models the health, type, UUID, NUMA, slot, memory and core checks; virtual-NPU templates, pair and ring topologies and the ENPU mode are not part of this model.
- Schedulers.Scheduler.Filter: node scores and the simulation protocol of the cluster autoscaler are not modelled.
- Schedulers.Scheduler.CalcScore: the parallel scoring of nodes is a loop, and the policy's choice among the nodes that fit is arbitrary.
- Refits.RefitNumaAllocation: caller authentication, event recording and the pending-allocation annotation are parameters or absent.
- Admission.FitResourceQuota: models the NVIDIA turn of the loop over device types.
- Enflame.Fit: the choice of a profile from a request and the parsing of profile names are not part of this model.
- Neuron.Fit: memory amounts and the device type match are parameters or absent; with several devices, completeness is not stated for a total on devices with different numbers of cores.
- Feedback.Observe: the mapped memory regions are objects with fields; the locking of the lister is not modelled.
- Nvidia.Fit: MIG placement and the custom filter rule are not part of this model.
- Snapshots.GetNodesUsage: MIG reservations are not part of this model, and core masks are joined in `NeuronRuns` instead.
- NeuronRuns.CoresConserved: the runs of a node are placements, releases and removals of cached pods; pods outside the cache are not part of these runs.
- MIG plans, Kunlun topology, and the Biren, Hygon, Iluvatar, Metax and Mthreads backends: they repeat the checks modelled here.
- Request generation and admission mutation: branch-by-branch facts.
- API calls, informers, leader election, node locks, token review, metrics and plugin start-up: input and output.
- 64-bit overflow: amounts are unbounded integers.
