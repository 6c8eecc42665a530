# kluster-capacity, modelled and proved in Dafny

kluster-capacity simulates a Kubernetes cluster in memory. It loads a snapshot into a fake API store, runs the real
scheduler against it, and answers three questions: which nodes can be taken away (`cc`, cluster compression), how many
more copies of a pod fit (`ce`, capacity estimation), and what the cluster looks like when every pod is scheduled anew
(`ss`, scheduler simulation). This project models the simulators and proves what their runs and reports mean.

`dafny verify dfyconfig.toml` checks everything.

## How the model is built

**Cluster compression** comes in two layers. `Compression` is a transition system: one transition for each atomic
action of the simulator (select a node, bind the pending pod, roll back, find no node, stop). The theorems in
`CompressionTheorems`, `CompressionProgress`, `CompressionOutcome`, `CompressionCapacity`, `CompressionMoves`,
`CompressionDrain`, `CompressionComeback` and `CompressionAdvice` hold in every state of every run of it; they rest on the invariant in
`CompressionInvariant`, which `CompressionSteps` shows to be kept by every transition; `CompressionExamples` holds runs
that show where a promise fails. `Cluster`, `CompressionFilter` and `CompressionSimulator` are the imperative code:
classes with the source's fields, methods and loops (`CompressionLists` is about the lists those build). The simulator
carries a ghost history, and each of its methods extends that history by transitions of the system, so whatever is proved of runs holds of the object
(`CompressionSimulator.Simulator.WhenStopped` says so for its report). Error branches of the source that cannot be
taken end in `assert false`.

**Capacity estimation** has the same shape: `Capacity` (closed form and transitions), `CapacityRuns` (theorems),
`CapacityReport` (the histogram loops), `CapacityAnswer`, `CapacitySimulator` (the classes), `CapacityExamples`.

**Scheduler simulation** is the stop detector (`Simulation`), the report (`Resources`, `SimulationReport`), and what a
stop says about the report (`SimulationOutcome`).

`InitialWorld` is the loading of a snapshot, `StopProtocol` the interleavings of concurrent calls of `Stop`,
`NamespaceNames` the command-line value. `Kube`, `NodeFilters` and `Placement` hold the objects, the node filter, and
what it means that a pod fits a node.

## What is assumed

- The scheduler is a library. It is a relation: it may bind the pending pod to any node of the cluster whose
  `NoSchedule` and `NoExecute` taints the pod tolerates and on which every demand still fits. In `cc` it may report
  `Unschedulable` at any time (its other plugins may rule out any node); in `ce`, where the answer depends on it, it
  binds whenever some admitted node fits and reports `Unschedulable` only if none does. `Config.admits` is the set of
  nodes that everything but resources admits for the template.
- An event is handled to its end before the next one; the scheduler's cache agrees with the store when an event is
  handled; an `Unschedulable` update carries one such condition.
- Objects are filed under unique names, pods have namespaces, no node is called "", and nodes have a label map.
- Resource quantities are not negative. Pod defaulting leaves the modelled fields alone.
- In `cc` no pod of the snapshot already waits for the simulator's own scheduler; `InitialWorld.CompressionStarts` says
  exactly when that is so.

## What the proofs turned up

- `--max-limit` of `cc` is documented as the number of nodes after which the analysis stops. The path for a node
  without movable pods does not look at it: `CompressionExamples.LimitOfOneGivesTwo` is a run with limit 1 that lists
  two nodes. `CompressionOutcome.LimitHoldsExactlyWhen` says exactly in which runs the limit holds, and `LimitHolds`
  gives a condition on the snapshot under which it always does. The limit is also only noticed when one more pod binds,
  so a run that stops at the limit has begun to drain a further node: the pods of `createdPods` from `createPodIndex`
  on are missing from the final store, and only those (`CompressionAdvice.StoreIsSound`).
- A pod that tolerates the taints of a cordoned node can be put back on the node being drained, which then counts as
  scaled down (`CompressionExamples.TolerantPodComesBack`). Listed nodes are free of movable pods in exactly the runs
  in which the scheduler never does that (`CompressionDrain.CleanExactlyWhen`), and in all runs if no movable pod of a
  candidate tolerates all taints of a cordoned candidate (`RetiredNodesAreEmpty`). Conversely some run does it whenever
  a node that passes the filter runs a movable pod that tolerates its own cordon
  (`CompressionComeback.SomeRunBringsItBack`).
- Rolling back restores all pods, but not always the node: its taints survive exactly when
  `CompressionTheorems.TaintsSurvive` holds (`GivenUpNode`). A schedulable node that carried the unschedulable taint
  loses it; an unschedulable one may get it moved to the front or rewritten. Whether that lets a pod in that the
  snapshot keeps away is a matter of the node alone (`CompressionMoves.Guards`, exact by `GuardsExactlyWhen`), and
  `CompressionExamples.LostTaintLetsPodIn` is a run in which it does. It takes `--exclude-taint-node=false`: with the
  flag's default no tainted node is tried, and every moved pod respects every taint of the snapshot
  (`CompressionMoves.TaintsAreRespected`). Without the flag, only candidates that do not guard their taints can get such
  a pod, and pods there still respect the taints with other keys.
- The summary subtracts the nodes scaled down from the nodes rejected for a taint. Scaled-down nodes are rejected for
  their label, never for the taint (`CompressionOutcome.RetiredNodesAreNotTainted`), so the corrected figure is wrong,
  possibly negative, unless nothing was scaled down or nothing was rejected for a taint
  (`NodeFilters.ConvertFilterStatusesToStatus`; `CompressionExamples.TaintedNodeIsNotReported`).
- `ce` numbers its copies from 0 and does not look whether a name is taken. If one is, the run hangs without a pending
  pod, or stops at the start (`CapacityExamples.TakenNameHangs`). `CapacityRuns.EndsWithAnswerIffNamesAreFree` is the
  exact condition.
- `ss` tests its exit condition on updates only. Once its pods are done it has stopped exactly if an update has occurred
  (`Simulation.DoneRunsStopOnUpdate`). A pod that was not on a node when it was added cannot be done without one
  (`UnboundGetsUpdated`), so when nothing but such pods is updated, the run stops exactly if there was such a pod
  (`DoneRunsStopExactlyWhen`); a cluster whose pods are all placed from the start, and then left alone, never stops
  (`AlreadyDoneNeverStops`).

## Model

| member | source | states |
|---|---|---|
| `Kube.PlacingKeepsCore` | pkg/utils/pod.go:73-98 | Preparing a pod for scheduling and binding it change nothing but placement, phase, scheduler, the provisioner annotation, and a missing namespace, which becomes the default one; the prepared pod is pending and marked as the simulator's own |
| `Kube.CoreDecides` | pkg/utils/pod.go:16-71 | Every classification of a pod, its tolerations and its demands depend only on what placement cannot change |
| `Kube.DemandIs` | pkg/utils/utils.go:112-129 | Of every resource but pod slots a pod demands, on top of its overhead, the most of its containers together and any single init container |
| `Kube.OtherTaintsKeys` | pkg/simulator/clustercompression/simulator.go:216-222 | The uncordon loop keeps exactly the taints with another key, and keeps the list as it is exactly when none has the unschedulable key |
| `Kube.OtherTaintsTwice` | pkg/simulator/clustercompression/simulator.go:186-222 | Uncordoning undoes cordoning up to taints with the unschedulable key, and is idempotent |
| `NodeFilters.FilterDecidesPasses` | pkg/simulator/clustercompression/options.go:104-166 | The ordered filter accepts a node, whatever order its pods are listed in, exactly when the node is acceptable, runs at least one pod, and no pod on it is objected to |
| `NodeFilters.RejectionsAreJustified` | pkg/simulator/clustercompression/options.go:104-182 | The reason given for a rejection is true of the node or of a pod on it, in their fields, and no earlier reason about the node is |
| `NodeFilters.PassesExactlyWhen` | pkg/simulator/clustercompression/options.go:104-182 | A node is accepted if and only if none of the eleven reasons holds: labels, taints and readiness of the node, no pod at all, or a pod with a source annotation other than "api", a mirror annotation, a host-path or empty-dir volume, or a CloneSet owner, as far as the options ask |
| `NodeFilters.PodVerdictIs` | pkg/simulator/clustercompression/options.go:134-163 | The verdict on a pod is the first reason, in the order of the checks, that holds of its fields; an ordinary pod is never objected to |
| `NodeFilters.PodVerdictOfCore` | pkg/simulator/clustercompression/options.go:134-163 | Moving a pod does not change the filter's verdict on it |
| `NodeFilters.ConvertFilterStatusesToStatus` | pkg/simulator/clustercompression/nodeFilter.go:160-183 | Every reason but the taint one is reported with its exact count; the taint count is reduced by the selected count, and is right if and only if there were no such nodes or nothing was selected |
| `Placement.LoadWith` | pkg/plugins/generic/plugin.go:36-50 | Storing or replacing one pod changes the load of its node by that pod's demand and no other load |
| `Cluster.Store.ListNodes` | pkg/simulator/clustercompression/nodeFilter.go:118-121 | Listing yields every node once, in an unspecified order |
| `Cluster.Store.PodsOnNode` | pkg/framework/kubescheduler.go:271-281 | The pods of a node, each once, and no others |
| `Cluster.Framework.GetPodsByNode` | pkg/framework/kubescheduler.go:271-287 | Lists exactly the pods of the node; an error exactly when it has none |
| `Cluster.Framework.Stop` | pkg/framework/kubescheduler.go:336-385 | A stopped framework is left alone; otherwise reason and cluster are recorded, and the framework is stopped and its channels closed exactly when saving does not fail |
| `Cluster.Store.CreatePod` | pkg/framework/kubescheduler.go:387-390 | Creating fails exactly on a taken key and then changes nothing |
| `InitialWorld.Initialize` | pkg/framework/kubescheduler.go:291-322 | Loading fails exactly when two kept objects share a name; otherwise the store holds exactly the objects the snapshot is to contribute, in the stated form |
| `InitialWorld.LoadedIsExact` | pkg/framework/kubescheduler.go:472-509 | A pod is in the store if and only if it comes from a pod of the snapshot that is not finished, not terminating where those are dropped, and not excluded with its node; it is unchanged, or unplaced and pending; nodes are exactly those not excluded, unchanged |
| `InitialWorld.ExcludedNodesAreGone` | pkg/framework/kubescheduler.go:472-505 | Excluded nodes and their DaemonSet pods are gone; other pods on them stay only when scheduled pods are kept and not ignored |
| `InitialWorld.EverythingIsRescheduled` | pkg/framework/kubescheduler.go:484-496 | When scheduled pods are dropped, every remaining pod is pending or a DaemonSet pod as it was, and no pod that should stay is lost |
| `InitialWorld.CompressionStarts` | pkg/framework/kubescheduler.go:472-509 | Compression starts in an initial state exactly when names are proper and no kept pod waits for the simulator's scheduler |
| `CompressionSteps.NextKeepsInv` | pkg/simulator/clustercompression/simulator.go:93-336 | Every transition keeps the invariant: shape of the attempt, conservation, fates of nodes, counters, cache, drained nodes |
| `CompressionSteps.SelectKeepsInv` | pkg/simulator/clustercompression/simulator.go:128-176 | Selecting, cordoning, deleting and re-creating the first pod keeps it |
| `CompressionSteps.BindKeepsInv` | pkg/simulator/clustercompression/simulator.go:93-126 | Binding and the hook keep it |
| `CompressionSteps.RollbackKeepsInv` | pkg/simulator/clustercompression/simulator.go:304-336 | Rolling back keeps it |
| `CompressionSteps.RunInv` | pkg/simulator/clustercompression/simulator.go:81-85 | So it holds in every state of every run |
| `CompressionSteps.ServedIsCurrent` | pkg/simulator/clustercompression/nodeFilter.go:104-154 | What selection serves, cached or new, equals the stored node and passes the filter now |
| `CompressionInvariant.UndoAt` | pkg/simulator/clustercompression/simulator.go:250-269 | The rollback puts every original back unchanged and keeps every other pod |
| `CompressionTheorems.StaleCacheIsSound` | pkg/simulator/clustercompression/nodeFilter.go:104-154 | In every run every selected node, however old the batch it was served from, is the current one and passes the full filter against the current cluster |
| `CompressionTheorems.TrialKeepsBase` | pkg/simulator/clustercompression/simulator.go:93-176 | During an attempt the pods a rollback would restore are those of the selection, and only the current node differs, by its cordon |
| `CompressionTheorems.RollbackIsExact` | pkg/simulator/clustercompression/simulator.go:304-336 | After any number of binds and then a failure all pods are exactly as at selection, and only that node has changed |
| `CompressionTheorems.SelectedIsUntouched` | pkg/simulator/clustercompression/nodeFilter.go:28-65 | A selected node is as it was at the start of the run and has neither been scaled down nor failed |
| `CompressionTheorems.GivenUpNode` | pkg/simulator/clustercompression/simulator.go:178-248 | After a failed attempt a node keeps its other taints in order and gains the failed label; it has its exact taints if and only if the stated condition on the original taints holds |
| `CompressionTheorems.PodsAreConserved` | pkg/simulator/clustercompression/simulator.go:93-290 | No pod is lost, duplicated or altered beyond placement: store keys and keys still to be created are disjoint and together the initial keys; unmovable pods are untouched |
| `CompressionTheorems.ProtectedPodsNeverChange` | pkg/simulator/clustercompression/simulator.go:277-286 | Terminating pods and pods owned by a DaemonSet are in every state exactly as the run found them |
| `CompressionTheorems.OnlyProtectedPodsRemain` | pkg/simulator/clustercompression/simulator.go:271-290 | Selecting a node takes down exactly the pods on it that are neither |
| `CompressionTheorems.RetiredNodesStayDrained` | pkg/simulator/clustercompression/simulator.go:93-176 | In every state every listed node has the success label, its other taints behind the unschedulable one, and only DaemonSet pods, terminating pods, and pods that tolerate all of those taints |
| `CompressionTheorems.OnePodInFlight` | pkg/simulator/clustercompression/simulator.go:99-175 | While a node is tried exactly one pod is pending, the last one created, and the two indices differ by one; otherwise none is |
| `CompressionTheorems.EveryBindProceeds` | pkg/simulator/clustercompression/simulator.go:93-126 | Every bind is counted and leads to the next pod, to the next node, or to the limit, and when |
| `CompressionProgress.NoReselection` | pkg/simulator/clustercompression/nodeFilter.go:39-53 | No node is selected twice in a run |
| `CompressionProgress.TriedSize` | pkg/simulator/clustercompression/simulator.go:107-172 | Scaled-down, failed and current nodes are distinct nodes of the cluster |
| `CompressionProgress.EveryStepCounts` | pkg/simulator/clustercompression/simulator.go:93-336 | Every transition lowers a non-negative rank made of untried nodes and unbound pods |
| `CompressionProgress.RunsEnd` | pkg/simulator/clustercompression/simulator.go:93-336 | Every run has at most nodes * (pods + 2) + 2 transitions, whatever the scheduler does |
| `CompressionOutcome.UntriedKeepPods` | pkg/simulator/clustercompression/simulator.go:271-290 | A pod on a node not yet tried has not moved, and would not be moved by a rollback |
| `CompressionOutcome.PodsElsewhereStay` | pkg/framework/kubescheduler.go:472-505 | Pods on nodes outside the cluster, such as excluded ones, never change |
| `CompressionOutcome.UntriedStayEligible` | pkg/simulator/clustercompression/nodeFilter.go:104-154 | A node acceptable at the start stays acceptable until it is tried |
| `CompressionOutcome.CandidatesAreServedInOrder` | pkg/simulator/clustercompression/nodeFilter.go:105-153 | Between consecutive selections the batch is served in its order without leaving a node out; once it is used up, the first of a new batch of all nodes that pass is served |
| `CompressionOutcome.OnlyCandidatesAreTried` | pkg/simulator/clustercompression/nodeFilter.go:104-154 | A node that is tried was a candidate at the start: acceptable with all its pods, but for possibly not running one yet |
| `CompressionOutcome.NothingLeftToTry` | pkg/simulator/clustercompression/nodeFilter.go:115-149 | When selection gives up no node of the final cluster passes the filter, and every node that passed at the start was scaled down or failed |
| `CompressionOutcome.StoppedAtTheLimit` | pkg/simulator/clustercompression/simulator.go:95-97 | A run stopped at the limit lists at least that many nodes |
| `CompressionOutcome.CountersCountEvents` | pkg/simulator/clustercompression/simulator.go:128-134 | The reported counters equal the numbers of selections, binds and failures of the run |
| `CompressionOutcome.StatusMatchesCluster` | pkg/simulator/clustercompression/simulator.go:107-172 | Listed nodes are exactly those that got the success label, each once; simulated, selected and listed counts agree; selections are the finished attempts plus the pending one |
| `CompressionOutcome.RetiredNodesAreNotTainted` | pkg/simulator/clustercompression/nodeFilter.go:47-53 | A listed node is always rejected for its success label, never for its taint |
| `CompressionOutcome.DrainsAreLimited` | pkg/simulator/clustercompression/simulator.go:95-123 | With a limit at most that many nodes are drained by moving pods, in any run |
| `CompressionOutcome.LimitIsCrossedExactlyWhen` | pkg/simulator/clustercompression/simulator.go:161-172 | A transition takes the list over the limit if and only if the list is full and the node selected has nothing to move |
| `CompressionOutcome.LimitHoldsExactlyWhen` | pkg/simulator/clustercompression/simulator.go:95-172 | The limit has held in every state so far if and only if no node with nothing to move was selected when the list was full |
| `CompressionOutcome.LimitHolds` | pkg/simulator/clustercompression/simulator.go:95-172 | The limit holds in every run if every candidate that runs pods runs a movable one |
| `CompressionCapacity.EveryStateFits` | pkg/simulator/clustercompression/simulator.go:128-290 | If every node carries its pods at the start, every node does in every state, and would after a rollback |
| `CompressionCapacity.BindLoad` | pkg/plugins/generic/plugin.go:36-50 | A bind with its hook adds the pod's demand to the target and nothing anywhere else |
| `CompressionMoves.ToleratedIsAdmitted` | pkg/simulator/clustercompression/simulator.go:178-248 | Whatever became of a node, a pod that tolerates its taints now tolerates all the taints it had in the snapshot, or the node is a candidate that does not guard its taints, and then those with other keys |
| `CompressionMoves.GuardsExactlyWhen` | pkg/simulator/clustercompression/simulator.go:178-248 | A failed attempt lets no pod onto a node that the node's own taints kept away if and only if the only such taint it has with the unschedulable key is the plain one, on a node marked unschedulable |
| `CompressionMoves.TriedIsCandidate` | pkg/simulator/clustercompression/nodeFilter.go:104-154 | Listed, failed and current nodes were candidates at the start |
| `CompressionMoves.EveryPodIsSettled` | pkg/plugins/generic/plugin.go:36-50 | In every state, and after a rollback, a pod is as the run found it, or came from a candidate and is pending or on a node of the cluster whose snapshot taints it tolerates, all of them unless that node is a candidate that does not guard them |
| `CompressionMoves.MovedPodsRun` | pkg/plugins/generic/plugin.go:41-43 | A pod that is not as the run found it belongs to the simulator's scheduler, and is running if it is placed |
| `CompressionMoves.TaintsAreRespected` | app/cmds/clustercompression/options/clustercompression.go:42 | With tainted nodes excluded, which is the default, or with candidates that guard their taints, every moved pod tolerates all the taints the snapshot gives its node, in every state and after a rollback |
| `CompressionDrain.CleanExactlyWhen` | pkg/simulator/clustercompression/simulator.go:93-176 | No movable pod has ever been on a listed node or one being drained if and only if no bind went to a node that was listed or being drained at that moment |
| `CompressionDrain.RetiredNodesAreEmpty` | pkg/simulator/clustercompression/simulator.go:271-290 | If no movable pod of a candidate tolerates all taints of a cordoned candidate, listed nodes hold only unmovable pods, unchanged, now and after a rollback |
| `CompressionComeback.SomeRunBringsItBack` | pkg/simulator/clustercompression/simulator.go:128-176 | If a node passes the filter, carries its pods and runs a movable pod that tolerates all its taints once cordoned, some run puts that pod back on the node being drained |
| `CompressionAdvice.AdviceIsSound` | README.md:180-214 | In every state, a stop at the limit included, and with the attempt under way put back: every pod of the snapshot is there and placed where it was or where it is admitted, no node carries more than it can if none did at the start, movable pods are off the listed nodes if the cordon binds, and all taints of the snapshot are respected if tainted nodes are excluded or candidates guard their taints |
| `CompressionAdvice.StoreIsSound` | pkg/simulator/clustercompression/simulator.go:93-126 | The same of the store itself whenever no pod is pending; only a stop at the limit leaves pods out, exactly those still to be created |
| `CompressionExamples.LimitOfOneGivesTwo` | pkg/simulator/clustercompression/simulator.go:161-172 | A run with limit one that lists two nodes |
| `CompressionExamples.TolerantPodComesBack` | pkg/simulator/clustercompression/simulator.go:178-206 | A run in which a movable pod ends on the listed node |
| `CompressionExamples.TaintedNodeIsNotReported` | pkg/simulator/clustercompression/nodeFilter.go:167-175 | A run that ends with one listed and one tainted node and a summary without the taint |
| `CompressionExamples.LostTaintLetsPodIn` | pkg/simulator/clustercompression/simulator.go:208-222 | A run in which a failed attempt takes a taint from a node, which then gets a pod that does not tolerate it |
| `CompressionFilter.SingleNodeFilter.NodeFilter` | pkg/simulator/clustercompression/options.go:104-166 | Accepts exactly the nodes of which no reason holds in the store; otherwise gives a reason that holds, after all earlier ones about the node have failed; a taint rejection exactly for tainted, otherwise labelled-acceptable nodes |
| `CompressionFilter.SingleNodeFilter.NewBatch` | pkg/simulator/clustercompression/nodeFilter.go:118-145 | The batch lists exactly the accepted nodes; batch and statuses together are all nodes; every status is true of some node |
| `CompressionFilter.SingleNodeFilter.SelectNode` | pkg/simulator/clustercompression/nodeFilter.go:104-154 | Serves from the batch while it lasts, else the first of a new batch; without a node, none passes and the summary's reasons are true |
| `CompressionSimulator.Simulator.Cordon` | pkg/simulator/clustercompression/simulator.go:178-206 | The taints become the unschedulable one with effect NoSchedule, followed by those with other keys in order, and nothing else changes; fails exactly on an unknown node |
| `CompressionSimulator.Simulator.UnCordon` | pkg/simulator/clustercompression/simulator.go:208-231 | The node keeps exactly the taints with other keys, in order |
| `CompressionSimulator.Simulator.AddLabelToNode` | pkg/simulator/clustercompression/simulator.go:233-248 | The node gains the label with the value "true" and nothing else changes |
| `CompressionSimulator.Simulator.DeletePodsByNode` | pkg/simulator/clustercompression/simulator.go:271-290 | A pod leaves the store if and only if it is on the node, is not terminating and has no DaemonSet owner; those pods are remembered; an error exactly when the node has no pods |
| `CompressionSimulator.Simulator.UpdatePodsFromCreatedPods` | pkg/simulator/clustercompression/simulator.go:250-269 | Deletes the re-created pods and restores the originals; succeeds exactly when the former exist and the others do not |
| `CompressionSimulator.Simulator.TakeDown` | pkg/simulator/clustercompression/simulator.go:137-151 | Resets the attempt, cordons, deletes; never fails on a served node |
| `CompressionSimulator.Simulator.TryNode` | pkg/simulator/clustercompression/simulator.go:154-173 | Re-creates the first pod, or retires a node with nothing to move |
| `CompressionSimulator.Simulator.PickNode` | pkg/simulator/clustercompression/simulator.go:129-134 | Counts the selection; the node served is in the store and runs a pod |
| `CompressionSimulator.Simulator.SelectNextNode` | pkg/simulator/clustercompression/simulator.go:128-176 | Recurs until a node has pods to move or none is left, and terminates |
| `CompressionSimulator.Simulator.BindPod` | pkg/plugins/generic/plugin.go:36-50 | Stores node and phase of the bound pod; fails exactly on an unknown pod |
| `CompressionSimulator.Simulator.PostBind` | pkg/plugins/generic/plugin.go:56-68 | Counts the bind and reacts only to the simulator's own pods |
| `CompressionSimulator.Simulator.PostBindHook` | pkg/simulator/clustercompression/simulator.go:93-118 | Stops at the limit, creates the next pod, or retires the node |
| `CompressionSimulator.Simulator.HandleBind` | pkg/simulator/clustercompression/simulator.go:93-126 | Extends the run by the bind transition and what follows from it |
| `CompressionSimulator.Simulator.HandleUnschedulable` | pkg/simulator/clustercompression/simulator.go:304-336 | Extends the run by the rollback transition and the next selection |
| `CompressionSimulator.Simulator.Run` | pkg/simulator/clustercompression/simulator.go:83-85 | Starts the run with the first selection |
| `CompressionSimulator.Simulator.WhenStopped` | pkg/simulator/clustercompression/simulator.go:87-91 | What the report of a stopped simulator means for its store: listed nodes drained; the placement sound, taints of the snapshot included; no pod missing but, at the limit, those still to be created; limit reached, or no node passes and every initial candidate has been tried |
| `Capacity.CopiesDiffer` | pkg/simulator/capacityestimation/podgenerator.go:23-32 | No two generated copies share a key |
| `Capacity.CopyIs` | pkg/simulator/capacityestimation/podgenerator.go:23-32 | A copy is the template under the name with a dash and the counter, prepared for the simulator's scheduler, with the template's demands |
| `Capacity.DecimalReadsBack` | pkg/simulator/capacityestimation/podgenerator.go:25-26 | The printed counter reads back as the counter, in digits without a leading zero |
| `Capacity.SlotsAreTheMinimum` | README.md:70-94 | A node's slots are the least, over the resources demanded, of free divided by demanded |
| `Capacity.TakesIffSlot` | README.md:70-94 | A copy fits a node exactly when the node has a slot |
| `Capacity.OneSlotLess` | pkg/simulator/capacityestimation/simulator.go:141-152 | Placing a copy takes one slot of its node and none elsewhere |
| `Capacity.NoSlotAnywhere` | pkg/simulator/capacityestimation/simulator.go:173-182 | No slots are left exactly when no node takes a copy |
| `CapacityRuns.RunInv` | pkg/simulator/capacityestimation/simulator.go:141-188 | In every state slots left and pods counted add up to the initial slots, and the store holds the initial pods and the copies so far |
| `CapacityRuns.AnswerIsOrderIndependent` | pkg/simulator/capacityestimation/simulator.go:141-188 | Whatever nodes the scheduler chose, an answered run counted the closed form: all slots, capped by a positive limit |
| `CapacityRuns.EndsWithAnswerIffNamesAreFree` | pkg/simulator/capacityestimation/simulator.go:148-160 | A run that cannot go on has an answer if and only if none of the names it needs was taken at the start |
| `CapacityRuns.RunsEnd` | pkg/simulator/capacityestimation/simulator.go:141-188 | A run has at most two transitions more than there are slots |
| `CapacityRuns.SlotsAreUsedUp` | pkg/simulator/capacityestimation/simulator.go:141-152 | On every node pods counted and slots left are the slots it had |
| `CapacityExamples.TakenNameHangs` | pkg/simulator/capacityestimation/simulator.go:148-160 | A run that stays without a pending pod because a name is taken, with room left |
| `CapacityAnswer.ReviewIsTheSlots` | pkg/simulator/capacityestimation/report.go:148-182 | No node is listed with more replicas than its slots, and with exactly its slots when the run ended unschedulable |
| `CapacitySimulator.SinglePodGenerator.Generate` | pkg/simulator/capacityestimation/podgenerator.go:23-32 | Yields the next numbered copy |
| `CapacitySimulator.Simulator.CreateNextPod` | pkg/simulator/capacityestimation/simulator.go:154-160 | Counts and creates the next copy; fails exactly on a taken name |
| `CapacitySimulator.Simulator.PostBindHook` | pkg/simulator/capacityestimation/simulator.go:141-152 | Records the pod, then stops at the limit or creates the next copy |
| `CapacitySimulator.Simulator.HandleBind` | pkg/simulator/capacityestimation/simulator.go:141-152 | Extends the run by the bind transition |
| `CapacitySimulator.Simulator.HandleUnschedulable` | pkg/simulator/capacityestimation/simulator.go:173-182 | Extends the run by the unschedulable transition and stops |
| `CapacitySimulator.Simulator.Report` | pkg/simulator/capacityestimation/report.go:193-200 | Replicas equal the closed form on the initial cluster, or none when not even the first copy could be created; no node is listed beyond its slots, and each with all of them after an unschedulable copy |
| `CapacityReport.InstancesSum` | pkg/simulator/capacityestimation/report.go:221-227 | Adds up the replicas |
| `CapacityReport.CountNode` | pkg/simulator/capacityestimation/report.go:159-175 | One replica more on the node, the list free of duplicates and zeros |
| `CapacityReport.ParsePodsReview` | pkg/simulator/capacityestimation/report.go:148-182 | Template j gets the exact node histogram of the pods at indices congruent to j, and all instances together are all pods |
| `Simulation.DetectorAgrees` | pkg/simulator/schedulersimulation/simulator.go:73-94 | The succeeded set is the pods seen on a node; the failed set those refused and never bound |
| `Simulation.SetsPartitionAdded` | pkg/simulator/schedulersimulation/simulator.go:73-94 | The sets are disjoint subsets of the added pods, and the counter is their number |
| `Simulation.FiresIffDone` | pkg/simulator/schedulersimulation/simulator.go:111-117 | The counting test holds exactly when every added pod is bound (bound or refused) |
| `Simulation.KeysTellPodsApart` | pkg/simulator/schedulersimulation/simulator.go:68-70 | Two pods have the same key exactly when namespace and name agree |
| `Simulation.RefusedPodStops` | pkg/simulator/schedulersimulation/simulator.go:80-122 | A single unplaced pod whose update says PodScheduled is False ends a run that waits for AllScheduled, and not one that waits for AllSucceed |
| `Simulation.StopsIffDoneAtUpdate` | pkg/simulator/schedulersimulation/simulator.go:80-122 | The run stops if and only if some update at which saving works finds the exit condition true of the pods |
| `Simulation.DoneRunsStopExactlyWhen` | pkg/simulator/schedulersimulation/simulator.go:73-122 | When only pods that were unbound when added are updated, a run whose pods are done stops if and only if there was such a pod |
| `Simulation.UnboundGetsUpdated` | pkg/simulator/schedulersimulation/simulator.go:73-122 | A pod that was unbound when added is done only after an update, whatever else is updated |
| `Simulation.DoneRunsStopOnUpdate` | pkg/simulator/schedulersimulation/simulator.go:80-122 | A run whose pods are done, additions first, stops if and only if an update has occurred |
| `Simulation.IdleUpdateStops` | pkg/simulator/schedulersimulation/simulator.go:80-122 | The witness that an update of a pod that was bound all along stops a run too |
| `Simulation.AlreadyDoneNeverStops` | pkg/simulator/schedulersimulation/simulator.go:73-79 | The witness: one pod that is placed when it is added, and no stop |
| `Simulation.Simulator.AddFunc` | pkg/simulator/schedulersimulation/simulator.go:73-79 | Keeps sets and counter in step with the events |
| `Simulation.Simulator.UpdateFunc` | pkg/simulator/schedulersimulation/simulator.go:80-122 | Records the reason when every added pod is done and the framework still runs, and stops it then exactly when the status can be saved |
| `Simulation.Simulator.StoppedExactlyWhen` | pkg/simulator/schedulersimulation/simulator.go:80-122 | A simulator that saves no status has stopped if and only if some update left every added pod done |
| `Resources.AddList` | pkg/utils/utils.go:115-117 | Adds every listed quantity, and only those |
| `Resources.SetMax` | pkg/utils/utils.go:119-122 | Raises every listed quantity but the pod count to at least the listed amount |
| `Resources.ComputePodResourceRequest` | pkg/utils/utils.go:112-129 | For each resource: at least all containers together plus overhead, at least each init container plus overhead, and one of these; the pod count is that of the containers plus overhead |
| `Resources.AddResource` | pkg/simulator/schedulersimulation/report.go:133-143 | Adds the vectors resource by resource, except the pod count |
| `SimulationReport.GroupByNode` | pkg/simulator/schedulersimulation/report.go:90-92 | Groups the pods by node, in order |
| `SimulationReport.Detail` | pkg/simulator/schedulersimulation/report.go:100-122 | Replicas, total request, allocatable and DaemonSet flag of a node are those of its pods |
| `SimulationReport.GenerateReport` | pkg/simulator/schedulersimulation/report.go:85-131 | The unplaced pods are listed and each node that runs pods has exactly one true detail, whatever the iteration order |
| `SimulationReport.ReportConserves` | pkg/simulator/schedulersimulation/report.go:85-143 | Unschedulable pods and replicas add up to all pods, and for every resource the reported requests to those of the placed pods; a pod count among the requests is never added up |
| `SimulationOutcome.AllSucceedLeavesNone` | pkg/simulator/schedulersimulation/simulator.go:114-121 | A stop because all pods succeeded yields a report without unschedulable pods, all pods being replicas |
| `SimulationOutcome.NoneLeftExactlyWhen` | pkg/simulator/schedulersimulation/report.go:94-98 | With every added pod in the store, the report is free of unschedulable pods if and only if the success condition holds |
| `SimulationOutcome.AllScheduledLeavesRefused` | pkg/simulator/schedulersimulation/simulator.go:111-113 | A stop because all pods were looked at leaves only pods unschedulable that were refused and never placed |
| `StopProtocol.NextKeepsInv` | pkg/framework/kubescheduler.go:336-385 | Each action of each caller keeps mutual exclusion and the order of flag and channels |
| `StopProtocol.ChannelsCloseOnceAndTogether` | pkg/framework/kubescheduler.go:376-382 | In every interleaving no channel is closed twice, and outside the lock all are closed or none |
| `StopProtocol.FirstSuccessIsFinal` | pkg/framework/kubescheduler.go:342-356 | After the first success reason and cluster never change |
| `StopProtocol.ReportIsTheStoppers` | pkg/framework/kubescheduler.go:346-382 | The status that stays is the one recorded by the caller that stopped the framework |
| `StopProtocol.OnlySaversStop` | pkg/framework/kubescheduler.go:358-382 | A caller marks the framework stopped only after saving the status, and never after a save of its has failed |
| `StopProtocol.StoppedWasMarked` | pkg/framework/kubescheduler.go:342-382 | The framework is stopped if and only if some caller has marked it |
| `StopProtocol.ClosingIsNeverStuck` | pkg/framework/kubescheduler.go:376-384 | A framework marked stopped always gets its remaining channels closed |
| `NamespaceNames.SplitJoin` | app/cmds/capacityestimation/options/namespacename.go:39-46 | Splitting what was joined gives the parts back when they are free of the separator |
| `NamespaceNames.ReadOne` | app/cmds/capacityestimation/options/namespacename.go:20-33 | A part without a slash is a name in the namespace "default", a part with one is namespace and name, and a part is malformed exactly if it has more |
| `NamespaceNames.ReadSingle` | app/cmds/capacityestimation/options/namespacename.go:18-37 | A list without a comma is a single part |
| `NamespaceNames.RoundTripExactlyWhen` | app/cmds/capacityestimation/options/namespacename.go:18-46 | Reading what is printed gives the same list if and only if it is non-empty and free of separators |
| `NamespaceNames.PrintIsNormalForm` | app/cmds/capacityestimation/options/namespacename.go:18-46 | Printing what was read reads back as the same list and prints the same |
| `NamespaceNames.ParseConcat` | app/cmds/capacityestimation/options/namespacename.go:18-37 | Reading "a,b" is reading a and then b, stopping at the first malformed part |
| `NamespaceNames.NameList.Set` | app/cmds/capacityestimation/options/namespacename.go:18-37 | Appends what was read before the first malformed part and fails exactly on one |
| `NamespaceNames.NameList.String` | app/cmds/capacityestimation/options/namespacename.go:39-46 | Prints the list |

## Left out

- The scheduler, informers, fake client, REST mapper and dynamic client: libraries; replaced by the store and the
  scheduler relation described above.
- Command wiring, configuration files, scheduler plugin lists, reading templates, and the running cluster as a source
  of objects: `InitialWorld.Initialize` starts from a list of typed objects.
- Printing, logging, timestamps, identifiers, node images, and the order and wording of the reason summary: reasons are
  an enumeration.
- getMainStopReason cuts the stop message at its first colon; reasons are not strings here.
- Failing calls of the fake client in `cc`: the calls fail only as a store would (unknown or taken names), and the
  branches for that are shown unreachable.
- `workqueue.ParallelizeUntil` in node selection is a sequential loop: each worker writes its own slot.
- `multiSimulator` runs one independent simulator for each template and puts each report into its own slot; one
  simulator is modelled.
- Counters are unbounded; the source's `int` and `uint` would wrap around after more steps than a run can have.
- Pod updates between events, preemption, and pods added while `cc` runs: nothing else writes to the store.
- CompressionDrain.RetiredNodesAreEmpty: its condition on the snapshot is sufficient, and SomeRunBringsItBack gives one
  that is sufficient for the opposite; CleanExactlyWhen is the exact one, run by run, since the scheduler decides whether
  a tolerant pod comes back.
- CompressionAdvice.AdviceIsSound: that movable pods are off the listed nodes is under that condition, and that all
  taints are respected is under the condition that candidates guard theirs.
- CompressionOutcome.LimitHolds: its condition on the snapshot is sufficient; LimitHoldsExactlyWhen is the exact one, run
  by run.
- Scheduler plugins whose verdict on a node changes as `ce` places copies (affinity, topology spread, host ports): the
  set of admitted nodes is fixed for a run.
- Resources.ComputePodResourceRequest: scalar names are all names other than the four with fields of their own.
- CapacityReport.ParsePodsReview: entries are values in a list, not shared pointers that are raised in place.
- Simulation.Simulator.AddFunc: the two concurrent maps are sets; handlers run one at a time.
- A panic when the save file cannot be opened in `Stop`: only failures that are returned are modelled.
