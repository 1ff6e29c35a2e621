# Fluence, verified

Fluence is a Kubernetes scheduler plugin and mutating webhook that place pods with the Fluxion
graph matcher, and a Python sidecar that lets gated workers go once a quantum task is about to run.
This project models that behaviour in Dafny and proves what it promises: over every run of the
scheduler's steps, over every pod and handler order in the webhook, over every interleaving of
scout, sidecar and workers, over every sequence of admissions, and over every configured resource
tree. `dafny verify dfyconfig.toml` checks all of it.

## How the files fit together

| file | what it holds |
|---|---|
| `Vocabulary.dfy`, `Text.dfy`, `JobIds.dfy`, `Sorting.dfy`, `Sums.dfy`, `Runs.dfy` | shared names, strings, the jobid annotation codec, sorted sets, sums over maps and sizes of sets, runs of a state machine |
| `Constraints.dfy`, `Placement.dfy`, `JobspecMeaning.dfy` | constraints, jobspecs for a pod group, reading an allocation back, and what jobspecs ask for from the requests alone |
| `SchedulerModel.dfy`, `SchedulerPlugin.dfy`, `SchedulerRuns.dfy`, `SchedulerExamples.dfy` | the plugin's steps on values, the plugin as classes proved to follow them, all runs, and runs in which ids are freed, orphaned or abandoned |
| `MatchOutcomes.dfy`, `ReapOutcomes.dfy` | what a match holds and reports from Fluxion's answers alone, and exactly when a gang is over and gives its ids back |
| `Json.dfy`, `Pointers.dfy`, `Patches.dfy`, `PodEdits.dfy`, `PodPaths.dfy` | JSON, JSON Pointer (RFC 6901), JSON Patch (RFC 6902), and the decoded pod with its edits |
| `PodMirror.dfy`, `PodTasks.dfy`, `Handlers.dfy` | the webhook's own pod, the per-container steps, the handlers and their dispatch |
| `WebhookPod.dfy`, `WebhookDispatch.dfy` | the webhook at work in place: loops, patch operations and cluster effects, proved against `Handlers` |
| `HandlerPatches.dfy`, `HandlerOutcomes.dfy`, `PodFrames.dfy` | every patch applies and agrees with the pod, loses nothing, and leaves the rest of the document alone |
| `GangReading.dfy`, `GangRoles.dfy`, `GangSplit.dfy`, `WorkerJobspecs.dfy` | how a gang is read from a submission, and its split into one scout and gated workers |
| `Submitters.dfy`, `MembersServed.dfy`, `GangStored.dfy`, `LonePods.dfy` | what the server stores: the interceptor, the handoff volume and the sidecar of a scout, what a worker is told, and pods outside a gang |
| `Admission.dfy`, `AdmissionReading.dfy`, `AdmissionRuns.dfy`, `AdmissionExamples.dfy`, `RoomRule.dfy` | the capacity reading, what one node, pod or record does to it, the admission rule, runs of admissions, runs that break a condition, and the rule as the webhook asks it |
| `Poll.dfy`, `Handoff.dfy`, `Protocol.dfy`, `ProtocolExamples.dfy` | the sidecar's poll, the shared volume and the ungating, the interleaved protocol, and runs that let go early |
| `Resources.dfy`, `Search.dfy` | attribute inheritance, properties, and pruned search |
| `Graph.dfy`, `GraphBuilding.dfy`, `GraphShape.dfy`, `GraphParts.dfy` | the graph and its builder, the build loops proved against it, what every graph is like, and where each node's parts and each tree hang |

Each imperative part of the sources is a method or a class whose contract equates it with a
function on values; the lemmas are about those functions. Outside parties are small contracts.
Fluxion issues 64-bit jobids it never issued before and answers a jobspec only with vertices that
satisfy it. The API server applies a patch or refuses it. The vendor's task moves from queued to
running to a final state.

## Environment conditions

- Scheduler runs (`SchedulerRuns.Assumed`): a PodGroup and an ungrouped pod in a namespace do not
  share a name, an owner's events are handled before its key is used again, and a group is not
  taken through PostFilter while an owner that is not being torn down has its ids recorded. No
  ungrouped pod or PodGroup arrives with a jobid annotation that parses, unless it names its own
  ids, and only the plugin writes one later. Nothing in the code enforces the last two.
  `PostFilterKeepsIff`, `CreatePodKeepsIff` and `CreateGroupKeepsIff` say exactly which steps are
  safe, and `SchedulerExamples` has a run that breaks each of the recording and the annotation
  conditions.
- Webhook (`PodEdits.Shaped`): the document has metadata and spec objects and every container is an
  object, as the API server always sends them.
- Gang split (`GangSplit.MemberOf`): the gang's pods agree on size and cores, are sized by their
  annotation or their Job, do not name a container `fluence-sidecar`, and carry neither the quantum
  gate nor the role variable already.
- Admission runs (`AdmissionRuns.Assumed`), one at a time over fixed nodes: pods and groups do not
  share names, nor is a record's name used again while a live pod names it. An admission finds
  running cores within the budget, or no preemptible ones to admit against. A record that arrives on
  an object instead of through the rule fits in the room left. A pod that names a record cannot be
  preempted, is one of no more live members than the record is for, has the cores it is for, and
  starts on a schedulable node only while the record stands. A pod that names none, a system
  DaemonSet's for one, may be of any priority; if it cannot be preempted it starts on a schedulable
  node only in the room left. The webhook enforces none of these. `RuleKeepsBudgetIff`,
  `PodArrivesIff`, `GroupArrivesIff`, `BindKeepsIff` and `HiddenPromiseIff` say exactly what keeps the
  budget, and `AdmissionExamples` has runs that do not.
- Protocol: one interpreter in the scout, and workers found by the group label. Timeouts, failed
  writes, failed annotates and patches, and the sidecar's death and restart are steps that may happen
  anytime; which of them a theorem excludes its hypotheses say (`Protocol.Calm`, exact by
  `HoldStepIff`).

## What the proofs found

- `SchedulerRuns.RetryAfterRecordOrphans`: after PostFilter on a recorded group, or on a recorded pod
  with no group, a fresh match and the loss of the PodGroup or pod before the next PreBind, teardown
  cancels the old ids from the annotation and forgets the group, so the new ids stay held for good.
  `SchedulerExamples.RetryAfterRecordRun` is such a run from an empty cluster, and
  `PostFilterKeepsIff` says exactly when PostFilter is safe.
- `SchedulerExamples.ForgedAnnotationRun`: a pod submitted with another pod's id in its jobid
  annotation frees that id when it is deleted. By `SchedulerRuns.ForgedAnnotationFreesIff` and
  `ForgedAnnotationOrphansIff` every annotation that does not name the pod's own ids frees or
  orphans some.
- Ids are also left to groups that no object or event owns. `SchedulerRuns.OwnedStepIff`: exactly when
  a pod is matched whose PodGroup is not there nor about to be torn down, since reconcileGroup returns
  when the PodGroup is gone. `SchedulerExamples.UnownedMatchRun` is such a run, meeting every
  condition, and by `AbandonedStaysHeld` such ids stay held until an object of that name is created
  again. Where no such match happens, `NothingLeaks`. Between a match and its memo write a deletion
  opens the same gap even for a PodGroup that was there (`DeletionDuringMatchLeaks`).
- `AdmissionRuns.RuleKeepsBudgetIff`: the rule keeps promises within the budget exactly when running
  cores are within it or nothing would be admitted anyway. After a cordon, Reachable is the whole
  preemptible share and the rule can promise more than the budget.
- `AdmissionExamples`: one plain pod, or one PodGroup, submitted with an admitted-cores annotation
  above the budget overpromises it on any nodes, and a gang of two admitted on three cores beside a
  lone pod overpromises them once a third member runs.
- `Protocol.TimeoutsLetGoEarly` and `Protocol.LostRecordStrands`: either hold timeout lets the
  session go under a live worker, and a publish that failed softly leaves the scout holding until
  its own timeout, since the sidecar then never writes the marker.
- `ProtocolExamples`: runs from the start in which the session goes under a live worker, one for
  each timeout and one for each way a sidecar can restart too late, over a live worker or over a
  marker already written.
- `GangReading.AnnotatedSizes`: a group-size annotation is kept to its low 32 bits, so 4294967299
  counts as a gang of three.
- `Submitters.SubmitterEquips`: a pod that comes with a volume named `fluence-handoff` keeps it, and
  then its workload containers are not given a mount of it, although the sidecar is.
- `Handoff.PatchRemovesGateIff`: ungating removes the first scheduling gate, so a worker with
  another gate in front keeps the quantum gate and loses the other.
- `GraphShape.RenamedRootLosesDefaultParent`: loading writes the parent "cluster" into every tree
  that names none, so under a root of another name such a configuration does not build
  (`pkg/cluster/resources.go:184` against `pkg/cluster/resources_graph.go:97`).
- `Search.RequireReachesIff`: a required attribute finds a nested vertex only when the device at the
  top sets it to that value and nothing on the path below overrides or clears it.
- `Poll`: a task that is ready but whose position cannot be read counts as an error, not as ready.

Where code and documentation differ, the code is followed. `python/fluence/sidecar.py:13-32` gives
two defaults for FLUENCE_WORKER_TIMEOUT, the code uses 3600. `pkg/placement/placement.go:323-327`
promises a refusal for any device the graph lacks, the code lets every device pass when the known
set is empty but not nil (`Placement.JobspecsIff`).

## Model

| member | source | states |
|---|---|---|
| JobIds.ParseJobIDs | pkg/fluence/fluence.go:937-958 | the list read from an annotation: fields trimmed, blanks skipped, refused on a bad field or an empty list |
| JobIds.FormatJobIDs | pkg/fluence/fluence.go:666-672 | the ids in decimal, joined by commas |
| JobIds.ParseFormat | pkg/fluence/fluence.go:666-672 | parsing the rendering of any non-empty list of 64-bit ids gives the list back |
| JobIds.ParseIgnoresPadding | pkg/fluence/fluence.go:937-958 | spaces around fields and empty fields change nothing |
| JobIds.ParseStable | pkg/fluence/fluence.go:937-958 | whatever parses, renders and parses again to the same list |
| JobIds.ReadsIff | pkg/fluence/fluence.go:937-958 | an annotation is read exactly when it has a field that is not blank and every such field is a 64-bit number; what is read is those numbers, one a field |
| Placement.PodResources | pkg/placement/placement.go:154-180 | counts per type over all containers, memory rounded up to MiB, never no core |
| Placement.RequireConstraintsFromPods | pkg/placement/placement.go:122-146 | the distinct require properties of the group, in increasing order |
| Placement.GroupDevices | pkg/placement/placement.go:343-353 | each device type any pod needs, with the largest count |
| Placement.JobspecsForGroup | pkg/placement/placement.go:328-385 | the jobspecs of a group, or the first device type refused |
| Placement.JobspecsByType | pkg/placement/placement.go:328-385 | one compute jobspec for all pods, then one per device type in order, no other |
| Placement.JobspecsIff | pkg/placement/placement.go:364-376 | a group gets jobspecs exactly when each device type it needs is known, or the known set is empty but not nil |
| Placement.SystemConstraintsMeaning | pkg/placement/placement.go:225-257 | a vertex is selected exactly when it has every property and is not excluded |
| Placement.ComputeSelects | pkg/placement/placement.go:262-285 | the compute jobspec selects exactly the physical vertices not excluded |
| Placement.DeviceSelects | pkg/placement/placement.go:292-312 | a device jobspec selects exactly virtual vertices of its class with every required attribute |
| Placement.PlacementFromAllocation | pkg/placement/placement.go:417-440 | nodes and backend of an allocation |
| Placement.ClassifiedNodes | pkg/placement/placement.go:417-440 | the nodes bound to are exactly those not marked virtual |
| Placement.ClassifiedBackend | pkg/placement/placement.go:417-456 | the backend is the first named virtual vertex, with its attributes |
| JobspecMeaning.ContainerAsks | pkg/placement/placement.go:154-172 | a container asks for a type by its native name and by Fluxion's, memory in the least MiB, all else in the least whole units that cover it |
| JobspecMeaning.NeedsAdd | pkg/placement/placement.go:154-172 | containers' needs add up |
| JobspecMeaning.PodAsks | pkg/placement/placement.go:174-180 | a pod needs what its containers do together, and a core when that is none |
| JobspecMeaning.JobspecsAre | pkg/placement/placement.go:328-385 | one compute jobspec with a slot a pod and the first pod's compute needs, then for each device type some pod needs, in increasing order, one slot of as many as the pod that needs most |
| JobspecMeaning.RequiresAre | pkg/placement/placement.go:122-146 | a property is required exactly when some pod's require annotation names its attribute and value |
| JobspecMeaning.RefusalNames | pkg/placement/placement.go:364-376 | a refused group is told the first of its device types that is refused, and whether there is a graph |
| SchedulerPlugin.Fluence.MatchGroup | pkg/fluence/fluence.go:342-402 | all or nothing: one id per jobspec joins the held set, or the held set is as before |
| SchedulerPlugin.Fluence.MatchNext | pkg/fluence/fluence.go:346-391 | one submission, and the rollback on each way it can fail |
| SchedulerPlugin.Fluence.CancelJobids | pkg/fluence/fluence.go:407-416 | exactly the listed ids leave the held set |
| SchedulerPlugin.Fluence.PreFilter | pkg/fluence/fluence.go:282-331 | matches a group once, remembers it, and tells success by the memo |
| SchedulerPlugin.Fluence.Filter | pkg/fluence/fluence.go:422-448 | a node passes exactly when Fluxion chose it, or chose none |
| SchedulerPlugin.Fluence.PostFilter | pkg/fluence/fluence.go:477-544 | frees the group's ids, forgets it, and excludes only incompatible nodes |
| SchedulerPlugin.Fluence.PreBind | pkg/fluence/fluence.go:617-653 | records the group's ids on its owner |
| SchedulerPlugin.Fluence.CancelGroup | pkg/fluence/fluence.go:908-933 | teardown by annotation first, then by memo |
| SchedulerPlugin.Fluence.ReconcileGroup | pkg/fluence/fluence.go:760-845 | deletes a reapable group and its scout's group |
| SchedulerPlugin.Fluence.OnPodUpdated | pkg/fluence/fluence.go:717-742 | what a completion does |
| SchedulerPlugin.Fluence.OnPodDeleted | pkg/fluence/fluence.go:880-902 | what a pod's deletion does |
| SchedulerPlugin.Fluence.OnPodGroupDeleted | pkg/fluence/fluence.go:862-878 | what a group's deletion does |
| SchedulerRuns.HeldIsMemo | pkg/fluence/fluence.go:282-331 | in every run Fluxion holds exactly the memo's ids, each listed once by one group |
| SchedulerRuns.StepKeeps | pkg/fluence/fluence.go:477-544 | every step of every kind keeps the invariant behind it |
| SchedulerRuns.PreFilterKeeps | pkg/fluence/fluence.go:282-331 | matching keeps the invariant |
| SchedulerRuns.PostFilterKeepsIff | pkg/fluence/fluence.go:477-544 | abandoning a group keeps it exactly when no PodGroup or pod that owns it, and is not on its way out, has ids recorded |
| SchedulerRuns.OwnedStepIff | pkg/fluence/fluence.go:760-771 | a step leaves every remembered group with an owner exactly when it does not match one whose owner is missing |
| SchedulerRuns.OwnedRunIff | pkg/fluence/fluence.go:880-902 | so does a run, all along, exactly when none of its steps does |
| SchedulerRuns.NothingLeaks | pkg/fluence/fluence.go:908-933 | in such a run, once all owners are gone and their events handled, Fluxion holds nothing |
| SchedulerRuns.AbandonedStaysHeld | pkg/fluence/fluence.go:760-771 | ids remembered for a name no object has stay held until one of that name is created again |
| SchedulerRuns.PreBindKeeps | pkg/fluence/fluence.go:617-653 | recording keeps it: annotations name the ids held |
| SchedulerRuns.DeliverKeeps | pkg/fluence/fluence.go:717-742 | handling any pending event keeps it |
| SchedulerRuns.CancelKeepsExactIff | pkg/fluence/fluence.go:908-933 | cancelling keeps memo and held set equal exactly when the annotation's held ids are the memo's |
| SchedulerRuns.CreatePodKeepsIff | pkg/fluence/fluence.go:880-902 | a pod's arrival keeps the invariant exactly when it is grouped, or its jobid annotation does not parse or names its own ids |
| SchedulerRuns.CreateGroupKeepsIff | pkg/fluence/fluence.go:862-878 | the same for a group's arrival |
| SchedulerRuns.ForgedAnnotationFreesIff | pkg/fluence/fluence.go:908-933 | a pod that comes and goes keeps memo and held set equal exactly when the held ids it names are its own |
| SchedulerRuns.ForgedGroupFreesIff | pkg/fluence/fluence.go:908-933 | the same for a group |
| SchedulerRuns.ForgedAnnotationOrphansIff | pkg/fluence/fluence.go:908-933 | a matched pod lost before PreBind keeps them equal exactly when its annotation names the ids just issued |
| SchedulerRuns.DeletionDuringMatchLeaks | pkg/fluence/fluence.go:319-326 | a deletion handled between match and memo write leaves ids nobody owns, though the PodGroup was there when the match began |
| SchedulerExamples.ForgedAnnotationRun | pkg/fluence/fluence.go:908-933 | a run from an empty cluster in which a forged annotation frees a memoized id |
| SchedulerExamples.RetryAfterRecordRun | pkg/fluence/fluence.go:908-933 | a run from an empty cluster in which a retry after recording orphans an id |
| SchedulerExamples.UnownedMatchRun | pkg/fluence/fluence.go:760-771 | a run from an empty cluster that meets every condition and leaves an id to a group no object names |
| SchedulerRuns.TeardownFreesTheGroup | pkg/fluence/fluence.go:862-878 | teardown frees exactly the group's ids |
| SchedulerRuns.StaleAnnotationOrphans | pkg/fluence/fluence.go:908-933 | teardown by an annotation of other ids leaves the memo's ids held and unknown |
| SchedulerRuns.RetryAfterRecordOrphans | pkg/fluence/fluence.go:908-933 | PostFilter after recording, a rematch and the owner's deletion orphan every new id, of a group or of a pod alone |
| SchedulerRuns.LiveGangKeepsJobids | pkg/fluence/fluence.go:760-845 | while a member is live and nobody outside deletes the group, its recorded ids stay held |
| SchedulerRuns.ReconcileSparesLive | pkg/fluence/fluence.go:760-845 | reconciling never deletes the group of a live member |
| SchedulerRuns.MatchedNodes | pkg/fluence/fluence.go:302-310 | a matched node is one of the graph's and not excluded |
| MatchOutcomes.MatchMeans | pkg/fluence/fluence.go:342-402 | a match succeeds exactly when all jobspecs are allocated and give something; its ids are the answers' in order, its nodes those of all vertices not marked virtual, its backend that of the last answer naming one |
| MatchOutcomes.PreFilterMatches | pkg/fluence/fluence.go:282-331 | a group is remembered exactly then; its ids are held, and Filter passes a node exactly when some answer gives it, or none gives any |
| MatchOutcomes.SlotsPerMember | pkg/fluence/fluence.go:971-996 | the group's compute jobspec is named for it, has a slot for each listed member not gated, and selects no excluded node |
| MatchOutcomes.PreBindRecords | pkg/fluence/fluence.go:617-653 | reading the owner's annotation after PreBind gives the group's ids back |
| MatchOutcomes.PostFilterExcludes | pkg/fluence/fluence.go:477-544 | afterwards a node is excluded exactly when it was, or was given to the group and found incompatible |
| MatchOutcomes.TeardownClears | pkg/fluence/fluence.go:908-933 | teardown forgets the group's exclusions with its ids |
| ReapOutcomes.ReconcileDoes | pkg/fluence/fluence.go:760-845 | reconciling deletes the group and its scout's, and reports that, exactly when Fluence made it, no member is live, and it has a member, a record or is old; otherwise nothing |
| ReapOutcomes.FinishedGangFrees | pkg/fluence/fluence.go:717-742 | when the last live member of such a group completes, handling that and the group's deletion takes exactly its ids out of what is held |
| ReapOutcomes.DeletedGangFrees | pkg/fluence/fluence.go:880-902 | so it does when the last live member of a recorded one is deleted |
| SchedulerRuns.ExclusionGrows | pkg/fluence/fluence.go:508-531 | exclusions only gain nodes found incompatible, at least one per abandonment over one |
| SchedulerRuns.ExclusionIsFinite | pkg/fluence/fluence.go:508-531 | such abandonments are at most the nodes not yet excluded |
| Pointers.UnescapeEscape | pkg/webhook/handlers/quantum.go:429-433 | escaping a key for a JSON Pointer loses nothing |
| Pointers.EscapedShape | pkg/webhook/handlers/quantum.go:429-433 | an escaped key has no slash and no bare tilde |
| Pointers.ParsePointerOf | pkg/webhook/handlers/quantum.go:429-433 | a pointer of any tokens parses back to them |
| Patches.ApplyAllConcat | pkg/webhook/webhook.go:158-176 | concatenated patches apply one after the other |
| PodEdits.EditAgrees | pkg/webhook/spec/spec.go:17-42 | an edit applies as a patch operation on any document and decodes to the edited pod |
| PodEdits.EditsAgree | pkg/webhook/webhook.go:158-176 | so does a whole patch |
| PodPaths.EnvOp | pkg/webhook/handlers/quantum.go:492-507 | the env paths as spelled are the pointers meant |
| PodPaths.DropOp | pkg/webhook/handlers/quantum.go:271-292 | so are the removals of a resource, with its escaped name |
| PodPaths.AnnotationOp | pkg/webhook/handlers/quantum.go:149-163 | so are the single annotations |
| PodMirror.ChosenAgrees | pkg/webhook/handlers/quantum.go:492-507 | an operation chosen from the webhook's pod applies on the server and keeps both in agreement |
| PodMirror.PatchAgrees | pkg/webhook/webhook.go:158-176 | the refinement: a patch so chosen applies and decodes to the webhook's pod |
| PodTasks.TaskRuns | pkg/webhook/handlers/quantum.go:607-660 | every per-container step takes the right create-or-append branch and does what it says |
| PodTasks.SpreadRuns | pkg/webhook/spec/spec.go:129-148 | and so it does over all containers, by index |
| PodTasks.SetEnvNames | pkg/webhook/handlers/quantum.go:492-507 | afterwards the variable is defined, and one already defined is untouched |
| WebhookPod.Pod.AnnotateOps | pkg/webhook/handlers/quantum.go:149-163 | the whole map at once or key by key, in the pod and in the operations |
| WebhookPod.Pod.SetContainerEnvOps | pkg/webhook/handlers/quantum.go:492-507 | the loop emits and makes exactly the step's edits |
| WebhookPod.Pod.InjectEnvOps | pkg/webhook/spec/spec.go:129-148 | the same for the injected environment |
| WebhookPod.Pod.InterceptorOps | pkg/webhook/handlers/quantum.go:607-660 | the same for the staged interceptor |
| WebhookPod.Pod.HandoffOps | pkg/webhook/handlers/quantum.go:665-694 | the same for the handoff volume, once |
| WebhookPod.Pod.DropQuantumResourceOps | pkg/webhook/handlers/quantum.go:271-292 | the same for dropping the qpu from requests and limits |
| WebhookDispatch.SidecarContainerOps | pkg/webhook/handlers/quantum.go:700-752 | the sidecar's container and service account, for the server alone |
| WebhookDispatch.MutateScout | pkg/webhook/handlers/quantum.go:228-247 | a scout's operations, pod and group |
| WebhookDispatch.MutateWorker | pkg/webhook/handlers/quantum.go:251-265 | a worker's operations, pod and group |
| WebhookDispatch.MutateQuantum | pkg/webhook/handlers/quantum.go:165-203 | the quantum handler in all modes |
| WebhookDispatch.Cluster.EnsurePodGroup | pkg/webhook/webhook.go:108-139 | the first writer of a group wins |
| WebhookDispatch.Cluster.RecordAdmission | pkg/webhook/admission.go:88-105 | the admitted total is written once |
| WebhookDispatch.MutateOrDeny | pkg/webhook/webhook.go:158-176 | the handlers in order over one pod, or a refusal with no patch |
| HandlerPatches.StampRight | pkg/webhook/handlers/quantum.go:149-163 | stamping gives the same annotations in whatever order the map is walked |
| HandlerPatches.DependencyRight | pkg/webhook/handlers/dependency.go:62-68 | dependency annotations never replace the whole map, since stamps came first |
| HandlerPatches.PatchRefinesPod | pkg/webhook/webhook.go:158-176 | for every pod and handler order the patch applies and the server agrees with the webhook's pod |
| PodFrames.PatchKeepsTheRest | pkg/webhook/webhook.go:158-176 | and every member of the document, its metadata, its spec and its containers that the webhook does not decode stays as it was |
| HandlerOutcomes.NothingLost | pkg/webhook/handlers/quantum.go:149-163 | containers, volumes, gates and annotations are all kept, with every stamp over them |
| HandlerOutcomes.ProtectedRefused | pkg/webhook/handlers/quantum.go:100-104 | a submission marked protected never gets past the quantum handler |
| GangRoles.WorkerServed | pkg/webhook/handlers/dependency.go:62-68 | a worker is gated, linked and says what it waits for |
| GangRoles.ScoutServed | pkg/webhook/handlers/quantum.go:228-247 | a scout keeps its gates and joins its own group |
| GangStored.MembersStored | pkg/webhook/handlers/quantum.go:165-265 | every admitted member is stored as a scout, ungated, with exactly one container more, its sidecar, told whose workers it lets go, and the interceptor and handoff volume in each of its own; or as a gated worker without a qpu, told where its ids will be, and given nothing else |
| GangStored.ScoutEquippedStored | pkg/webhook/handlers/quantum.go:228-247 | the scout's part of it |
| GangStored.WorkerEquippedStored | pkg/webhook/handlers/quantum.go:251-265 | the worker's part of it |
| MembersServed.WorkersReadTheStamps | python/fluence/ungate.py:19-20 | the annotations a worker reads its ids from are the ones the sidecar stamps |
| Submitters.SubmitterEquips | pkg/webhook/handlers/quantum.go:607-694 | each workload container mounts the staged interceptor and, unless the pod came with a volume of that name, the handoff volume, and is told where |
| Submitters.SidecarIs | pkg/webhook/handlers/quantum.go:700-752 | the sidecar by name, requests, mounts and variables, with the workload's credentials |
| Submitters.SidecarTold | pkg/webhook/handlers/quantum.go:700-752 | what it is told counts over anything borrowed or injected |
| LonePods.LoneStored | pkg/webhook/handlers/quantum.go:165-203 | a quantum pod outside a gang is stored ungated with the interceptor, its own admission record, and an observing sidecar exactly when its label asks |
| LonePods.InjectedGives | pkg/webhook/handlers/fluxion.go:30-36 | a container that asks anything of Fluxion gets every configured variable it lacks, others none |
| LonePods.LabelledStored | pkg/webhook/handlers/gang.go:28-49 | a labelled pod without a qpu is linked to its group, which then exists |
| GangReading.AnnotatedSizes | pkg/webhook/handlers/quantum.go:340-363 | the size annotation is the gang's size, kept to 32 bits |
| GangReading.UnannotatedSizes | pkg/webhook/handlers/gang.go:64-86 | without one it is the Job's, then what else is known, then one |
| GangReading.SharedIff | pkg/webhook/handlers/quantum.go:294-338 | a pod is coordinated exactly when it asks to be and has a group of more than one |
| GangSplit.GroupsSplit | pkg/webhook/webhook.go:108-139 | minCount 1 and n - 1 although the gang handler asks for n, and the cores of n recorded once |
| GangSplit.AdmittedOnce | pkg/webhook/handlers/quantum.go:100-118 | after the first member is admitted the others pass whatever room is left |
| GangSplit.PromotedWhen | pkg/webhook/handlers/quantum.go:308-321 | promotion is by index when there is one, otherwise by first claim |
| GangSplit.GangTurn | pkg/webhook/handlers/gang.go:28-49 | the gang handler changes neither group nor pod of a member already shaped |
| GangSplit.ExactlyOneScout | pkg/webhook/handlers/quantum.go:308-321 | a gang indexed throughout or not at all has exactly one scout, in any order of arrival |
| GangSplit.ScoutCount | pkg/webhook/handlers/quantum.go:308-321 | any gang has a scout for each admitted index 0, and one more if an unindexed pod came ahead of them all |
| RoomRule.RefusedIff | pkg/webhook/handlers/quantum.go:100-118 | a qpu pod is refused exactly when it claims protection or its unrecorded gang does not fit by the rule |
| RoomRule.RecordsWhatWasAsked | pkg/webhook/handlers/quantum.go:195-196 | the total recorded on a gang's group is what the rule was asked |
| WorkerJobspecs.WorkersMatchNoQpu | pkg/placement/placement.go:343-353 | no jobspec of the stored workers asks for a qpu |
| Admission.ReadCapacity | pkg/webhook/admission.go:108-172 | the loops compute budget, running, preemptible, promised and free as defined by sums |
| Admission.ReadNodes | pkg/webhook/admission.go:122-135 | budget and schedulable nodes, less the reserve, not below zero |
| Admission.SidecarAddsAtMostOne | pkg/webhook/handlers/quantum.go:737-743 | from its requests, a sidecar adds at most one core to any pod |
| AdmissionReading.NodeMore | pkg/webhook/admission.go:122-135 | a node that counts adds its whole cores, rounded down, and its pods then count; the reserve comes off once |
| AdmissionReading.PodMore | pkg/webhook/admission.go:151-167 | a pod bound to such a node and not finished adds its cores, to the preemptible ones only when unprotected and below the ceiling, and to its record |
| AdmissionReading.RecordsAre | pkg/webhook/admission.go:141-150 | the records are the positive counts on groups and pods |
| AdmissionReading.RecordPromises | pkg/webhook/admission.go:168-172 | each promises what its running cores leave of it |
| AdmissionRuns.ReachableIs | pkg/webhook/admission.go:57-59 | Reachable is the larger of Preemptible and Budget less the kept cores |
| AdmissionRuns.RuleKeepsBudgetIff | pkg/webhook/admission.go:65-83 | exactly when the rule keeps promises and kept cores within the budget |
| AdmissionRuns.PromisesFit | pkg/webhook/admission.go:65-83 | in every run promises and kept cores fit the budget, but for one core per running sidecar |
| AdmissionRuns.SideAtMostCount | pkg/webhook/handlers/quantum.go:737-743 | running sidecars come to at most one core each |
| AdmissionRuns.UnboundMemberFits | pkg/webhook/handlers/quantum.go:108-116 | a gang within its size and cores has room for its next member under its record, by counting |
| AdmissionRuns.StepKeeps | pkg/webhook/admission.go:108-172 | every admission, arrival, binding, departure and deletion keeps it |
| AdmissionRuns.PodArrivesIff | pkg/webhook/admission.go:146-150 | a pod's arrival keeps the budget exactly when the record it brings fits in the room left |
| AdmissionRuns.GroupArrivesIff | pkg/webhook/admission.go:141-145 | the same for a group that arrives or gets its first record |
| AdmissionRuns.BindKeepsIff | pkg/webhook/admission.go:151-167 | binding an unpreemptible pod keeps it exactly when what it takes beyond its record fits in the room |
| AdmissionRuns.HiddenPromiseIff | pkg/webhook/admission.go:159-167 | a preemptible pod that names a record keeps it at its end exactly when what it hid fits |
| AdmissionExamples.ForgedRecordRun | pkg/webhook/admission.go:146-150 | on any nodes, one plain pod with an admitted-cores annotation above the budget overpromises it |
| AdmissionExamples.ForgedGroupRun | pkg/webhook/admission.go:141-145 | so does one group that comes with such a record |
| AdmissionExamples.OversizedGangRun | pkg/webhook/handlers/quantum.go:108-116 | a gang with one pod more than its size overpromises a full cluster |
| Poll.PollTask | python/fluence/sidecar.py:52-84 | returns what the first decisive round dictates, and not before: a failed task or an unfixable error ends it unready, a ready task ready, and else only the limit of errors in a row |
| Poll.ErrorsEndThePoll | python/fluence/sidecar.py:74-83 | as many errors in a row as the limit end the poll, wherever they start |
| Poll.ShortStreaksPass | python/fluence/sidecar.py:69-83 | an error is decisive exactly when it completes such a run |
| Poll.EventMeans | python/fluence/sidecar.py:62-79 | exactly when a round is failed, ready, clean, broken or erred, from the calls made |
| Poll.QrmiReady | python/fluence/providers/qrmi.py:279-302 | the same five for QRMI, from the status each call sees |
| Handoff.Volume.Publish | python/fluence/handoff.py:30-54 | the record lands whole or not at all |
| Handoff.Volume.MarkScoutExited | python/fluence/handoff.py:104-119 | the marker is written only when no task was published |
| Handoff.Volume.MarkWorkersDone | python/fluence/handoff.py:137-150 | the marker lands or fails softly |
| Handoff.WaitForRecord | python/fluence/handoff.py:69-88 | the first look with a record or the marker decides, the record first |
| Handoff.GangPods.UngatePods | python/fluence/ungate.py:48-123 | the pods after the loop, and the count of gates removed |
| Handoff.UngateAllEach | python/fluence/ungate.py:48-123 | each named pod gets its own annotate and patch, others are left alone |
| Handoff.UngateAllSucceeds | python/fluence/ungate.py:48-123 | when all calls succeed every pod counts and loses its first gate |
| Handoff.PatchRemovesGateIff | python/fluence/ungate.py:100-104 | the quantum gate goes exactly when it is the first |
| Handoff.UngateOneIs | python/fluence/ungate.py:75-121 | one pod after its annotate and patch, each taken or refused |
| Handoff.CountIs | python/fluence/ungate.py:105-123 | the count is that of the pods named that lost a gate |
| Handoff.NotesAre | python/fluence/ungate.py:73-82 | a pod is stamped with the backend, its attributes, the job and the session, each when there is one, and nothing else |
| Protocol.HoldStepIff | python/fluence/sidecar.py:87-97 | a step keeps the hold right exactly when it is neither a wait timed out over a live worker nor a restart over one or over the marker |
| Protocol.HoldRunIff | python/fluence/sidecar.py:87-97 | so does a run, all along, exactly when all its steps are such |
| Protocol.DoneMeansNoneLive | python/fluence/sidecar.py:87-97 | without a wait timed out over a live worker or a late restart, the marker means no worker let go is or will be running |
| Protocol.ReleasedOnlyWhenQuiet | python/fluence/providers/qrmi.py:202-222 | a scout that published lets its session go only when no worker is live |
| Protocol.TimeoutsLetGoEarly | python/fluence/handoff.py:157-169 | from any moment with a live worker either hold timeout lets the scout go |
| ProtocolExamples.HoldTimesOutRun | python/fluence/providers/qrmi.py:202-222 | a run from the start in which the scout's hold times out under a live worker |
| ProtocolExamples.WaitTimesOutRun | python/fluence/sidecar.py:87-97 | one in which the sidecar's wait does |
| ProtocolExamples.RestartOverLiveRun | python/fluence/sidecar.py:174-192 | one in which a sidecar restarts under a live worker, gives up and writes the marker |
| ProtocolExamples.RestartOverMarkerRun | python/fluence/sidecar.py:174-208 | one in which a sidecar restarts over its own marker and lets a worker go |
| Protocol.MarkerExcludesRecord | python/fluence/handoff.py:104-119 | the exit marker never stands beside a readable record, then or later |
| Protocol.GateRemovedOnlyWhenReady | python/fluence/sidecar.py:130-208 | a gate goes only by the sidecar's patch, after an attempted annotate of the job and session of a task seen ready, or in a rehearsal without a task |
| Protocol.UngatingFollows | python/fluence/ungate.py:48-123 | undisturbed, the sidecar's annotates and patches come to what ungate_pods makes of the whole list |
| Protocol.LostRecordStrands | python/fluence/providers/qrmi.py:174-191 | if no record reaches the volume, no worker is let go and the marker is never written |
| Protocol.StrandedHoldTimesOut | python/fluence/providers/qrmi.py:202-222 | such a scout's hold ends only by its timeout |
| Protocol.ObserverOnlyLooks | python/fluence/sidecar.py:174-178 | an observing sidecar lets nobody go, stamps nobody and marks nothing in any run |
| Protocol.RehearsalReleases | python/fluence/sidecar.py:130-147 | a rehearsal without a task lets the listed workers go with no ids, any other sidecar ends there |
| Resources.MergeOwn | pkg/cluster/resources.go:200-211 | the merge loop: own settings override, empty ones clear |
| Resources.NearestWins | pkg/cluster/resources.go:175-228 | a key has the nearest setting up the tree, and is absent when that is empty or none |
| Resources.LoadsIff | pkg/cluster/resources.go:175-255 | a tree loads exactly when every vertex has a type and names a known set |
| Resources.AttributesRoundTrip | pkg/cluster/resources_graph.go:29-67 | decoding a vertex's properties gives its attributes and its device |
| Resources.RequirePresentIff | pkg/placement/placement.go:115-140 | a require property is present exactly when the attribute has that value |
| GraphParts.RootSets | pkg/cluster/resources.go:175-255 | a tree's own vertex has the attributes of the set it names, or else its inline ones, less the empty |
| GraphParts.KidSets | pkg/cluster/resources.go:200-228 | a child replaces or clears what it sets, by its set or inline, and has the rest from above |
| GraphParts.RootRefused | pkg/cluster/resources.go:175-255 | a tree without a type, or with an unknown set, is refused for that |
| GraphParts.PropertiesAre | pkg/cluster/resources_graph.go:51-83 | the properties of a configured vertex, all of them: virtual, a class for each type at or below, its attributes, its device |
| GraphParts.TreeAsLoaded | pkg/cluster/resources_graph.go:128-149 | the tree that is built carries what was loaded |
| Search.ClassSearchExact | pkg/cluster/resources_graph.go:51-83 | a pruned search by class finds exactly what a filter over all vertices finds |
| Search.ClassAlwaysFound | pkg/cluster/resources_graph.go:72-83 | and reaches every vertex of the class |
| Search.RequireReachesIff | pkg/cluster/resources.go:175-228 | with required attributes, exactly when the device sets them and the path leaves them be |
| Search.BackendPinned | pkg/cluster/resources.go:215-223 | every vertex carries its device's name |
| Search.UnderPhysicalNodeUnreached | pkg/placement/placement.go:292-312 | of a tree under a physical node a device search finds nothing, though a filter keeps it and under the cluster it is found |
| Search.JobspecMeets | pkg/placement/placement.go:292-312 | a vertex satisfies a device jobspec exactly when it meets the search's constraint |
| Graph.Builder.AddVertex | pkg/jgf/jgf.go:93-130 | the new vertex's ids, name, path and rank |
| Graph.Builder.AddChild | pkg/jgf/jgf.go:87-91 | and the edge from its parent |
| GraphBuilding.AddPhysicalNode | pkg/cluster/cluster.go:76-101 | a node with its cores, memory chunks and gpus |
| GraphBuilding.AddVirtualResource | pkg/cluster/resources_graph.go:128-149 | a resource and its children, each with the next rank |
| GraphBuilding.AttachResources | pkg/cluster/resources_graph.go:88-112 | every tree under its parent, or the first unknown parent |
| GraphBuilding.BuildGraph | pkg/cluster/cluster.go:44-108 | the whole graph, or the first unknown parent |
| GraphShape.GraphIsSound | pkg/cluster/cluster.go:44-108 | a tree with unique keys and extending paths, node ranks without gap or repeat |
| GraphShape.GraphContents | pkg/cluster/cluster.go:44-108 | its vertices are the nodes' and the trees' and no other |
| GraphShape.ResourceGrows | pkg/cluster/resources_graph.go:128-149 | the vertices and edges a resource adds mirror its tree |
| GraphShape.BuildsIff | pkg/cluster/resources_graph.go:88-112 | it builds exactly when every parent is the cluster or an included node |
| GraphShape.RenamedRootLosesDefaultParent | pkg/cluster/resources.go:184-186 | a default parent is unknown under a renamed root |
| GraphShape.ChunksWithinMemory | pkg/cluster/cluster.go:140-152 | chunks total at most the memory and fall short by less than a MiB per core |
| GraphShape.FittingChunksFitBytes | pkg/placement/placement.go:154-180 | requests that fit in the chunks fit in the bytes |
| GraphParts.NodesHang | pkg/cluster/cluster.go:44-108 | each node that takes part hangs under the root by name, with its hostname and physical mark, and under it, by edges, a core a vertex, its memory in a chunk per core, and its gpus |
| GraphParts.TreesHang | pkg/cluster/resources_graph.go:88-112 | each configured tree hangs under the node or root its parent names, with its vertices, names and edges as configured |
| GraphParts.StrayNamed | pkg/cluster/resources_graph.go:88-112 | a graph that does not build names the first tree whose parent is unknown |

## Left out

- Interleavings inside one scheduler entry point: each is one atomic step, although the plugin takes its lock in pieces. DeletionDuringMatchLeaks shows one window, in which the PodGroup is still there when the match begins.
- Keys are pairs of namespace and name where the source joins them with a slash.
- The order in which listers, Go maps and API lists yield their elements is a parameter or left open, and results are proved for all of them.
- SchedulerPlugin.Fluence.PreBind: an owner that is gone refuses the record silently, and the backend annotations PreBind also stamps are not modelled.
- The end of reconcileGroup deletes the scout's group whether or not the scout is live, so LiveGangKeepsJobids speaks of groups whose name does not end in the scout suffix.
- Reserve, Unreserve and the preflight of PreBind, which do not touch the allocation.
- Parsing of Kubernetes quantities: they come as thousandths, and an admission's core count is a parameter of the webhook model.
- WebhookDispatch.MutateScout: the service account, role and binding it ensures for the sidecar are not modelled.
- WebhookDispatch.MutateQuantum: the same, in the scout and observe modes.
- Logging, HTTP, TLS, RBAC creation and handler registration.
- Gang sizes counted from listed pods, which depend on admission order by design.
- Document fields the webhook neither reads nor changes are not part of the decoded pod; PodFrames proves that every patch keeps them.
- HandlerPatches.PatchRefinesPod: the three dependency annotations and the group label are excepted from the agreement, because the webhook writes them to the server only.
- Resources.NearestWins: the tree is rebuilt where the source writes the resolved fields into it, so update in place is not captured.
- Resources.AttributesRoundTrip: speaks of attribute keys without '=' other than "backend", because the encoding cannot tell others apart.
- Protocol: the sidecar's main is modelled as the steps it takes, not as one method.
- Protocol: an explicit FLUENCE_GATED_PODS list is not modelled, workers come from the group label.
- Concurrent admissions and the branch that admits when the API cannot be read.
- The Fluxion client, its match policy, and replay after a scheduler restart.
- Vendor SDK calls other than the status answers, and the providers other than QRMI.
