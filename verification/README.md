# Cluster update-settings action: settings merge and failure mapping

A Dafny model of the cluster update-settings action of Elasticsearch
(`TransportClusterUpdateSettingsAction`). The action submits a cluster state
update task to the cluster service. The task merges the request's transient
and persistent settings deltas into the current cluster state, accepting
only keys that are dynamically updatable (registered as dynamic, or starting
with `logger.`). When at least one key was accepted it builds a new state
and folds in the result of a reroute. The caller waits on a latch, and any
failure recorded during that wait becomes the exception it throws.

Modules:

- `SettingsMerge` (`settings_merge.dfy`): one tier's merge. `Merge` is the
  closed form. `MergeTier` is the entry loop, written against any iteration
  order of the delta map and proved equal to `Merge`. `MergeInOrder` applies
  the entries one at a time in a fixed order; `MergeIsPerKey` shows every
  such order gives `Merge`.
- `UpdateTask` (`update_task.dfy`): the task's `execute`, as a function
  (`Execute`) and as the Java code's sequence of steps (`ExecuteTask`), plus
  lemmas about tiers, the `changed` flag and reroute.
- `UpdateTaskExamples` (`update_task.dfy`): three concrete requests.
- `MasterOperation` (`master_operation.dfy`): the failure recorded after the
  wait, the mapping to the caller's outcome, and the whole action call.
- `Wrappers` (`wrappers.dfy`): `Option`, standing in for a nullable reference.

Collaborators become parameters:

- `MetaData.hasDynamicSetting` is `isDynamic: string -> bool`.
- `AllocationService.reroute` is `reroute: ClusterState -> RoutingTable`. Its
  routing result replaces the state's routing table.
- How the latch wait ended is a `WaitResult` input.

A failure inside the task never reaches the caller. The task only counts
the latch down in `finally` (lines 118-120), and only an interrupted wait is
recorded (line 127), so the caller gets a normal response.
`RunMasterOperation`'s outcome depends only on the wait.

## Model

| member | source | states |
|---|---|---|
| SettingsMerge.Merge | modules/elasticsearch/src/main/java/org/elasticsearch/action/admin/cluster/settings/TransportClusterUpdateSettingsAction.java:80-100 | an accepted key (dynamic or `logger.`-prefixed) maps to the delta's value; every other key keeps exactly its base entry, present or absent |
| SettingsMerge.MergeTier | modules/elasticsearch/src/main/java/org/elasticsearch/action/admin/cluster/settings/TransportClusterUpdateSettingsAction.java:80-89 | the seeded builder after the entry loop, in any iteration order, equals the closed-form merge; `changed` is set iff some key was accepted; the warned keys are exactly the rejected ones, each once |
| SettingsMerge.MergeInOrderAcceptsEachKey | modules/elasticsearch/src/main/java/org/elasticsearch/action/admin/cluster/settings/TransportClusterUpdateSettingsAction.java:82-89 | putting entries one at a time in any order equals the base overlaid with the accepted entries among the listed keys |
| SettingsMerge.MergeIsPerKey | modules/elasticsearch/src/main/java/org/elasticsearch/action/admin/cluster/settings/TransportClusterUpdateSettingsAction.java:82-89 | the merge is a per-key decision: any order listing all delta keys gives the closed form |
| SettingsMerge.AnyAcceptedIffAcceptedNonEmpty | modules/elasticsearch/src/main/java/org/elasticsearch/action/admin/cluster/settings/TransportClusterUpdateSettingsAction.java:79-85 | the `changed` flag is set iff the accepted part of the delta is non-empty |
| SettingsMerge.NothingAcceptedKeepsBase | modules/elasticsearch/src/main/java/org/elasticsearch/action/admin/cluster/settings/TransportClusterUpdateSettingsAction.java:80-81 | with no key accepted, the merge is exactly the seeded current settings |
| SettingsMerge.LoggerKeyAlwaysAccepted | modules/elasticsearch/src/main/java/org/elasticsearch/action/admin/cluster/settings/TransportClusterUpdateSettingsAction.java:83-85 | a `logger.` key is accepted and overwrites, whatever the dynamic-setting registry says |
| SettingsMerge.RejectedKeyIsIgnored | modules/elasticsearch/src/main/java/org/elasticsearch/action/admin/cluster/settings/TransportClusterUpdateSettingsAction.java:86-88 | removing a rejected key from the delta changes neither the merge nor the `changed` flag |
| UpdateTask.Execute | modules/elasticsearch/src/main/java/org/elasticsearch/action/admin/cluster/settings/TransportClusterUpdateSettingsAction.java:77-117 | unchanged: the current state itself; changed: both tiers merged, other metadata kept, routing replaced by the reroute of the state holding the merged settings |
| UpdateTask.ExecuteTask | modules/elasticsearch/src/main/java/org/elasticsearch/action/admin/cluster/settings/TransportClusterUpdateSettingsAction.java:77-117 | the two loops, the no-op return and the rebuild-and-reroute compute `Execute`; the returned `changed` flag holds iff some key of either delta was accepted, and without it the current state is handed back; the warned keys per tier are exactly that tier's rejected keys, each once |
| UpdateTask.SettingsAreMerged | modules/elasticsearch/src/main/java/org/elasticsearch/action/admin/cluster/settings/TransportClusterUpdateSettingsAction.java:80-108 | each tier of the result is that tier's merge, whether or not the state was rebuilt |
| UpdateTask.TiersAreIndependent | modules/elasticsearch/src/main/java/org/elasticsearch/action/admin/cluster/settings/TransportClusterUpdateSettingsAction.java:80-108 | the transient result depends only on the transient delta, the persistent result only on the persistent delta |
| UpdateTask.NoChangeSkipsReroute | modules/elasticsearch/src/main/java/org/elasticsearch/action/admin/cluster/settings/TransportClusterUpdateSettingsAction.java:102-104 | with `changed` false the current state is returned and no reroute affects it |
| UpdateTask.AllRejectedIsNoOp | modules/elasticsearch/src/main/java/org/elasticsearch/action/admin/cluster/settings/TransportClusterUpdateSettingsAction.java:86-104 | a request whose keys are all rejected (an empty one included) returns the current state |
| UpdateTask.SameValueStillReroutes | modules/elasticsearch/src/main/java/org/elasticsearch/action/admin/cluster/settings/TransportClusterUpdateSettingsAction.java:83-115 | accepting a key of either tier whose value is already current still sets `changed` and reroutes |
| UpdateTask.LaterUpdateWins | modules/elasticsearch/src/main/java/org/elasticsearch/action/admin/cluster/settings/TransportClusterUpdateSettingsAction.java:80-100 | of two successive updates accepting a key of the same tier, the later value is kept |
| UpdateTaskExamples.DynamicKeyIsApplied | modules/elasticsearch/src/main/java/org/elasticsearch/action/admin/cluster/settings/TransportClusterUpdateSettingsAction.java:82-115 | a dynamic transient key is stored, persistent settings are kept, the state is rerouted |
| UpdateTaskExamples.StaticKeyIsSkipped | modules/elasticsearch/src/main/java/org/elasticsearch/action/admin/cluster/settings/TransportClusterUpdateSettingsAction.java:93-104 | a static persistent key is skipped and the state is returned unchanged |
| UpdateTaskExamples.LoggerKeyIsApplied | modules/elasticsearch/src/main/java/org/elasticsearch/action/admin/cluster/settings/TransportClusterUpdateSettingsAction.java:82-85 | a `logger.` key absent from the registry is stored |
| MasterOperation.RecordedFailure | modules/elasticsearch/src/main/java/org/elasticsearch/action/admin/cluster/settings/TransportClusterUpdateSettingsAction.java:124-128 | a failure is recorded iff the wait was interrupted, and it is that interruption |
| MasterOperation.ShapeOutcome | modules/elasticsearch/src/main/java/org/elasticsearch/action/admin/cluster/settings/TransportClusterUpdateSettingsAction.java:130-138 | no failure returns a response; an ElasticSearchException is rethrown as is; anything else is wrapped with the failure as cause |
| MasterOperation.ShapeOutcomeKeepsFailure | modules/elasticsearch/src/main/java/org/elasticsearch/action/admin/cluster/settings/TransportClusterUpdateSettingsAction.java:130-136 | the thrown exception keeps the failure's message; the failure is the thrown exception or its cause; shaping twice changes nothing |
| MasterOperation.RunMasterOperation | modules/elasticsearch/src/main/java/org/elasticsearch/action/admin/cluster/settings/TransportClusterUpdateSettingsAction.java:72-139 | the task computes `Execute`; the caller gets a response iff the wait was released, else the interruption wrapped in an ElasticSearchException |
| MasterOperation.NoOpIsAnswered | modules/elasticsearch/src/main/java/org/elasticsearch/action/admin/cluster/settings/TransportClusterUpdateSettingsAction.java:102-138 | a request that changes nothing still gets a response and leaves the state as it was |
| MasterOperation.OutcomeDependsOnlyOnWait | modules/elasticsearch/src/main/java/org/elasticsearch/action/admin/cluster/settings/TransportClusterUpdateSettingsAction.java:118-138 | the caller's outcome is the same for any state and request; the task reports back only by releasing the latch |

## Left out

- UpdateTask.Execute: compares states by value, so it cannot tell the current state handed back as it is (line 103) from a rebuilt state with equal contents (lines 111-117). Dafny datatypes have no reference identity. The distinction is carried by `Changed` and by the `changed` flag that `ExecuteTask` returns.
- The latch, the `AtomicReference` and `submitStateUpdateTask` queueing (lines 73-76, 124-128). These are concurrency handled by the cluster service. How the wait ended is an input instead.
- Exceptions thrown inside the task. The code never records them for the caller (lines 118-120).
- The internals of `AllocationService.reroute` and of the routing-result fold. Their source is not part of this model, so reroute is a function parameter whose result replaces the routing table.
- The registry behind `MetaData.hasDynamicSetting`. It is not part of this model, so it is a predicate parameter.
- `logger.warn` output. The rejected keys are returned as sequences instead.
- The constructor, `executor()`, `transportAction()`, `newRequest()` and `newResponse()` (lines 50-70). They are framework plumbing.
- Builder internals of `ImmutableSettings`, `MetaData` and `ClusterState`, including the state version. The metadata is reduced to the two settings maps plus an opaque rest (`indices`), and the state to metadata plus a routing table.
