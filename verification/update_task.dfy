/**
 The cluster state update task that the update-settings action submits to the
 cluster service: it merges the request's transient and persistent deltas
 into the current state's settings and, when any key was accepted, builds a
 new state and folds in the result of a reroute of that state.
 */
module UpdateTask {
  import opened SettingsMerge

  /**
   The part of the cluster metadata this task touches: the two settings
   tiers. `indices` stands for everything else the metadata holds, which the
   task carries over untouched.
   */
  datatype MetaData = MetaData(transientSettings: Settings, persistentSettings: Settings, indices: set<string>)

  /** The shard placement of a cluster state; opaque here (shard id to node id). */
  datatype RoutingTable = RoutingTable(assignments: map<string, string>)

  datatype ClusterState = ClusterState(metaData: MetaData, routingTable: RoutingTable)

  /** An update-settings request: one delta per tier. */
  datatype UpdateRequest = UpdateRequest(transientSettings: Settings, persistentSettings: Settings)

  /** The task's `changed` flag: at least one key of either delta was accepted. */
  predicate Changed(request: UpdateRequest, isDynamic: string -> bool) {
    AnyAccepted(request.transientSettings, isDynamic) || AnyAccepted(request.persistentSettings, isDynamic)
  }

  /** The state with both settings tiers replaced and everything else kept. */
  function WithSettings(state: ClusterState, transientSettings: Settings, persistentSettings: Settings): ClusterState {
    state.(metaData := state.metaData.(transientSettings := transientSettings, persistentSettings := persistentSettings))
  }

  /**
   The task's `execute`. `isDynamic` is the settings registry's dynamic-key
   test and `reroute` the allocation service, whose routing result replaces
   the state's routing table; both are taken as parameters.
   */
  function Execute(current: ClusterState, request: UpdateRequest, isDynamic: string -> bool,
                   reroute: ClusterState -> RoutingTable): (next: ClusterState)
    ensures !Changed(request, isDynamic) ==> next == current
    ensures Changed(request, isDynamic) ==>
              && next.metaData.transientSettings
                 == Merge(current.metaData.transientSettings, request.transientSettings, isDynamic)
              && next.metaData.persistentSettings
                 == Merge(current.metaData.persistentSettings, request.persistentSettings, isDynamic)
              && next.routingTable == reroute(next.(routingTable := current.routingTable))
    ensures next.metaData.indices == current.metaData.indices
  {
    var transientSettings := Merge(current.metaData.transientSettings, request.transientSettings, isDynamic);
    var persistentSettings := Merge(current.metaData.persistentSettings, request.persistentSettings, isDynamic);
    if !Changed(request, isDynamic) then
      current
    else
      var updated := WithSettings(current, transientSettings, persistentSettings);
      updated.(routingTable := reroute(updated))
  }

  /**
   The task body as the Java action writes it: the transient loop, then the
   persistent loop, then the no-op return or the rebuild and reroute. Also
   returns the task's `changed` flag, which tells "the current state handed
   back as it is" apart from "a newly built state", and the keys each tier
   skipped, each of which the code logs once as a warning.
   */
  method ExecuteTask(current: ClusterState, request: UpdateRequest, isDynamic: string -> bool,
                     reroute: ClusterState -> RoutingTable)
    returns (next: ClusterState, changed: bool, transientRejected: seq<string>, persistentRejected: seq<string>)
    ensures next == Execute(current, request, isDynamic, reroute)
    ensures changed <==> Changed(request, isDynamic)
    ensures !changed ==> next == current
    ensures forall k :: k in transientRejected <==> k in Rejected(request.transientSettings, isDynamic)
    ensures forall k :: k in persistentRejected <==> k in Rejected(request.persistentSettings, isDynamic)
    ensures Distinct(transientRejected) && Distinct(persistentRejected)
  {
    var transientSettings, transientChanged;
    transientSettings, transientChanged, transientRejected :=
      MergeTier(current.metaData.transientSettings, request.transientSettings, isDynamic);
    var persistentSettings, persistentChanged;
    persistentSettings, persistentChanged, persistentRejected :=
      MergeTier(current.metaData.persistentSettings, request.persistentSettings, isDynamic);
    changed := transientChanged || persistentChanged;
    if !changed {
      return current, changed, transientRejected, persistentRejected;
    }
    var updated := WithSettings(current, transientSettings, persistentSettings);
    var routingResult := reroute(updated);
    next := updated.(routingTable := routingResult);
  }

  /**
   Each tier of the resulting state is the merge of that tier's delta into
   that tier's current settings, whether or not the state was rebuilt.
   */
  lemma SettingsAreMerged(current: ClusterState, request: UpdateRequest, isDynamic: string -> bool,
                          reroute: ClusterState -> RoutingTable)
    ensures Execute(current, request, isDynamic, reroute).metaData.transientSettings
            == Merge(current.metaData.transientSettings, request.transientSettings, isDynamic)
    ensures Execute(current, request, isDynamic, reroute).metaData.persistentSettings
            == Merge(current.metaData.persistentSettings, request.persistentSettings, isDynamic)
  {
  }

  /**
   The tiers are independent: the transient settings of the result depend
   only on the transient delta, and the persistent settings only on the
   persistent delta.
   */
  lemma TiersAreIndependent(current: ClusterState, r1: UpdateRequest, r2: UpdateRequest,
                            isDynamic: string -> bool, reroute: ClusterState -> RoutingTable)
    ensures r1.transientSettings == r2.transientSettings ==>
              Execute(current, r1, isDynamic, reroute).metaData.transientSettings
              == Execute(current, r2, isDynamic, reroute).metaData.transientSettings
    ensures r1.persistentSettings == r2.persistentSettings ==>
              Execute(current, r1, isDynamic, reroute).metaData.persistentSettings
              == Execute(current, r2, isDynamic, reroute).metaData.persistentSettings
  {
  }

  /**
   When no key is accepted the task hands back the current state itself, and
   the allocation service is not consulted: any reroute gives the same result.
   */
  lemma NoChangeSkipsReroute(current: ClusterState, request: UpdateRequest, isDynamic: string -> bool,
                             reroute1: ClusterState -> RoutingTable, reroute2: ClusterState -> RoutingTable)
    requires !Changed(request, isDynamic)
    ensures Execute(current, request, isDynamic, reroute1) == current
    ensures Execute(current, request, isDynamic, reroute2) == current
  {
  }

  /** A request whose every key is rejected (an empty one included) is a no-op. */
  lemma AllRejectedIsNoOp(current: ClusterState, request: UpdateRequest, isDynamic: string -> bool,
                          reroute: ClusterState -> RoutingTable)
    requires request.transientSettings.Keys == Rejected(request.transientSettings, isDynamic)
    requires request.persistentSettings.Keys == Rejected(request.persistentSettings, isDynamic)
    ensures Execute(current, request, isDynamic, reroute) == current
  {
  }

  /** The two settings tiers of the metadata. */
  datatype Tier = Transient | Persistent

  /** The settings a tier of the metadata holds. */
  function TierSettings(metaData: MetaData, tier: Tier): Settings {
    match tier
    case Transient => metaData.transientSettings
    case Persistent => metaData.persistentSettings
  }

  /** The delta a request carries for a tier. */
  function TierDelta(request: UpdateRequest, tier: Tier): Settings {
    match tier
    case Transient => request.transientSettings
    case Persistent => request.persistentSettings
  }

  /**
   Accepting a key, in either tier, counts as a change even when its value
   is already the current one: the state is rebuilt and rerouted all the same.
   */
  lemma SameValueStillReroutes(current: ClusterState, request: UpdateRequest, tier: Tier, key: string,
                               isDynamic: string -> bool, reroute: ClusterState -> RoutingTable)
    requires key in TierDelta(request, tier) && IsUpdatable(isDynamic, key)
    requires key in TierSettings(current.metaData, tier)
    requires TierSettings(current.metaData, tier)[key] == TierDelta(request, tier)[key]
    ensures Changed(request, isDynamic)
    ensures Execute(current, request, isDynamic, reroute).routingTable
            == reroute(WithSettings(current,
                                    Merge(current.metaData.transientSettings, request.transientSettings, isDynamic),
                                    Merge(current.metaData.persistentSettings, request.persistentSettings, isDynamic)))
  {
  }

  /**
   Two updates applied one after the other, both accepting a key of the same
   tier: the later value is the one the final state holds, whatever reroute
   does.
   */
  lemma LaterUpdateWins(current: ClusterState, first: UpdateRequest, second: UpdateRequest, tier: Tier,
                        key: string, isDynamic: string -> bool, reroute: ClusterState -> RoutingTable)
    requires key in TierDelta(first, tier) && key in TierDelta(second, tier)
    requires IsUpdatable(isDynamic, key)
    ensures var final := Execute(Execute(current, first, isDynamic, reroute), second, isDynamic, reroute);
            key in TierSettings(final.metaData, tier)
            && TierSettings(final.metaData, tier)[key] == TierDelta(second, tier)[key]
  {
  }
}

/** Worked examples of the update task on concrete requests. */
module UpdateTaskExamples {
  import opened SettingsMerge
  import opened UpdateTask

  /** A registry in which only the allocation-enable key is dynamic. */
  predicate AllocationEnableOnly(key: string) {
    key == "cluster.routing.allocation.enable"
  }

  /** A dynamic transient key is stored and the state is rerouted. */
  lemma DynamicKeyIsApplied(current: ClusterState, reroute: ClusterState -> RoutingTable)
    ensures var request := UpdateRequest(map["cluster.routing.allocation.enable" := "none"], map[]);
            var next := Execute(current, request, AllocationEnableOnly, reroute);
            && "cluster.routing.allocation.enable" in next.metaData.transientSettings
            && next.metaData.transientSettings["cluster.routing.allocation.enable"] == "none"
            && next.metaData.persistentSettings == current.metaData.persistentSettings
            && next.routingTable == reroute(next.(routingTable := current.routingTable))
  {
    var request := UpdateRequest(map["cluster.routing.allocation.enable" := "none"], map[]);
    assert "cluster.routing.allocation.enable" in request.transientSettings;
    SettingsAreMerged(current, request, AllocationEnableOnly, reroute);
    NothingAcceptedKeepsBase(current.metaData.persistentSettings, map[], AllocationEnableOnly);
  }

  /** A static key is skipped: the state comes back as it was. */
  lemma StaticKeyIsSkipped(current: ClusterState, reroute: ClusterState -> RoutingTable)
    ensures Execute(current, UpdateRequest(map[], map["index.number_of_shards" := "5"]), AllocationEnableOnly, reroute)
            == current
  {
    var request := UpdateRequest(map[], map["index.number_of_shards" := "5"]);
    assert !IsLoggerKey("index.number_of_shards") by {
      assert "index.number_of_shards"[0] != LoggerPrefix[0];
    }
    assert !AnyAccepted(request.persistentSettings, AllocationEnableOnly) by {
      forall k | k in request.persistentSettings
        ensures !IsUpdatable(AllocationEnableOnly, k)
      {
        assert k == "index.number_of_shards";
      }
    }
  }

  /** A logger key is applied although the registry does not list it. */
  lemma LoggerKeyIsApplied(current: ClusterState, reroute: ClusterState -> RoutingTable)
    ensures var request := UpdateRequest(map["logger.org.example" := "DEBUG"], map[]);
            var tier := Execute(current, request, AllocationEnableOnly, reroute).metaData.transientSettings;
            "logger.org.example" in tier && tier["logger.org.example"] == "DEBUG"
  {
    var request := UpdateRequest(map["logger.org.example" := "DEBUG"], map[]);
    assert IsLoggerKey("logger.org.example");
    assert "logger.org.example" in request.transientSettings;
    SettingsAreMerged(current, request, AllocationEnableOnly, reroute);
  }
}
