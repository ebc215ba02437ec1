/**
 * The simulation engine (simulation/engine.py), structural part only: one
 * station and one demand generator per configured station, all generators
 * drawing from one shared random state, and the shape of the result bundle.
 * Running the scheduler (env.run) is not modelled.
 */
module Engine {
  import opened Wrappers
  import opened Schema
  import opened Applicator
  import opened Stations
  import opened Demand

  /** The rate used for a tier that base_rates does not list. */
  const DefaultBaseRate: real := 10.0

  /** base_rates.get(tier, 10.0). */
  function BaseRateFor(demand: DemandConfig, tier: string): (r: real)
    ensures tier in demand.baseRates ==> r == demand.baseRates[tier]
    ensures tier !in demand.baseRates ==> r == DefaultBaseRate
  {
    if tier in demand.baseRates then demand.baseRates[tier] else DefaultBaseRate
  }

  /** Under the default demand configuration every valid tier gets its listed rate. */
  lemma DefaultTiersUseListedRates(tier: string)
    requires ValidTier(tier)
    ensures BaseRateFor(DefaultDemandConfig(), tier) == DefaultBaseRates()[tier]
    ensures BaseRateFor(DefaultDemandConfig(), tier) > 0.0
  {
    assert tier == "high" || tier == "medium" || tier == "low";
  }

  // ----------------------------------------------- reading the station config

  datatype EngineError = AttributeError(name: string)

  /**
   * Python's attribute reads on a StationConfig, in order: the values of the
   * named attributes, or the error of the first name the config has no
   * attribute for.
   */
  function ReadStationAttrs(sc: StationConfig, names: seq<string>): (r: Result<seq<Value>, EngineError>)
    ensures r.Success? <==> forall i :: 0 <= i < |names| ==> names[i] in StationAttributes
    ensures r.Success? ==> |r.value| == |names|
    ensures r.Success? ==> forall i :: 0 <= i < |names| ==> Some(r.value[i]) == GetStationAttr(sc, names[i])
    decreases |names|
  {
    if |names| == 0 then Success([])
    else match GetStationAttr(sc, names[0])
      case None => Failure(AttributeError(names[0]))
      case Some(v) =>
        var rest := ReadStationAttrs(sc, names[1..]);
        if rest.Failure? then
          assert forall i :: 1 <= i < |names| ==> names[i] == names[1..][i - 1];
          Failure(rest.error)
        else
          Success([v] + rest.value)
  }

  /** The station attributes _create_station reads as written, including `bays`. */
  const CreateStationReadsAsWritten: seq<string> :=
    ["station_id", "tier", "bays", "chargers", "inventory_capacity", "initial_charged"]

  /** The station attributes _create_station reads once the `bays` argument is dropped. */
  const CreateStationReads: seq<string> :=
    ["station_id", "tier", "chargers", "inventory_capacity", "initial_charged"]

  /**
   * As written, _create_station reads `station_config.bays`, which a
   * StationConfig does not have: creating any station fails, so setup fails
   * on every configuration with at least one station.
   */
  lemma CreateStationAsWrittenFails(sc: StationConfig)
    ensures ReadStationAttrs(sc, CreateStationReadsAsWritten).Failure?
    ensures ReadStationAttrs(sc, CreateStationReadsAsWritten).error == AttributeError("bays")
  {
    assert "bays" !in StationAttributes;
    var r2 := ReadStationAttrs(sc, CreateStationReadsAsWritten[2..]);
    assert r2 == Failure(AttributeError("bays"));
  }

  /** Without `bays`, every read succeeds and yields the config's own fields. */
  lemma CreateStationReadsSucceed(sc: StationConfig)
    ensures ReadStationAttrs(sc, CreateStationReads)
         == Success([StrValue(sc.stationId), StrValue(sc.tier), IntValue(sc.chargers),
                     IntValue(sc.inventoryCapacity), IntValue(sc.initialCharged)])
  {
    var names := CreateStationReads;
    forall i | 0 <= i < |names| ensures names[i] in StationAttributes {
      assert i == 0 || i == 1 || i == 2 || i == 3 || i == 4;
    }
    var r := ReadStationAttrs(sc, names);
    var expected := [StrValue(sc.stationId), StrValue(sc.tier), IntValue(sc.chargers),
                     IntValue(sc.inventoryCapacity), IntValue(sc.initialCharged)];
    forall i | 0 <= i < |names| ensures r.value[i] == expected[i] {
      assert Some(r.value[i]) == GetStationAttr(sc, names[i]);
      assert i == 0 || i == 1 || i == 2 || i == 3 || i == 4;
    }
    assert r.value == expected;
  }

  // ---------------------------------------------------------------- results

  /** One entry of results["stations"]. */
  datatype StationResult = StationResult(
    stationId: string,
    tier: string,
    stats: StatsSummary,
    swapEvents: seq<SwapEvent>,
    chargeEvents: seq<ChargeEvent>,
    inventoryEvents: seq<InventoryEvent>)

  /** The dictionary _collect_results returns. */
  datatype ResultBundle = ResultBundle(
    simulationDuration: real,
    randomSeed: Option<int>,
    stations: seq<StationResult>)

  /** Entry r is what _collect_results records for station st. */
  predicate ResultOf(r: StationResult, st: Station)
    reads st
  {
    && r.stationId == st.stationId && r.tier == st.tier
    && r.stats == st.GetStatsSummary()
    && r.swapEvents == st.swapEvents && r.chargeEvents == st.chargeEvents
    && r.inventoryEvents == st.inventoryEvents
  }

  /**
   * The entry of a station in a reachable state: its rejection rate lies in
   * [0, 1], its outcomes never exceed its arrivals, its arrivals are the
   * arrival records of its swap log, and its average wait is bounded by the
   * patience once no swap is in progress.
   */
  lemma ResultOfValidStation(r: StationResult, st: Station)
    requires st.Valid() && ResultOf(r, st)
    ensures 0.0 <= r.stats.rejectionRate <= 1.0
    ensures 0.0 <= r.stats.avgWaitTime
    ensures st.swapsInProgress == 0 ==> r.stats.avgWaitTime <= st.maxWaitTime
    ensures r.stats.successfulSwaps + r.stats.rejectedSwaps <= r.stats.totalArrivals
    ensures r.stats.totalArrivals == CountSwaps(r.swapEvents, Arrival)
    ensures r.stats.rejectedSwaps == CountSwaps(r.swapEvents, Rejected)
  {
    StatsBounds(st.Params(), st.tier, st.State());
  }

  /** Station st was just built from config sc under operations ops, as _create_station does. */
  ghost predicate CreatedFrom(st: Station, sc: StationConfig, ops: OperationalConfig, now: real)
    reads st
  {
    && st.stationId == sc.stationId && st.tier == sc.tier && st.inventoryCapacity == sc.chargers
    && st.swapDuration == ops.swapDuration && st.chargeDuration == ops.chargeDuration
    && st.replenishmentThreshold == ops.replenishmentThreshold
    && st.replenishmentAmount == ops.replenishmentAmount
    && st.replenishmentDelay == ops.replenishmentDelay
    && st.maxWaitTime == DefaultMaxWaitTime
    && sc.chargers > 0 && sc.initialCharged >= 0
    && st.level == Min(sc.initialCharged, sc.chargers) && st.depletedCount == sc.chargers - st.level
    && st.chargingCount == 0 && st.totalArrivals == 0 && st.successfulSwaps == 0 && st.rejectedSwaps == 0
    && st.totalWaitTime == 0.0 && st.swapEvents == [] && st.chargeEvents == []
    && st.inventoryEvents == [InventoryEvent(now, sc.stationId, st.level, st.depletedCount)]
    && st.pendingRequests == 0 && st.swapsInProgress == 0 && st.queuedCharges == st.depletedCount
    && st.unloggedPuts == 0 && st.waits == []
  }

  /** A newly created station is in the initial state of its config, which satisfies the station invariant. */
  lemma CreatedStationValid(st: Station, sc: StationConfig, ops: OperationalConfig, now: real)
    requires CreatedFrom(st, sc, ops, now)
    ensures st.State() == InitState(st.Params(), sc.initialCharged, now)
    ensures st.Valid()
  {
  }

  /** Generator g feeds station st with the rate of its tier and the shared random state. */
  predicate FeedsStation(g: DemandGenerator, st: Station, demand: DemandConfig, rs: RandomState)
    reads g
  {
    && g.station == st
    && g.baseRate == BaseRateFor(demand, st.tier)
    && g.timeMultipliers == demand.timeMultipliers
    && g.scenarioMultiplier == demand.scenarioMultiplier
    && g.randomState == rs
    && g.customerCounter == 0
  }

  /**
   * Whether SimPy can build the battery store of a config: a Container
   * refuses a capacity that is not positive and a negative initial level.
   */
  predicate Creatable(sc: StationConfig) {
    sc.chargers > 0 && sc.initialCharged >= 0
  }

  predicate AllCreatable(stations: seq<StationConfig>) {
    forall i :: 0 <= i < |stations| ==> Creatable(stations[i])
  }

  class SimulationEngine {
    const config: BaselineConfig
    const randomState: RandomState
    var stations: seq<Station>
    var demandGenerators: seq<DemandGenerator>

    /** SimulationEngine.__init__: no stations yet; one random state, seeded by random_seed when given. */
    constructor (config: BaselineConfig, sampler: (nat, real) -> real)
      ensures this.config == config
      ensures fresh(randomState) && randomState.seed == config.randomSeed && randomState.drawn == 0
      ensures stations == [] && demandGenerators == []
    {
      this.config := config;
      randomState := new RandomState(config.randomSeed, sampler);
      stations := [];
      demandGenerators := [];
    }

    /**
     * setup at minute 0: for each station config, in order, one new station
     * and one new generator feeding it, appended to the engine's lists.
     * Configs are not re-validated: SimPy refuses a battery store with no
     * capacity or a negative initial level, so such a config stops setup
     * there (ok is false); what was created before it stays.
     */
    method Setup() returns (ok: bool)
      modifies this
      ensures ok <==> AllCreatable(config.stations)
      ensures |old(stations)| <= |stations| && |old(demandGenerators)| <= |demandGenerators|
      ensures |stations| - |old(stations)| == |demandGenerators| - |old(demandGenerators)|
      ensures stations[..|old(stations)|] == old(stations)
      ensures demandGenerators[..|old(demandGenerators)|] == old(demandGenerators)
      ensures ok ==> |stations| - |old(stations)| == |config.stations|
      ensures !ok ==> |stations| - |old(stations)| < |config.stations|
                      && !Creatable(config.stations[|stations| - |old(stations)|])
      ensures forall k :: |old(stations)| <= k < |stations| ==>
        && fresh(stations[k])
        && CreatedFrom(stations[k], config.stations[k - |old(stations)|], config.operations, 0.0)
      ensures forall k :: |old(demandGenerators)| <= k < |demandGenerators| ==>
        && fresh(demandGenerators[k])
        && FeedsStation(demandGenerators[k], stations[k - |old(demandGenerators)| + |old(stations)|],
                        config.demand, randomState)
      ensures forall a, b :: |old(stations)| <= a < b < |stations| ==> stations[a] != stations[b]
    {
      var created, generators;
      created, generators, ok := CreateAll();
      stations := stations + created;
      demandGenerators := demandGenerators + generators;
    }

    /** The loop of setup, over fresh lists. */
    method CreateAll() returns (created: seq<Station>, generators: seq<DemandGenerator>, ok: bool)
      ensures ok <==> AllCreatable(config.stations)
      ensures |created| == |generators| <= |config.stations|
      ensures ok ==> |created| == |config.stations|
      ensures !ok ==> |created| < |config.stations| && !Creatable(config.stations[|created|])
      ensures forall k :: 0 <= k < |created| ==>
        fresh(created[k]) && CreatedFrom(created[k], config.stations[k], config.operations, 0.0)
      ensures forall k :: 0 <= k < |generators| ==>
        fresh(generators[k]) && FeedsStation(generators[k], created[k], config.demand, randomState)
      ensures forall a, b :: 0 <= a < b < |created| ==> created[a] != created[b]
    {
      created := [];
      generators := [];
      ok := true;
      while |created| < |config.stations|
        invariant |created| == |generators| <= |config.stations|
        invariant AllCreatable(config.stations[..|created|])
        invariant forall k :: 0 <= k < |created| ==>
          fresh(created[k]) && CreatedFrom(created[k], config.stations[k], config.operations, 0.0)
        invariant forall k :: 0 <= k < |generators| ==>
          fresh(generators[k]) && FeedsStation(generators[k], created[k], config.demand, randomState)
        invariant forall a, b :: 0 <= a < b < |created| ==> created[a] != created[b]
        decreases |config.stations| - |created|
      {
        var sc := config.stations[|created|];
        if sc.chargers <= 0 || sc.initialCharged < 0 {
          // simpy.Container raises ValueError
          ok := false;
          return;
        }
        var station := CreateStation(sc);
        var generator := CreateDemandGenerator(station);
        assert forall a :: 0 <= a < |created| ==> created[a] != station;
        assert config.stations[..|created| + 1] == config.stations[..|created|] + [sc];
        created := created + [station];
        generators := generators + [generator];
      }
      assert config.stations[..|created|] == config.stations;
    }

    /**
     * _create_station at minute 0: the config's id, tier, charger count,
     * capacity and initial charge, the operations' durations and
     * replenishment settings, and the default patience (max_wait_time is not
     * passed).
     */
    method CreateStation(sc: StationConfig) returns (st: Station)
      requires Creatable(sc)
      ensures fresh(st) && CreatedFrom(st, sc, config.operations, 0.0)
    {
      var ops := config.operations;
      st := new Station(sc.stationId, sc.tier, sc.chargers, sc.inventoryCapacity, sc.initialCharged,
                        ops.swapDuration, ops.chargeDuration, ops.replenishmentThreshold,
                        ops.replenishmentAmount, ops.replenishmentDelay, DefaultMaxWaitTime, 0.0);
    }

    /** _create_demand_generator: the tier's base rate, the demand settings and the shared random state. */
    method CreateDemandGenerator(st: Station) returns (g: DemandGenerator)
      ensures fresh(g) && FeedsStation(g, st, config.demand, randomState)
    {
      g := new DemandGenerator(st, BaseRateFor(config.demand, st.tier), config.demand.timeMultipliers,
                               config.demand.scenarioMultiplier, randomState);
    }

    /** _collect_results: the run's horizon and seed, and one entry per station in creation order. */
    method CollectResults() returns (r: ResultBundle)
      ensures r.simulationDuration == config.simulationDuration && r.randomSeed == config.randomSeed
      ensures |r.stations| == |stations|
      ensures forall i :: 0 <= i < |stations| ==> ResultOf(r.stations[i], stations[i])
    {
      var entries: seq<StationResult> := [];
      for i := 0 to |stations|
        invariant |entries| == i
        invariant forall j :: 0 <= j < i ==> ResultOf(entries[j], stations[j])
      {
        var st := stations[i];
        entries := entries + [StationResult(st.stationId, st.tier, st.GetStatsSummary(),
                                            st.swapEvents, st.chargeEvents, st.inventoryEvents)];
      }
      r := ResultBundle(config.simulationDuration, config.randomSeed, entries);
    }
  }
}
