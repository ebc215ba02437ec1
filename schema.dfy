/**
 * The configuration model of the swap-network simulator: station, demand,
 * operational, baseline and scenario configurations, their defaults and the
 * checks their constructors run (config/schema.py).
 *
 * A Python dataclass whose __post_init__ fills in a default and then asserts
 * becomes a function returning `Result`: `Success` with the completed record,
 * or `Failure` naming the first assertion that fails.
 */
module Schema {
  import opened Wrappers

  // ---------------------------------------------------------------- stations

  datatype StationConfig = StationConfig(
    stationId: string,
    tier: string,            // "high", "medium" or "low" once validated
    chargers: int,           // chargers == physical battery pool size
    inventoryCapacity: int,
    lat: real,
    lon: real,
    initialCharged: int)

  datatype ConfigError =
    | InvalidTier(tier: string)
    | NegativeChargers
    | NonPositiveCapacity
    | InitialChargedOutOfRange
    | NoStations
    | NonPositiveDuration

  const Tiers: seq<string> := ["high", "medium", "low"]

  predicate ValidTier(tier: string) {
    tier in Tiers
  }

  /** What a StationConfig satisfies once its constructor has returned. */
  predicate ValidStationConfig(sc: StationConfig) {
    && ValidTier(sc.tier)
    && sc.chargers >= 0
    && sc.inventoryCapacity > 0
    && 0 <= sc.initialCharged <= sc.inventoryCapacity
  }

  /**
   * StationConfig(...) followed by __post_init__: a missing initial_charged
   * becomes inventory_capacity, then tier, chargers, capacity and the initial
   * count are checked in that order.
   */
  function NewStationConfig(
    stationId: string, tier: string, chargers: int, inventoryCapacity: int,
    lat: real, lon: real, initialCharged: Option<int>): (r: Result<StationConfig, ConfigError>)
    ensures r.Success? <==>
      && ValidTier(tier) && chargers >= 0 && inventoryCapacity > 0
      && 0 <= initialCharged.GetOr(inventoryCapacity) <= inventoryCapacity
    ensures r.Success? ==> ValidStationConfig(r.value)
    ensures r.Success? ==>
      && r.value.stationId == stationId && r.value.tier == tier
      && r.value.chargers == chargers && r.value.inventoryCapacity == inventoryCapacity
      && r.value.lat == lat && r.value.lon == lon
    ensures r.Success? && initialCharged.None? ==> r.value.initialCharged == inventoryCapacity
    ensures r.Success? && initialCharged.Some? ==> r.value.initialCharged == initialCharged.value
    ensures !ValidTier(tier) ==> r == Failure(InvalidTier(tier))
    ensures ValidTier(tier) && chargers < 0 ==> r == Failure(NegativeChargers)
    ensures ValidTier(tier) && chargers >= 0 && inventoryCapacity <= 0 ==> r == Failure(NonPositiveCapacity)
    ensures ValidTier(tier) && chargers >= 0 && inventoryCapacity > 0
            && !(0 <= initialCharged.GetOr(inventoryCapacity) <= inventoryCapacity)
            ==> r == Failure(InitialChargedOutOfRange)
  {
    var initial := initialCharged.GetOr(inventoryCapacity);
    if !ValidTier(tier) then Failure(InvalidTier(tier))
    else if chargers < 0 then Failure(NegativeChargers)
    else if inventoryCapacity <= 0 then Failure(NonPositiveCapacity)
    else if !(0 <= initial <= inventoryCapacity) then Failure(InitialChargedOutOfRange)
    else Success(StationConfig(stationId, tier, chargers, inventoryCapacity, lat, lon, initial))
  }

  /** Re-running the constructor on the fields of a valid configuration gives it back unchanged. */
  lemma StationConfigRoundTrip(sc: StationConfig)
    requires ValidStationConfig(sc)
    ensures NewStationConfig(sc.stationId, sc.tier, sc.chargers, sc.inventoryCapacity,
                             sc.lat, sc.lon, Some(sc.initialCharged)) == Success(sc)
  {
  }

  // ------------------------------------------------------------------ demand

  datatype DemandConfig = DemandConfig(
    baseRates: map<string, real>,       // swaps per hour, by tier
    timeMultipliers: map<int, real>,    // by hour of day
    scenarioMultiplier: real)

  function DefaultBaseRates(): (m: map<string, real>)
    ensures m.Keys == {"high", "medium", "low"}
    ensures m["high"] == 20.0 && m["medium"] == 12.0 && m["low"] == 6.0
  {
    map["high" := 20.0, "medium" := 12.0, "low" := 6.0]
  }

  function DefaultTimeMultipliers(): (m: map<int, real>)
    ensures forall h :: h in m <==> 0 <= h < 24
    ensures forall h :: h in m ==> 0.0 < m[h] <= 1.8
  {
    map[0 := 0.3, 1 := 0.2, 2 := 0.2, 3 := 0.2, 4 := 0.3, 5 := 0.5,
        6 := 0.8, 7 := 1.2, 8 := 1.5, 9 := 1.3, 10 := 1.1, 11 := 1.0,
        12 := 1.0, 13 := 0.9, 14 := 0.9, 15 := 1.0, 16 := 1.2, 17 := 1.5,
        18 := 1.8, 19 := 1.6, 20 := 1.3, 21 := 1.0, 22 := 0.7, 23 := 0.5]
  }

  function DefaultDemandConfig(): (d: DemandConfig)
    ensures d.baseRates == DefaultBaseRates() && d.timeMultipliers == DefaultTimeMultipliers()
    ensures d.scenarioMultiplier == 1.0
  {
    DemandConfig(DefaultBaseRates(), DefaultTimeMultipliers(), 1.0)
  }

  // ------------------------------------------------------------- operations

  datatype OperationalConfig = OperationalConfig(
    swapDuration: real,            // minutes
    chargeDuration: real,          // minutes
    replenishmentThreshold: real,
    replenishmentAmount: int,
    replenishmentDelay: real)      // minutes

  function DefaultOperationalConfig(): (o: OperationalConfig)
    ensures o.swapDuration == 2.0 && o.chargeDuration == 210.0
    ensures o.replenishmentThreshold == 0.2 && o.replenishmentAmount == 10
    ensures o.replenishmentDelay == 30.0
  {
    OperationalConfig(2.0, 210.0, 0.2, 10, 30.0)
  }

  // --------------------------------------------------------------- baseline

  datatype BaselineConfig = BaselineConfig(
    stations: seq<StationConfig>,
    demand: DemandConfig,
    operations: OperationalConfig,
    durationHours: Option<real>,
    simulationDuration: real,      // minutes
    randomSeed: Option<int>)

  const DefaultSimulationDuration: real := 1440.0
  const DefaultRandomSeed: Option<int> := Some(42)

  /** The horizon __post_init__ settles on: duration_hours, when given, wins over simulation_duration. */
  function EffectiveDuration(durationHours: Option<real>, simulationDuration: real): real {
    match durationHours
    case Some(h) => h * 60.0
    case None => simulationDuration
  }

  /**
   * BaselineConfig(...) followed by __post_init__: the hours-to-minutes
   * override, then the two assertions (some station, positive horizon).
   */
  function NewBaselineConfig(
    stations: seq<StationConfig>, demand: DemandConfig, operations: OperationalConfig,
    durationHours: Option<real>, simulationDuration: real, randomSeed: Option<int>)
    : (r: Result<BaselineConfig, ConfigError>)
    ensures r.Success? <==> |stations| > 0 && EffectiveDuration(durationHours, simulationDuration) > 0.0
    ensures |stations| == 0 ==> r == Failure(NoStations)
    ensures r.Success? ==>
      && r.value.stations == stations && r.value.demand == demand
      && r.value.operations == operations && r.value.randomSeed == randomSeed
      && r.value.durationHours == durationHours
    ensures r.Success? && durationHours.Some? ==> r.value.simulationDuration == durationHours.value * 60.0
    ensures r.Success? && durationHours.None? ==> r.value.simulationDuration == simulationDuration
  {
    var duration := EffectiveDuration(durationHours, simulationDuration);
    if |stations| == 0 then Failure(NoStations)
    else if duration <= 0.0 then Failure(NonPositiveDuration)
    else Success(BaselineConfig(stations, demand, operations, durationHours, duration, randomSeed))
  }

  // --------------------------------------------------------------- scenario

  /** A value given by name to a scenario override (Python's untyped setattr argument). */
  datatype Value = IntValue(i: int) | RealValue(r: real) | StrValue(s: string)

  datatype ScenarioConfig = ScenarioConfig(
    name: string,
    description: string,
    addStations: seq<StationConfig>,
    removeStationIds: seq<string>,
    modifyStations: map<string, seq<(string, Value)>>,   // station_id -> ordered {attribute: value}
    demandMultiplier: Option<real>,
    operationsOverride: seq<(string, Value)>)             // ordered {parameter: value}
}
