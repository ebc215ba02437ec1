/**
 * The scenario applicator (scenarios/applicator.py): turns a baseline
 * configuration and a scenario delta into a new configuration.
 *
 * The source deep-copies the baseline and edits the copy in place; here
 * configurations are values, so the baseline a caller holds can never change
 * and every edit builds a new value. The edits run in the source's order:
 * add stations, remove stations, per-station attribute overrides, the demand
 * multiplier, operational overrides. Python's setattr-by-name becomes a table
 * over the enumerated field names that fails on any other name.
 */
module Applicator {
  import opened Wrappers
  import opened Schema

  datatype ApplyError =
    | UnknownStationAttribute(stationId: string, attribute: string)
    | UnknownOperationsParameter(parameter: string)
    | ValueKindMismatch(name: string, value: Value)

  /** The kind of value a named field holds. */
  datatype Kind = IntKind | RealKind | StrKind

  /** The value a field of the given kind ends up holding; an int given to a float field is widened. */
  function Stored(kind: Kind, v: Value): Option<Value> {
    match (kind, v)
    case (IntKind, IntValue(_)) => Some(v)
    case (RealKind, IntValue(i)) => Some(RealValue(i as real))
    case (RealKind, RealValue(_)) => Some(v)
    case (StrKind, StrValue(_)) => Some(v)
    case _ => None
  }

  // ---------------------------------------------------------- station fields

  const StationAttributes: set<string> :=
    {"station_id", "tier", "chargers", "inventory_capacity", "lat", "lon", "initial_charged"}

  function StationAttributeKind(attr: string): (k: Option<Kind>)
    ensures k.Some? <==> attr in StationAttributes
  {
    if attr == "station_id" || attr == "tier" then Some(StrKind)
    else if attr == "chargers" || attr == "inventory_capacity" || attr == "initial_charged" then Some(IntKind)
    else if attr == "lat" || attr == "lon" then Some(RealKind)
    else None
  }

  /** getattr(station, attr) for the station's data fields; None when the station has no such field. */
  function GetStationAttr(s: StationConfig, attr: string): (v: Option<Value>)
    ensures v.Some? <==> attr in StationAttributes
  {
    match attr
    case "station_id" => Some(StrValue(s.stationId))
    case "tier" => Some(StrValue(s.tier))
    case "chargers" => Some(IntValue(s.chargers))
    case "inventory_capacity" => Some(IntValue(s.inventoryCapacity))
    case "lat" => Some(RealValue(s.lat))
    case "lon" => Some(RealValue(s.lon))
    case "initial_charged" => Some(IntValue(s.initialCharged))
    case _ => None
  }

  /** Two stations that agree on every field are the same station. */
  lemma StationAttrsDetermine(a: StationConfig, b: StationConfig)
    requires forall attr :: attr in StationAttributes ==> GetStationAttr(a, attr) == GetStationAttr(b, attr)
    ensures a == b
  {
    assert GetStationAttr(a, "station_id") == GetStationAttr(b, "station_id");
    assert GetStationAttr(a, "tier") == GetStationAttr(b, "tier");
    assert GetStationAttr(a, "chargers") == GetStationAttr(b, "chargers");
    assert GetStationAttr(a, "inventory_capacity") == GetStationAttr(b, "inventory_capacity");
    assert GetStationAttr(a, "lat") == GetStationAttr(b, "lat");
    assert GetStationAttr(a, "lon") == GetStationAttr(b, "lon");
    assert GetStationAttr(a, "initial_charged") == GetStationAttr(b, "initial_charged");
  }

  /** One row of the update table: setattr(station, attr, v) when the station has the field. */
  function SetStationAttr(s: StationConfig, attr: string, v: Value): (r: Result<StationConfig, ApplyError>)
    ensures attr !in StationAttributes ==> r == Failure(UnknownStationAttribute(s.stationId, attr))
    ensures attr in StationAttributes ==>
      (r.Success? <==> Stored(StationAttributeKind(attr).value, v).Some?)
    ensures r.Success? ==> GetStationAttr(r.value, attr) == Stored(StationAttributeKind(attr).value, v)
    ensures r.Success? ==> forall a :: a in StationAttributes && a != attr ==>
      GetStationAttr(r.value, a) == GetStationAttr(s, a)
  {
    match StationAttributeKind(attr)
    case None => Failure(UnknownStationAttribute(s.stationId, attr))
    case Some(kind) =>
      match Stored(kind, v)
      case None => Failure(ValueKindMismatch(attr, v))
      case Some(stored) =>
        match attr
        case "station_id" => Success(s.(stationId := stored.s))
        case "tier" => Success(s.(tier := stored.s))
        case "chargers" => Success(s.(chargers := stored.i))
        case "inventory_capacity" => Success(s.(inventoryCapacity := stored.i))
        case "lat" => Success(s.(lat := stored.r))
        case "lon" => Success(s.(lon := stored.r))
        case _ => Success(s.(initialCharged := stored.i))
  }

  /** Whether one `attribute: value` entry can be applied to a station. */
  predicate ChangeApplies(attr: string, v: Value) {
    attr in StationAttributes && Stored(StationAttributeKind(attr).value, v).Some?
  }

  /** The `for attr, value in changes.items()` loop: entries applied in order, the first bad one raises. */
  function ApplyChanges(s: StationConfig, changes: seq<(string, Value)>): (r: Result<StationConfig, ApplyError>)
    decreases |changes|
  {
    if |changes| == 0 then Success(s)
    else
      var s' :- SetStationAttr(s, changes[0].0, changes[0].1);
      ApplyChanges(s', changes[1..])
  }

  function ChangedNames(changes: seq<(string, Value)>): set<string> {
    set i | 0 <= i < |changes| :: changes[i].0
  }

  predicate DistinctNames(changes: seq<(string, Value)>) {
    forall i, j :: 0 <= i < j < |changes| ==> changes[i].0 != changes[j].0
  }

  /**
   * Splitting off the first entry of a list of distinct names: the rest is
   * still distinct, and its names are the others.
   */
  lemma NamesOfTail(changes: seq<(string, Value)>)
    requires |changes| > 0 && DistinctNames(changes)
    ensures DistinctNames(changes[1..])
    ensures ChangedNames(changes) == {changes[0].0} + ChangedNames(changes[1..])
    ensures changes[0].0 !in ChangedNames(changes[1..])
  {
    var rest := changes[1..];
    assert DistinctNames(rest) by {
      forall i, j | 0 <= i < j < |rest| ensures rest[i].0 != rest[j].0 {
        assert rest[i] == changes[i + 1] && rest[j] == changes[j + 1];
      }
    }
    forall a | a in ChangedNames(changes) ensures a in {changes[0].0} + ChangedNames(rest) {
      var i :| 0 <= i < |changes| && changes[i].0 == a;
      if i > 0 { assert rest[i - 1].0 == a; }
    }
    forall a | a in ChangedNames(rest) ensures a in ChangedNames(changes) {
      var i :| 0 <= i < |rest| && rest[i].0 == a;
      assert changes[i + 1].0 == a;
    }
    forall i | 0 <= i < |rest| ensures rest[i].0 != changes[0].0 {
      assert rest[i] == changes[i + 1];
    }
  }

  /**
   * The changes succeed exactly when every entry applies; then each named
   * attribute holds its given value and every other attribute is unchanged.
   */
  lemma {:induction false} ApplyChangesSpec(s: StationConfig, changes: seq<(string, Value)>)
    requires DistinctNames(changes)
    ensures ApplyChanges(s, changes).Success? <==> forall i :: 0 <= i < |changes| ==> ChangeApplies(changes[i].0, changes[i].1)
    ensures ApplyChanges(s, changes).Success? ==>
      forall i :: 0 <= i < |changes| ==>
        GetStationAttr(ApplyChanges(s, changes).value, changes[i].0)
          == Stored(StationAttributeKind(changes[i].0).value, changes[i].1)
    ensures ApplyChanges(s, changes).Success? ==>
      forall a :: a in StationAttributes && a !in ChangedNames(changes) ==>
        GetStationAttr(ApplyChanges(s, changes).value, a) == GetStationAttr(s, a)
    decreases |changes|
  {
    if |changes| > 0 {
      var rest := changes[1..];
      NamesOfTail(changes);
      var first := SetStationAttr(s, changes[0].0, changes[0].1);
      if first.Success? {
        ApplyChangesSpec(first.value, rest);
        assert forall i :: 1 <= i < |changes| ==> changes[i] == rest[i - 1];
      } else {
        assert !ChangeApplies(changes[0].0, changes[0].1);
      }
    }
  }

  /** Modify one station when its id is a key of the modification map. */
  function ModifyOne(s: StationConfig, mods: map<string, seq<(string, Value)>>): Result<StationConfig, ApplyError> {
    if s.stationId in mods then ApplyChanges(s, mods[s.stationId]) else Success(s)
  }

  /** _modify_stations: stations visited in list order; the first failing station aborts. */
  function ModifyStations(stations: seq<StationConfig>, mods: map<string, seq<(string, Value)>>)
    : (r: Result<seq<StationConfig>, ApplyError>)
    decreases |stations|
  {
    if |stations| == 0 then Success([])
    else
      var head :- ModifyOne(stations[0], mods);
      var tail :- ModifyStations(stations[1..], mods);
      Success([head] + tail)
  }

  /**
   * Modification keeps the list's length and order: station i becomes the
   * result of its own changes (or stays as it is when its id is no key), and
   * the whole step fails exactly when some station's changes fail.
   */
  lemma {:induction false} ModifyStationsSpec(stations: seq<StationConfig>, mods: map<string, seq<(string, Value)>>)
    ensures ModifyStations(stations, mods).Success? <==>
      forall i :: 0 <= i < |stations| ==> ModifyOne(stations[i], mods).Success?
    ensures ModifyStations(stations, mods).Success? ==>
      && |ModifyStations(stations, mods).value| == |stations|
      && forall i :: 0 <= i < |stations| ==>
        ModifyOne(stations[i], mods) == Success(ModifyStations(stations, mods).value[i])
  {
    if |stations| > 0 {
      ModifyStationsSpec(stations[1..], mods);
      assert forall i :: 1 <= i < |stations| ==> stations[i] == stations[1..][i - 1];
    }
  }

  /** A modification key naming no station in the list makes no difference. */
  lemma {:induction false} ModifyIgnoresAbsentKeys(
    stations: seq<StationConfig>, mods: map<string, seq<(string, Value)>>, key: string)
    requires forall i :: 0 <= i < |stations| ==> stations[i].stationId != key
    ensures ModifyStations(stations, mods) == ModifyStations(stations, mods - {key})
  {
    if |stations| > 0 {
      assert ModifyOne(stations[0], mods) == ModifyOne(stations[0], mods - {key});
      ModifyIgnoresAbsentKeys(stations[1..], mods, key);
    }
  }

  // ------------------------------------------------------- add and remove

  /** The comprehension `[s for s in stations if s.station_id not in ids]`. */
  function RemoveStations(stations: seq<StationConfig>, ids: seq<string>): (r: seq<StationConfig>)
    ensures |r| <= |stations|
    decreases |stations|
  {
    if |stations| == 0 then []
    else if stations[0].stationId in ids then RemoveStations(stations[1..], ids)
    else [stations[0]] + RemoveStations(stations[1..], ids)
  }

  /** A station survives removal exactly when it was there and its id is not listed. */
  lemma {:induction false} RemoveStationsMembership(stations: seq<StationConfig>, ids: seq<string>, s: StationConfig)
    ensures s in RemoveStations(stations, ids) <==> s in stations && s.stationId !in ids
  {
    if |stations| > 0 {
      RemoveStationsMembership(stations[1..], ids, s);
      assert stations == [stations[0]] + stations[1..];
    }
  }

  /** Removal works element by element, so the survivors keep their relative order. */
  lemma {:induction false} RemoveStationsDistributes(a: seq<StationConfig>, b: seq<StationConfig>, ids: seq<string>)
    ensures RemoveStations(a + b, ids) == RemoveStations(a, ids) + RemoveStations(b, ids)
  {
    if |a| > 0 {
      assert (a + b)[1..] == a[1..] + b;
      RemoveStationsDistributes(a[1..], b, ids);
    } else {
      assert a + b == b;
    }
  }

  /** Removing no ids keeps every station. */
  lemma {:induction false} RemoveNothing(stations: seq<StationConfig>)
    ensures RemoveStations(stations, []) == stations
  {
    if |stations| > 0 {
      RemoveNothing(stations[1..]);
    }
  }

  // ------------------------------------------------------ operations

  const OperationsParameters: set<string> :=
    {"swap_duration", "charge_duration", "replenishment_threshold", "replenishment_amount", "replenishment_delay"}

  function OperationsParameterKind(param: string): (k: Option<Kind>)
    ensures k.Some? <==> param in OperationsParameters
  {
    if param == "replenishment_amount" then Some(IntKind)
    else if param in OperationsParameters then Some(RealKind)
    else None
  }

  function GetOperationsParam(o: OperationalConfig, param: string): (v: Option<Value>)
    ensures v.Some? <==> param in OperationsParameters
  {
    match param
    case "swap_duration" => Some(RealValue(o.swapDuration))
    case "charge_duration" => Some(RealValue(o.chargeDuration))
    case "replenishment_threshold" => Some(RealValue(o.replenishmentThreshold))
    case "replenishment_amount" => Some(IntValue(o.replenishmentAmount))
    case "replenishment_delay" => Some(RealValue(o.replenishmentDelay))
    case _ => None
  }

  /** setattr(operations, param, v) when operations has the parameter. */
  function SetOperationsParam(o: OperationalConfig, param: string, v: Value): (r: Result<OperationalConfig, ApplyError>)
    ensures param !in OperationsParameters ==> r == Failure(UnknownOperationsParameter(param))
    ensures param in OperationsParameters ==>
      (r.Success? <==> Stored(OperationsParameterKind(param).value, v).Some?)
    ensures r.Success? ==> GetOperationsParam(r.value, param) == Stored(OperationsParameterKind(param).value, v)
    ensures r.Success? ==> forall p :: p in OperationsParameters && p != param ==>
      GetOperationsParam(r.value, p) == GetOperationsParam(o, p)
  {
    match OperationsParameterKind(param)
    case None => Failure(UnknownOperationsParameter(param))
    case Some(kind) =>
      match Stored(kind, v)
      case None => Failure(ValueKindMismatch(param, v))
      case Some(stored) =>
        match param
        case "swap_duration" => Success(o.(swapDuration := stored.r))
        case "charge_duration" => Success(o.(chargeDuration := stored.r))
        case "replenishment_threshold" => Success(o.(replenishmentThreshold := stored.r))
        case "replenishment_amount" => Success(o.(replenishmentAmount := stored.i))
        case _ => Success(o.(replenishmentDelay := stored.r))
  }

  /** _apply_operations_override: overrides applied in order; the first unknown name raises. */
  function ApplyOperationsOverride(o: OperationalConfig, overrides: seq<(string, Value)>)
    : (r: Result<OperationalConfig, ApplyError>)
    decreases |overrides|
  {
    if |overrides| == 0 then Success(o)
    else
      var o' :- SetOperationsParam(o, overrides[0].0, overrides[0].1);
      ApplyOperationsOverride(o', overrides[1..])
  }

  /** Whether one `parameter: value` override entry can be applied. */
  predicate OverrideApplies(param: string, v: Value) {
    param in OperationsParameters && Stored(OperationsParameterKind(param).value, v).Some?
  }

  /**
   * An override with distinct names succeeds exactly when every entry applies;
   * then each named parameter holds its given value and every other parameter
   * keeps its baseline value.
   */
  lemma {:induction false} ApplyOperationsOverrideSpec(o: OperationalConfig, overrides: seq<(string, Value)>)
    requires DistinctNames(overrides)
    ensures ApplyOperationsOverride(o, overrides).Success? <==>
      forall i :: 0 <= i < |overrides| ==> OverrideApplies(overrides[i].0, overrides[i].1)
    ensures ApplyOperationsOverride(o, overrides).Success? ==>
      forall i :: 0 <= i < |overrides| ==>
        GetOperationsParam(ApplyOperationsOverride(o, overrides).value, overrides[i].0)
          == Stored(OperationsParameterKind(overrides[i].0).value, overrides[i].1)
    ensures ApplyOperationsOverride(o, overrides).Success? ==>
      forall p :: p in OperationsParameters && p !in ChangedNames(overrides) ==>
        GetOperationsParam(ApplyOperationsOverride(o, overrides).value, p) == GetOperationsParam(o, p)
    decreases |overrides|
  {
    if |overrides| > 0 {
      var rest := overrides[1..];
      NamesOfTail(overrides);
      var first := SetOperationsParam(o, overrides[0].0, overrides[0].1);
      if first.Success? {
        ApplyOperationsOverrideSpec(first.value, rest);
        assert forall i :: 1 <= i < |overrides| ==> overrides[i] == rest[i - 1];
      } else {
        assert !OverrideApplies(overrides[0].0, overrides[0].1);
      }
    }
  }

  /** An override naming a parameter Operations lacks makes the whole override fail. */
  lemma {:induction false} UnknownParameterFails(o: OperationalConfig, overrides: seq<(string, Value)>, i: nat)
    requires i < |overrides| && overrides[i].0 !in OperationsParameters
    ensures ApplyOperationsOverride(o, overrides).Failure?
    decreases i
  {
    if i > 0 {
      var first := SetOperationsParam(o, overrides[0].0, overrides[0].1);
      if first.Success? {
        UnknownParameterFails(first.value, overrides[1..], i - 1);
      }
    }
  }

  // ------------------------------------------------------------ scenario

  /** Stations after the add and remove steps, before any modification. */
  function AddAndRemove(baseline: BaselineConfig, scenario: ScenarioConfig): seq<StationConfig> {
    RemoveStations(baseline.stations + scenario.addStations, scenario.removeStationIds)
  }

  function ApplyDemandMultiplier(demand: DemandConfig, multiplier: Option<real>): DemandConfig {
    match multiplier
    case Some(m) => demand.(scenarioMultiplier := m)
    case None => demand
  }

  /** ScenarioApplicator.apply_scenario. */
  function ApplyScenario(baseline: BaselineConfig, scenario: ScenarioConfig): (r: Result<BaselineConfig, ApplyError>)
    ensures r.Success? <==>
      && ModifyStations(AddAndRemove(baseline, scenario), scenario.modifyStations).Success?
      && ApplyOperationsOverride(baseline.operations, scenario.operationsOverride).Success?
    ensures ModifyStations(AddAndRemove(baseline, scenario), scenario.modifyStations).Failure? ==>
      r == Failure(ModifyStations(AddAndRemove(baseline, scenario), scenario.modifyStations).error)
    ensures r.Success? ==>
      && r.value.stations == ModifyStations(AddAndRemove(baseline, scenario), scenario.modifyStations).value
      && r.value.operations == ApplyOperationsOverride(baseline.operations, scenario.operationsOverride).value
      && r.value.demand.baseRates == baseline.demand.baseRates
      && r.value.demand.timeMultipliers == baseline.demand.timeMultipliers
      && r.value.durationHours == baseline.durationHours
      && r.value.simulationDuration == baseline.simulationDuration
      && r.value.randomSeed == baseline.randomSeed
    ensures ModifyStations(AddAndRemove(baseline, scenario), scenario.modifyStations).Success?
            && ApplyOperationsOverride(baseline.operations, scenario.operationsOverride).Failure? ==>
      r == Failure(ApplyOperationsOverride(baseline.operations, scenario.operationsOverride).error)
    ensures r.Success? && scenario.demandMultiplier.Some? ==>
      r.value.demand.scenarioMultiplier == scenario.demandMultiplier.value
    ensures r.Success? && scenario.demandMultiplier.None? ==>
      r.value.demand.scenarioMultiplier == baseline.demand.scenarioMultiplier
  {
    var stations :- ModifyStations(AddAndRemove(baseline, scenario), scenario.modifyStations);
    var demand := ApplyDemandMultiplier(baseline.demand, scenario.demandMultiplier);
    var operations :- ApplyOperationsOverride(baseline.operations, scenario.operationsOverride);
    Success(baseline.(stations := stations, demand := demand, operations := operations))
  }

  /**
   * Stations are added before removal runs: an added station whose id is
   * listed for removal is gone, and so is every baseline station listed.
   */
  lemma AddedThenRemoved(baseline: BaselineConfig, scenario: ScenarioConfig, s: StationConfig)
    requires s in baseline.stations + scenario.addStations
    ensures s in AddAndRemove(baseline, scenario) <==> s.stationId !in scenario.removeStationIds
  {
    RemoveStationsMembership(baseline.stations + scenario.addStations, scenario.removeStationIds, s);
  }

  /**
   * The result lists the surviving baseline stations, then the surviving added
   * ones, in their given orders, each modified in place.
   */
  lemma ScenarioStationOrder(baseline: BaselineConfig, scenario: ScenarioConfig)
    requires ApplyScenario(baseline, scenario).Success?
    ensures AddAndRemove(baseline, scenario)
      == RemoveStations(baseline.stations, scenario.removeStationIds)
         + RemoveStations(scenario.addStations, scenario.removeStationIds)
    ensures |ApplyScenario(baseline, scenario).value.stations| == |AddAndRemove(baseline, scenario)|
    ensures forall i :: 0 <= i < |AddAndRemove(baseline, scenario)| ==>
      ModifyOne(AddAndRemove(baseline, scenario)[i], scenario.modifyStations)
        == Success(ApplyScenario(baseline, scenario).value.stations[i])
  {
    RemoveStationsDistributes(baseline.stations, scenario.addStations, scenario.removeStationIds);
    ModifyStationsSpec(AddAndRemove(baseline, scenario), scenario.modifyStations);
  }

  /** A station whose changes name an attribute stations lack makes the whole scenario fail. */
  lemma UnknownAttributeFails(baseline: BaselineConfig, scenario: ScenarioConfig, i: nat, j: nat)
    requires i < |AddAndRemove(baseline, scenario)|
    requires AddAndRemove(baseline, scenario)[i].stationId in scenario.modifyStations
    requires DistinctNames(scenario.modifyStations[AddAndRemove(baseline, scenario)[i].stationId])
    requires j < |scenario.modifyStations[AddAndRemove(baseline, scenario)[i].stationId]|
    requires scenario.modifyStations[AddAndRemove(baseline, scenario)[i].stationId][j].0 !in StationAttributes
    ensures ApplyScenario(baseline, scenario).Failure?
  {
    var s := AddAndRemove(baseline, scenario)[i];
    ApplyChangesSpec(s, scenario.modifyStations[s.stationId]);
    ModifyStationsSpec(AddAndRemove(baseline, scenario), scenario.modifyStations);
  }

  /** With nothing to add, remove, modify or override, the result equals the baseline. */
  lemma EmptyScenarioIsIdentity(baseline: BaselineConfig, scenario: ScenarioConfig)
    requires scenario.addStations == [] && scenario.removeStationIds == []
    requires scenario.modifyStations == map[] && scenario.demandMultiplier.None?
    requires scenario.operationsOverride == []
    ensures ApplyScenario(baseline, scenario) == Success(baseline)
  {
    assert baseline.stations + scenario.addStations == baseline.stations;
    RemoveNothing(baseline.stations);
    ModifyStationsSpec(baseline.stations, scenario.modifyStations);
    var r := ModifyStations(baseline.stations, scenario.modifyStations).value;
    assert r == baseline.stations;
  }
}
