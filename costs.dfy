/**
 * The cost model (kpis/cost_model.py): capital, operational and opportunity
 * costs of one simulated day, computed from the station configurations and
 * the per-station results. Values are unrounded reals.
 */
module Costs {
  import opened Wrappers
  import opened Schema
  import opened Applicator
  import opened Engine

  /** Unit prices in rupees. */
  datatype CostParameters = CostParameters(
    costPerCharger: real,
    costPerBay: real,
    costPerBattery: real,
    costPerSwap: real,
    costPerReplenishment: real,
    electricityCostPerCharge: real,
    laborCostPerHour: real,
    revenuePerSwap: real,
    maintenanceCostPerChargerDaily: real)

  /** The dataclass defaults of CostParameters. */
  function DefaultCostParameters(): (p: CostParameters)
    ensures p.costPerCharger == 50000.0 && p.costPerBay == 25000.0 && p.costPerBattery == 15000.0
    ensures p.costPerSwap == 20.0 && p.costPerReplenishment == 500.0 && p.electricityCostPerCharge == 30.0
    ensures p.laborCostPerHour == 200.0 && p.revenuePerSwap == 150.0 && p.maintenanceCostPerChargerDaily == 50.0
    ensures NonNegativePrices(p)
  {
    CostParameters(50000.0, 25000.0, 15000.0, 20.0, 500.0, 30.0, 200.0, 150.0, 50.0)
  }

  predicate NonNegativePrices(p: CostParameters) {
    && p.costPerCharger >= 0.0 && p.costPerBay >= 0.0 && p.costPerBattery >= 0.0
    && p.costPerSwap >= 0.0 && p.costPerReplenishment >= 0.0 && p.electricityCostPerCharge >= 0.0
    && p.laborCostPerHour >= 0.0 && p.revenuePerSwap >= 0.0 && p.maintenanceCostPerChargerDaily >= 0.0
  }

  datatype CostBreakdown = CostBreakdown(
    chargerCapital: real,
    bayCapital: real,
    inventoryCapital: real,
    totalCapital: real,
    swapOperationsCost: real,
    chargingCost: real,
    laborCost: real,
    maintenanceCost: real,
    replenishmentCost: real,
    totalOperational: real,
    lostRevenue: real,
    totalRevenue: real,
    netOperationalProfit: real,
    totalCost: real)

  // ------------------------------------------------------------------ sums

  function TotalChargers(stations: seq<StationConfig>): int
    decreases |stations|
  {
    if |stations| == 0 then 0 else TotalChargers(stations[..|stations| - 1]) + stations[|stations| - 1].chargers
  }

  function TotalInventoryCapacity(stations: seq<StationConfig>): int
    decreases |stations|
  {
    if |stations| == 0 then 0
    else TotalInventoryCapacity(stations[..|stations| - 1]) + stations[|stations| - 1].inventoryCapacity
  }

  function TotalSuccessful(results: seq<StationResult>): int
    decreases |results|
  {
    if |results| == 0 then 0 else TotalSuccessful(results[..|results| - 1]) + results[|results| - 1].stats.successfulSwaps
  }

  function TotalRejected(results: seq<StationResult>): int
    decreases |results|
  {
    if |results| == 0 then 0 else TotalRejected(results[..|results| - 1]) + results[|results| - 1].stats.rejectedSwaps
  }

  lemma {:induction false} StationSumsAppend(a: seq<StationConfig>, b: seq<StationConfig>)
    ensures TotalChargers(a + b) == TotalChargers(a) + TotalChargers(b)
    ensures TotalInventoryCapacity(a + b) == TotalInventoryCapacity(a) + TotalInventoryCapacity(b)
    decreases |b|
  {
    if |b| == 0 {
      assert a + b == a;
    } else {
      var b' := b[..|b| - 1];
      assert (a + b)[..|a + b| - 1] == a + b';
      StationSumsAppend(a, b');
    }
  }

  lemma {:induction false} ResultSumsAppend(a: seq<StationResult>, b: seq<StationResult>)
    ensures TotalSuccessful(a + b) == TotalSuccessful(a) + TotalSuccessful(b)
    ensures TotalRejected(a + b) == TotalRejected(a) + TotalRejected(b)
    decreases |b|
  {
    if |b| == 0 {
      assert a + b == a;
    } else {
      var b' := b[..|b| - 1];
      assert (a + b)[..|a + b| - 1] == a + b';
      ResultSumsAppend(a, b');
    }
  }

  lemma {:induction false} StationSumsNonNegative(stations: seq<StationConfig>)
    requires forall i :: 0 <= i < |stations| ==> stations[i].chargers >= 0 && stations[i].inventoryCapacity >= 0
    ensures TotalChargers(stations) >= 0 && TotalInventoryCapacity(stations) >= 0
    decreases |stations|
  {
    if |stations| > 0 {
      StationSumsNonNegative(stations[..|stations| - 1]);
    }
  }

  lemma {:induction false} ResultSumsNonNegative(results: seq<StationResult>)
    requires forall i :: 0 <= i < |results| ==>
      results[i].stats.successfulSwaps >= 0 && results[i].stats.rejectedSwaps >= 0
    ensures TotalSuccessful(results) >= 0 && TotalRejected(results) >= 0
    decreases |results|
  {
    if |results| > 0 {
      ResultSumsNonNegative(results[..|results| - 1]);
    }
  }

  // ---------------------------------------------------------- the breakdown

  /** Replenishments assumed per station and day. */
  const ReplenishmentsPerStation: int := 3
  /** Hours of staffed operation per station and day. */
  const LaborHours: real := 24.0

  /**
   * calculate_costs over results["stations"] and baseline_config.stations,
   * with the bay count taken as 0 because a station configuration has no
   * bays; CalculateCostsAsWritten is the code as written.
   */
  function CalculateCosts(p: CostParameters, results: seq<StationResult>, stations: seq<StationConfig>): (c: CostBreakdown)
    ensures c.chargerCapital == TotalChargers(stations) as real * p.costPerCharger
    ensures c.bayCapital == 0.0
    ensures c.inventoryCapital == TotalInventoryCapacity(stations) as real * p.costPerBattery
    ensures c.totalCapital == c.chargerCapital + c.bayCapital + c.inventoryCapital
    ensures c.swapOperationsCost == TotalSuccessful(results) as real * p.costPerSwap
    // one charge per successful swap
    ensures c.chargingCost == TotalSuccessful(results) as real * p.electricityCostPerCharge
    ensures c.laborCost == |stations| as real * p.laborCostPerHour * LaborHours
    ensures c.maintenanceCost == TotalChargers(stations) as real * p.maintenanceCostPerChargerDaily
    ensures c.replenishmentCost == (|stations| * ReplenishmentsPerStation) as real * p.costPerReplenishment
    ensures c.totalOperational
         == c.swapOperationsCost + c.chargingCost + c.laborCost + c.maintenanceCost + c.replenishmentCost
    ensures c.lostRevenue == TotalRejected(results) as real * p.revenuePerSwap
    ensures c.totalRevenue == TotalSuccessful(results) as real * p.revenuePerSwap
    ensures c.netOperationalProfit == c.totalRevenue - c.totalOperational
    ensures c.totalCost == c.totalCapital + c.totalOperational + c.lostRevenue
  {
    Breakdown(p, TotalChargers(stations), TotalInventoryCapacity(stations),
              TotalSuccessful(results), TotalRejected(results), |stations|)
  }

  /** The arithmetic of calculate_costs once the counts are summed. */
  function Breakdown(p: CostParameters, chargers: int, inventory: int, successful: int, rejected: int,
                     stationCount: int): CostBreakdown
  {
    var chargerCapital := chargers as real * p.costPerCharger;
    var bayCapital := 0.0;
    var inventoryCapital := inventory as real * p.costPerBattery;
    var totalCapital := chargerCapital + bayCapital + inventoryCapital;
    var swapOperations := successful as real * p.costPerSwap;
    var charging := successful as real * p.electricityCostPerCharge;
    var labor := stationCount as real * p.laborCostPerHour * LaborHours;
    var maintenance := chargers as real * p.maintenanceCostPerChargerDaily;
    var replenishment := (stationCount * ReplenishmentsPerStation) as real * p.costPerReplenishment;
    var totalOperational := swapOperations + charging + labor + maintenance + replenishment;
    var lostRevenue := rejected as real * p.revenuePerSwap;
    var totalRevenue := successful as real * p.revenuePerSwap;
    CostBreakdown(chargerCapital, bayCapital, inventoryCapital, totalCapital,
                  swapOperations, charging, labor, maintenance, replenishment, totalOperational,
                  lostRevenue, totalRevenue, totalRevenue - totalOperational,
                  totalCapital + totalOperational + lostRevenue)
  }

  /** The breakdown is linear in the counts. */
  lemma BreakdownAdditive(p: CostParameters, c1: int, i1: int, s1: int, r1: int, n1: int,
                          c2: int, i2: int, s2: int, r2: int, n2: int)
    ensures var a := Breakdown(p, c1, i1, s1, r1, n1);
      var b := Breakdown(p, c2, i2, s2, r2, n2);
      var ab := Breakdown(p, c1 + c2, i1 + i2, s1 + s2, r1 + r2, n1 + n2);
      && ab.totalCapital == a.totalCapital + b.totalCapital
      && ab.totalOperational == a.totalOperational + b.totalOperational
      && ab.lostRevenue == a.lostRevenue + b.lostRevenue
      && ab.totalRevenue == a.totalRevenue + b.totalRevenue
      && ab.netOperationalProfit == a.netOperationalProfit + b.netOperationalProfit
      && ab.totalCost == a.totalCost + b.totalCost
  {
    ScaleSum(c1, c2, p.costPerCharger);
    ScaleSum(i1, i2, p.costPerBattery);
    ScaleSum(s1, s2, p.costPerSwap);
    ScaleSum(s1, s2, p.electricityCostPerCharge);
    ScaleSum(s1, s2, p.revenuePerSwap);
    ScaleSum(r1, r2, p.revenuePerSwap);
    ScaleSum(c1, c2, p.maintenanceCostPerChargerDaily);
    ScaleSum(n1, n2, p.laborCostPerHour);
    ScaleSum(n1 * ReplenishmentsPerStation, n2 * ReplenishmentsPerStation, p.costPerReplenishment);
  }

  /**
   * calculate_costs as written: sum(s.bays for s in baseline_config.stations)
   * raises AttributeError at the first station, since a station
   * configuration has no bays attribute; with no stations the sum is 0.
   */
  function CalculateCostsAsWritten(p: CostParameters, results: seq<StationResult>, stations: seq<StationConfig>)
    : (r: Result<CostBreakdown, EngineError>)
  {
    if |stations| == 0 then Success(CalculateCosts(p, results, stations))
    else match GetStationAttr(stations[0], "bays")
      case None => Failure(AttributeError("bays"))
      case Some(_) => Success(CalculateCosts(p, results, stations))
  }

  /** As written, every non-empty network fails on the bay count. */
  lemma CalculateCostsAsWrittenFails(p: CostParameters, results: seq<StationResult>, stations: seq<StationConfig>)
    requires |stations| > 0
    ensures CalculateCostsAsWritten(p, results, stations) == Failure(AttributeError("bays"))
  {
    assert "bays" !in StationAttributes;
  }

  // ------------------------------------------------------------ properties

  lemma ScaleSum(a: int, b: int, price: real)
    ensures (a + b) as real * price == a as real * price + b as real * price
  {
  }

  /**
   * Costs are additive over networks: the breakdown of two networks
   * together is the sum of their breakdowns, component by component.
   */
  lemma CostsAdditive(p: CostParameters, ra: seq<StationResult>, rb: seq<StationResult>,
                      sa: seq<StationConfig>, sb: seq<StationConfig>)
    ensures var a := CalculateCosts(p, ra, sa);
      var b := CalculateCosts(p, rb, sb);
      var ab := CalculateCosts(p, ra + rb, sa + sb);
      && ab.totalCapital == a.totalCapital + b.totalCapital
      && ab.totalOperational == a.totalOperational + b.totalOperational
      && ab.lostRevenue == a.lostRevenue + b.lostRevenue
      && ab.totalRevenue == a.totalRevenue + b.totalRevenue
      && ab.netOperationalProfit == a.netOperationalProfit + b.netOperationalProfit
      && ab.totalCost == a.totalCost + b.totalCost
  {
    StationSumsAppend(sa, sb);
    ResultSumsAppend(ra, rb);
    BreakdownAdditive(p, TotalChargers(sa), TotalInventoryCapacity(sa), TotalSuccessful(ra), TotalRejected(ra), |sa|,
                      TotalChargers(sb), TotalInventoryCapacity(sb), TotalSuccessful(rb), TotalRejected(rb), |sb|);
  }

  /**
   * Every swap attempt that ends is either revenue or lost revenue: the two
   * together are the settled attempts priced at the revenue per swap.
   */
  lemma RevenueSplitsOutcomes(p: CostParameters, results: seq<StationResult>, stations: seq<StationConfig>)
    ensures CalculateCosts(p, results, stations).totalRevenue + CalculateCosts(p, results, stations).lostRevenue
         == (TotalSuccessful(results) + TotalRejected(results)) as real * p.revenuePerSwap
  {
    ScaleSum(TotalSuccessful(results), TotalRejected(results), p.revenuePerSwap);
  }

  /** With non-negative prices, counts and capacities, every cost component is non-negative. */
  lemma CostsNonNegative(p: CostParameters, results: seq<StationResult>, stations: seq<StationConfig>)
    requires NonNegativePrices(p)
    requires forall i :: 0 <= i < |stations| ==> stations[i].chargers >= 0 && stations[i].inventoryCapacity >= 0
    requires forall i :: 0 <= i < |results| ==>
      results[i].stats.successfulSwaps >= 0 && results[i].stats.rejectedSwaps >= 0
    ensures var c := CalculateCosts(p, results, stations);
      && c.totalCapital >= 0.0 && c.totalOperational >= 0.0 && c.lostRevenue >= 0.0
      && c.totalRevenue >= 0.0 && c.totalCost >= c.totalCapital
  {
    StationSumsNonNegative(stations);
    ResultSumsNonNegative(results);
    var c := CalculateCosts(p, results, stations);
    NonNegativeProduct(TotalChargers(stations) as real, p.costPerCharger);
    NonNegativeProduct(TotalInventoryCapacity(stations) as real, p.costPerBattery);
    NonNegativeProduct(TotalSuccessful(results) as real, p.costPerSwap);
    NonNegativeProduct(TotalSuccessful(results) as real, p.electricityCostPerCharge);
    NonNegativeProduct(|stations| as real, p.laborCostPerHour);
    NonNegativeProduct(|stations| as real * p.laborCostPerHour, LaborHours);
    NonNegativeProduct(TotalChargers(stations) as real, p.maintenanceCostPerChargerDaily);
    NonNegativeProduct((|stations| * ReplenishmentsPerStation) as real, p.costPerReplenishment);
    NonNegativeProduct(TotalRejected(results) as real, p.revenuePerSwap);
    NonNegativeProduct(TotalSuccessful(results) as real, p.revenuePerSwap);
  }

  lemma NonNegativeProduct(a: real, b: real)
    requires a >= 0.0 && b >= 0.0
    ensures a * b >= 0.0
  {
  }

  // ----------------------------------------------------------------- deltas

  datatype CostDelta = CostDelta(
    capitalDelta: real,
    operationalDelta: real,
    lostRevenueDelta: real,
    revenueDelta: real,
    profitDelta: real,
    totalCostDelta: real)

  /** calculate_cost_delta: scenario minus baseline, component by component. */
  function CalculateCostDelta(baseline: CostBreakdown, scenario: CostBreakdown): (d: CostDelta)
    ensures baseline.totalCapital + d.capitalDelta == scenario.totalCapital
    ensures baseline.totalOperational + d.operationalDelta == scenario.totalOperational
    ensures baseline.lostRevenue + d.lostRevenueDelta == scenario.lostRevenue
    ensures baseline.totalRevenue + d.revenueDelta == scenario.totalRevenue
    ensures baseline.netOperationalProfit + d.profitDelta == scenario.netOperationalProfit
    ensures baseline.totalCost + d.totalCostDelta == scenario.totalCost
  {
    CostDelta(
      scenario.totalCapital - baseline.totalCapital,
      scenario.totalOperational - baseline.totalOperational,
      scenario.lostRevenue - baseline.lostRevenue,
      scenario.totalRevenue - baseline.totalRevenue,
      scenario.netOperationalProfit - baseline.netOperationalProfit,
      scenario.totalCost - baseline.totalCost)
  }

  /** A breakdown compared with itself changes nothing. */
  lemma DeltaOfSelfIsZero(c: CostBreakdown)
    ensures CalculateCostDelta(c, c) == CostDelta(0.0, 0.0, 0.0, 0.0, 0.0, 0.0)
  {
  }

  /** Swapping baseline and scenario negates every delta. */
  lemma DeltaAntisymmetric(a: CostBreakdown, b: CostBreakdown)
    ensures var d := CalculateCostDelta(a, b);
      var e := CalculateCostDelta(b, a);
      && e.capitalDelta == -d.capitalDelta && e.operationalDelta == -d.operationalDelta
      && e.lostRevenueDelta == -d.lostRevenueDelta && e.revenueDelta == -d.revenueDelta
      && e.profitDelta == -d.profitDelta && e.totalCostDelta == -d.totalCostDelta
  {
  }

  /**
   * The profit delta of two computed breakdowns is the revenue delta minus
   * the operational delta, and the total-cost delta is the sum of the
   * capital, operational and lost-revenue deltas.
   */
  lemma DeltaDecomposes(p: CostParameters, ra: seq<StationResult>, sa: seq<StationConfig>,
                        rb: seq<StationResult>, sb: seq<StationConfig>)
    ensures var d := CalculateCostDelta(CalculateCosts(p, ra, sa), CalculateCosts(p, rb, sb));
      && d.profitDelta == d.revenueDelta - d.operationalDelta
      && d.totalCostDelta == d.capitalDelta + d.operationalDelta + d.lostRevenueDelta
  {
  }
}
