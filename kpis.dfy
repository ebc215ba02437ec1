/**
 * Key performance indicators (kpis/calculator.py): per-station ratios with
 * zero guards, a capped charger utilisation, a time-weighted average of the
 * charged inventory, and the city-wide aggregation. Values are unrounded.
 */
module Kpis {
  import opened Stations
  import opened Engine

  datatype StationKpis = StationKpis(
    stationId: string,
    tier: string,
    avgWaitTime: real,
    lostSwaps: int,
    lostSwapsPct: real,
    totalArrivals: int,
    successfulSwaps: int,
    chargerUtilization: real,
    avgChargedInventory: real)

  datatype CityKpis = CityKpis(
    avgWaitTime: real,
    lostSwapsPct: real,
    chargerUtilization: real,
    idleInventoryPct: real,
    throughput: real,
    costProxy: real,
    totalArrivals: int,
    totalSwaps: int,
    totalLost: int)

  datatype KpiReport = KpiReport(city: CityKpis, stations: seq<StationKpis>)

  // ------------------------------------------------------------- lost swaps

  /** lost / arrivals * 100, or 0 when there were no arrivals. */
  function LostSwapsPct(lost: int, arrivals: int): (pct: real)
    ensures arrivals > 0 ==> pct * arrivals as real == lost as real * 100.0
    ensures arrivals <= 0 ==> pct == 0.0
  {
    if arrivals > 0 then lost as real / arrivals as real * 100.0 else 0.0
  }

  /** Losses among the arrivals make a percentage between 0 and 100. */
  lemma LostSwapsPctBounded(lost: int, arrivals: int)
    requires 0 <= lost <= arrivals
    ensures 0.0 <= LostSwapsPct(lost, arrivals) <= 100.0
  {
    if arrivals > 0 {
      DivBound(lost as real, 1.0, arrivals as real);
    }
  }

  // ------------------------------------------------------ charger utilisation

  function MinReal(a: real, b: real): real {
    if a <= b then a else b
  }

  /**
   * _calculate_charger_utilization: completed charges times the charge
   * duration over the horizon, capped at 1; 0 without charge events or
   * without a positive horizon. The charger count plays no part.
   */
  function ChargerUtilization(chargeEvents: seq<ChargeEvent>, simulationDuration: real, chargeDuration: real): (u: real)
    ensures |chargeEvents| == 0 || simulationDuration <= 0.0 ==> u == 0.0
    ensures u <= 1.0
    ensures chargeDuration >= 0.0 ==> u >= 0.0
    ensures |chargeEvents| > 0 && simulationDuration > 0.0 ==>
      var busy := CountCharges(chargeEvents, ChargeEnd) as real * chargeDuration;
      && (u == 1.0 <==> busy >= simulationDuration)
      && (u < 1.0 ==> u * simulationDuration == busy)
  {
    if |chargeEvents| == 0 then 0.0
    else
      var busy := CountCharges(chargeEvents, ChargeEnd) as real * chargeDuration;
      if simulationDuration > 0.0 then
        RatioFacts(busy, simulationDuration);
        MinReal(busy / simulationDuration, 1.0)
      else 0.0
  }

  lemma RatioFacts(x: real, n: real)
    requires n > 0.0
    ensures (x / n) * n == x
    ensures x / n >= 1.0 <==> x >= n
    ensures x >= 0.0 ==> x / n >= 0.0
  {
  }

  // ------------------------------------------------------ average inventory

  /** The charged count of each record held until the next record: sum of count_i * (t_{i+1} - t_i). */
  function PairSum(events: seq<InventoryEvent>): real
    decreases |events|
  {
    if |events| < 2 then 0.0
    else
      var n := |events|;
      PairSum(events[..n - 1]) + events[n - 2].chargedCount as real * (events[n - 1].time - events[n - 2].time)
  }

  /** The area under the charged count from the first record to the end of the run. */
  function WeightedInventory(events: seq<InventoryEvent>, simulationDuration: real): real
    requires |events| > 0
  {
    var last := events[|events| - 1];
    PairSum(events) + last.chargedCount as real * (simulationDuration - last.time)
  }

  /** The time-weighted average charged count over the run; 0 for an empty log or no positive horizon. */
  function AverageInventory(events: seq<InventoryEvent>, simulationDuration: real): real {
    if |events| == 0 || simulationDuration <= 0.0 then 0.0
    else WeightedInventory(events, simulationDuration) / simulationDuration
  }

  /** _calculate_avg_inventory: accumulates the same area, record by record. */
  method CalculateAvgInventory(events: seq<InventoryEvent>, simulationDuration: real) returns (avg: real)
    ensures avg == AverageInventory(events, simulationDuration)
  {
    if |events| == 0 {
      return 0.0;
    }
    var total := 0.0;
    for i := 0 to |events| - 1
      invariant total == PairSum(events[..i + 1])
    {
      var duration := events[i + 1].time - events[i].time;
      total := total + events[i].chargedCount as real * duration;
      assert events[..i + 2][..i + 1] == events[..i + 1];
    }
    assert events[..|events|] == events;
    var last := events[|events| - 1];
    total := total + last.chargedCount as real * (simulationDuration - last.time);
    avg := if simulationDuration > 0.0 then total / simulationDuration else 0.0;
  }

  predicate ConstantCount(events: seq<InventoryEvent>, c: int) {
    forall i :: 0 <= i < |events| ==> events[i].chargedCount == c
  }

  /** With a constant count the sum telescopes to the count times the elapsed time. */
  lemma {:induction false} PairSumConstant(events: seq<InventoryEvent>, c: int)
    requires |events| > 0 && ConstantCount(events, c)
    ensures PairSum(events) == c as real * (events[|events| - 1].time - events[0].time)
    decreases |events|
  {
    var n := |events|;
    if n >= 2 {
      var init := events[..n - 1];
      assert ConstantCount(init, c);
      PairSumConstant(init, c);
      assert init[0] == events[0] && init[n - 2] == events[n - 2];
      var a := events[n - 2].time - events[0].time;
      var b := events[n - 1].time - events[n - 2].time;
      assert c as real * a + c as real * b == c as real * (a + b);
    }
  }

  /** A count c held from minute 0 to the end of the run averages to exactly c. */
  lemma ConstantInventoryAverage(events: seq<InventoryEvent>, simulationDuration: real, c: int)
    requires |events| > 0 && ConstantCount(events, c)
    requires events[0].time == 0.0 && simulationDuration > 0.0
    ensures AverageInventory(events, simulationDuration) == c as real
  {
    PairSumConstant(events, c);
    var last := events[|events| - 1];
    var cr := c as real;
    assert cr * (last.time - 0.0) + cr * (simulationDuration - last.time) == cr * simulationDuration;
    assert WeightedInventory(events, simulationDuration) == cr * simulationDuration;
  }

  /** Records in time order, starting at or after minute 0 and ending by the end of the run. */
  predicate TimeOrdered(events: seq<InventoryEvent>, simulationDuration: real) {
    && (forall i :: 0 <= i < |events| ==> 0.0 <= events[i].time <= simulationDuration)
    && (forall i, j :: 0 <= i <= j < |events| ==> events[i].time <= events[j].time)
  }

  predicate CountsWithin(events: seq<InventoryEvent>, capacity: int) {
    forall i :: 0 <= i < |events| ==> 0 <= events[i].chargedCount <= capacity
  }

  lemma MulBounds(a: real, b: real, m: real)
    requires 0.0 <= a <= m && b >= 0.0
    ensures 0.0 <= a * b <= m * b
  {
  }

  /** The minutes between the first and the last record. */
  function Span(events: seq<InventoryEvent>): real
    requires |events| > 0
  {
    events[|events| - 1].time - events[0].time
  }

  /** Dropping the last record keeps the log ordered and bounded. */
  lemma PrefixKeepsBounds(events: seq<InventoryEvent>, simulationDuration: real, capacity: int)
    requires |events| >= 2 && TimeOrdered(events, simulationDuration) && CountsWithin(events, capacity)
    ensures TimeOrdered(events[..|events| - 1], simulationDuration)
    ensures CountsWithin(events[..|events| - 1], capacity)
  {
  }

  /**
   * The area of a log is the area without its last record plus the count c
   * of the second-to-last record held for the b minutes up to the last one.
   */
  lemma AreaSplit(events: seq<InventoryEvent>) returns (c: real, b: real)
    requires |events| >= 2
    ensures c == events[|events| - 2].chargedCount as real
    ensures b == events[|events| - 1].time - events[|events| - 2].time
    ensures Span(events[..|events| - 1]) + b == Span(events)
    ensures PairSum(events) == PairSum(events[..|events| - 1]) + c * b
  {
    var n := |events|;
    c := events[n - 2].chargedCount as real;
    b := events[n - 1].time - events[n - 2].time;
    assert events[..n - 1][n - 2] == events[n - 2];
  }

  /** The area under a bounded, ordered log is between 0 and the capacity times its span. */
  lemma {:induction false} PairSumBounds(events: seq<InventoryEvent>, simulationDuration: real, capacity: int)
    requires |events| > 0 && TimeOrdered(events, simulationDuration) && CountsWithin(events, capacity)
    ensures 0.0 <= PairSum(events) <= capacity as real * Span(events)
    decreases |events|
  {
    var n := |events|;
    if n >= 2 {
      var init := events[..n - 1];
      PrefixKeepsBounds(events, simulationDuration, capacity);
      var c, b := AreaSplit(events);
      assert 0.0 <= c <= capacity as real && b >= 0.0;
      PairSumBounds(init, simulationDuration, capacity);
      AreaStep(PairSum(init), PairSum(events), c, b, capacity as real, Span(init), Span(events));
    } else {
      assert Span(events) == 0.0;
      assert capacity as real * Span(events) == 0.0;
    }
  }

  /**
   * One step of the area bound: an area p0 within cap * s0, extended by a
   * count c within [0, cap] held for b >= 0 more minutes, stays within cap * (s0 + b).
   */
  lemma AreaStep(p0: real, p: real, c: real, b: real, cap: real, s0: real, s: real)
    requires 0.0 <= p0 <= cap * s0 && 0.0 <= c <= cap && b >= 0.0 && s0 + b == s
    requires p == p0 + c * b
    ensures 0.0 <= p <= cap * s
  {
    MulBounds(c, b, cap);
    AddUnderCap(p0, c * b, cap, s0, b, s);
  }

  /** Two parts each within the capacity times its span stay within the capacity times the total span. */
  lemma AddUnderCap(p: real, term: real, cap: real, a: real, b: real, total: real)
    requires 0.0 <= p <= cap * a && 0.0 <= term <= cap * b && a + b == total
    ensures 0.0 <= p + term <= cap * total
  {
    Distribute(cap, a, b);
  }

  lemma Distribute(c: real, a: real, b: real)
    ensures c * a + c * b == c * (a + b)
  {
  }

  /**
   * A time-ordered log of counts within [0, capacity] averages to a value
   * within [0, capacity].
   */
  lemma AverageInventoryBounded(events: seq<InventoryEvent>, simulationDuration: real, capacity: int)
    requires TimeOrdered(events, simulationDuration) && CountsWithin(events, capacity) && capacity >= 0
    ensures 0.0 <= AverageInventory(events, simulationDuration) <= capacity as real
  {
    if |events| > 0 && simulationDuration > 0.0 {
      var cap := capacity as real;
      var first := events[0].time;
      PairSumBounds(events, simulationDuration, capacity);
      var c, b := LastHold(events, simulationDuration, capacity);
      var w := WeightedInventory(events, simulationDuration);
      AreaStep(PairSum(events), w, c, b, cap, Span(events), simulationDuration - first);
      MulBounds(cap, first, cap);
      AddUnderCap(w, 0.0, cap, simulationDuration - first, first, simulationDuration);
      DivBound(w, cap, simulationDuration);
    }
  }

  /** The weighted area is the pair area plus the last count c held for the remaining b minutes. */
  lemma LastHold(events: seq<InventoryEvent>, simulationDuration: real, capacity: int) returns (c: real, b: real)
    requires |events| > 0 && TimeOrdered(events, simulationDuration) && CountsWithin(events, capacity)
    ensures 0.0 <= c <= capacity as real && b >= 0.0 && events[0].time >= 0.0
    ensures Span(events) + b == simulationDuration - events[0].time
    ensures WeightedInventory(events, simulationDuration) == PairSum(events) + c * b
  {
    var last := events[|events| - 1];
    c := last.chargedCount as real;
    b := simulationDuration - last.time;
  }

  // ---------------------------------------------------------- station KPIs

  /** _calculate_station_kpis on one result entry. */
  function StationKpisOf(data: StationResult, simulationDuration: real, chargeDuration: real): (k: StationKpis)
    ensures k.stationId == data.stationId && k.tier == data.tier
    ensures k.totalArrivals == data.stats.totalArrivals && k.successfulSwaps == data.stats.successfulSwaps
    ensures k.lostSwaps == data.stats.rejectedSwaps && k.avgWaitTime == data.stats.avgWaitTime
  {
    StationKpis(
      data.stationId, data.tier, data.stats.avgWaitTime, data.stats.rejectedSwaps,
      LostSwapsPct(data.stats.rejectedSwaps, data.stats.totalArrivals),
      data.stats.totalArrivals, data.stats.successfulSwaps,
      ChargerUtilization(data.chargeEvents, simulationDuration, chargeDuration),
      AverageInventory(data.inventoryEvents, simulationDuration))
  }

  /** The KPIs a station entry gets: the station's percentage and utilisation lie in their ranges. */
  lemma StationKpisBounded(data: StationResult, simulationDuration: real, chargeDuration: real)
    requires 0 <= data.stats.rejectedSwaps <= data.stats.totalArrivals && chargeDuration >= 0.0
    ensures 0.0 <= StationKpisOf(data, simulationDuration, chargeDuration).lostSwapsPct <= 100.0
    ensures 0.0 <= StationKpisOf(data, simulationDuration, chargeDuration).chargerUtilization <= 1.0
  {
    LostSwapsPctBounded(data.stats.rejectedSwaps, data.stats.totalArrivals);
  }

  method CalculateStationKpis(data: StationResult, simulationDuration: real, chargeDuration: real)
    returns (k: StationKpis)
    ensures k == StationKpisOf(data, simulationDuration, chargeDuration)
  {
    var pct := LostSwapsPct(data.stats.rejectedSwaps, data.stats.totalArrivals);
    var utilization := ChargerUtilization(data.chargeEvents, simulationDuration, chargeDuration);
    var inventory := CalculateAvgInventory(data.inventoryEvents, simulationDuration);
    k := StationKpis(data.stationId, data.tier, data.stats.avgWaitTime, data.stats.rejectedSwaps, pct,
                     data.stats.totalArrivals, data.stats.successfulSwaps, utilization, inventory);
  }

  // -------------------------------------------------------------- city KPIs

  function TotalArrivals(ks: seq<StationKpis>): int
    decreases |ks|
  {
    if |ks| == 0 then 0 else TotalArrivals(ks[..|ks| - 1]) + ks[|ks| - 1].totalArrivals
  }

  function TotalSwaps(ks: seq<StationKpis>): int
    decreases |ks|
  {
    if |ks| == 0 then 0 else TotalSwaps(ks[..|ks| - 1]) + ks[|ks| - 1].successfulSwaps
  }

  function TotalLost(ks: seq<StationKpis>): int
    decreases |ks|
  {
    if |ks| == 0 then 0 else TotalLost(ks[..|ks| - 1]) + ks[|ks| - 1].lostSwaps
  }

  /** Sum of avg_wait_time * successful_swaps. */
  function TotalWait(ks: seq<StationKpis>): real
    decreases |ks|
  {
    if |ks| == 0 then 0.0
    else TotalWait(ks[..|ks| - 1]) + ks[|ks| - 1].avgWaitTime * ks[|ks| - 1].successfulSwaps as real
  }

  function TotalUtilization(ks: seq<StationKpis>): real
    decreases |ks|
  {
    if |ks| == 0 then 0.0 else TotalUtilization(ks[..|ks| - 1]) + ks[|ks| - 1].chargerUtilization
  }

  function TotalInventory(ks: seq<StationKpis>): real
    decreases |ks|
  {
    if |ks| == 0 then 0.0 else TotalInventory(ks[..|ks| - 1]) + ks[|ks| - 1].avgChargedInventory
  }

  /** 0.5 * wait + 2 * lost percentage + 10 * (1 - utilisation). */
  function CostProxy(avgWaitTime: real, lostSwapsPct: real, chargerUtilization: real): real {
    avgWaitTime * 0.5 + lostSwapsPct * 2.0 + (1.0 - chargerUtilization) * 10.0
  }

  /** _calculate_city_kpis. */
  function CityKpisOf(ks: seq<StationKpis>, durationHours: real): (c: CityKpis)
    ensures |ks| == 0 ==> c == CityKpis(0.0, 0.0, 0.0, 0.0, 0.0, 0.0, 0, 0, 0)
    ensures |ks| > 0 ==>
      && c.totalArrivals == TotalArrivals(ks) && c.totalSwaps == TotalSwaps(ks) && c.totalLost == TotalLost(ks)
      && c.lostSwapsPct == LostSwapsPct(TotalLost(ks), TotalArrivals(ks))
      && (TotalSwaps(ks) > 0 ==> c.avgWaitTime * TotalSwaps(ks) as real == TotalWait(ks))
      && (TotalSwaps(ks) <= 0 ==> c.avgWaitTime == 0.0)
      && c.chargerUtilization * |ks| as real == TotalUtilization(ks)
      && c.idleInventoryPct * |ks| as real == TotalInventory(ks)
      && (durationHours > 0.0 ==> c.throughput * durationHours == TotalSwaps(ks) as real)
      && (durationHours <= 0.0 ==> c.throughput == 0.0)
      && c.costProxy == CostProxy(c.avgWaitTime, c.lostSwapsPct, c.chargerUtilization)
  {
    if |ks| == 0 then CityKpis(0.0, 0.0, 0.0, 0.0, 0.0, 0.0, 0, 0, 0)
    else
      var totalArrivals := TotalArrivals(ks);
      var totalSwaps := TotalSwaps(ks);
      var totalLost := TotalLost(ks);
      var avgWait := if totalSwaps > 0 then TotalWait(ks) / totalSwaps as real else 0.0;
      var lostPct := LostSwapsPct(totalLost, totalArrivals);
      var utilization := TotalUtilization(ks) / |ks| as real;
      var idle := TotalInventory(ks) / |ks| as real;
      var throughput := if durationHours > 0.0 then totalSwaps as real / durationHours else 0.0;
      CityKpis(avgWait, lostPct, utilization, idle, throughput, CostProxy(avgWait, lostPct, utilization),
               totalArrivals, totalSwaps, totalLost)
  }

  /** Station KPIs as a consistent station reports them. */
  predicate WellFormedKpis(k: StationKpis, maxWait: real) {
    && 0 <= k.successfulSwaps && 0 <= k.lostSwaps
    && k.successfulSwaps + k.lostSwaps <= k.totalArrivals
    && 0.0 <= k.avgWaitTime <= maxWait
    && 0.0 <= k.chargerUtilization <= 1.0
  }

  lemma {:induction false} TotalsBounded(ks: seq<StationKpis>, maxWait: real)
    requires forall i :: 0 <= i < |ks| ==> WellFormedKpis(ks[i], maxWait)
    ensures 0 <= TotalSwaps(ks) && 0 <= TotalLost(ks)
    ensures TotalSwaps(ks) + TotalLost(ks) <= TotalArrivals(ks)
    ensures 0.0 <= TotalWait(ks) <= maxWait * TotalSwaps(ks) as real
    ensures 0.0 <= TotalUtilization(ks) <= |ks| as real
    decreases |ks|
  {
    if |ks| > 0 {
      var init := ks[..|ks| - 1];
      var k := ks[|ks| - 1];
      assert forall i :: 0 <= i < |init| ==> init[i] == ks[i];
      TotalsBounded(init, maxWait);
      MulBounds(k.avgWaitTime, k.successfulSwaps as real, maxWait);
      assert maxWait * TotalSwaps(init) as real + maxWait * k.successfulSwaps as real
          == maxWait * TotalSwaps(ks) as real;
    }
  }

  /**
   * Aggregating well-formed station KPIs: losses are a percentage in
   * [0, 100], the swap-weighted average wait stays within the stations'
   * bound, the mean utilisation lies in [0, 1], and the cost proxy is
   * non-negative.
   */
  lemma CityKpisBounded(ks: seq<StationKpis>, durationHours: real, maxWait: real)
    requires forall i :: 0 <= i < |ks| ==> WellFormedKpis(ks[i], maxWait)
    ensures 0.0 <= CityKpisOf(ks, durationHours).lostSwapsPct <= 100.0
    ensures 0.0 <= CityKpisOf(ks, durationHours).avgWaitTime
    ensures |ks| > 0 ==> CityKpisOf(ks, durationHours).avgWaitTime <= maxWait
    ensures 0.0 <= CityKpisOf(ks, durationHours).chargerUtilization <= 1.0
    ensures CityKpisOf(ks, durationHours).totalSwaps + CityKpisOf(ks, durationHours).totalLost
         <= CityKpisOf(ks, durationHours).totalArrivals
    ensures 0.0 <= CityKpisOf(ks, durationHours).costProxy
  {
    if |ks| > 0 {
      TotalsBounded(ks, maxWait);
      LostSwapsPctBounded(TotalLost(ks), TotalArrivals(ks));
      if TotalSwaps(ks) > 0 {
        DivBound(TotalWait(ks), maxWait, TotalSwaps(ks) as real);
      }
      DivBound(TotalUtilization(ks), 1.0, |ks| as real);
    }
  }

  /** The charge_duration KPICalculator.calculate assumes when its caller gives none (minutes). */
  const DefaultChargeDuration: real := 60.0

  /**
   * KPICalculator.calculate: one KPI entry per result station, in order, then
   * the city aggregate. A caller that relies on the source's default passes
   * DefaultChargeDuration.
   */
  method Calculate(results: ResultBundle, chargeDuration: real) returns (report: KpiReport)
    ensures |report.stations| == |results.stations|
    ensures forall i :: 0 <= i < |results.stations| ==>
      report.stations[i] == StationKpisOf(results.stations[i], results.simulationDuration, chargeDuration)
    ensures report.city == CityKpisOf(report.stations, results.simulationDuration / 60.0)
  {
    var durationHours := results.simulationDuration / 60.0;
    var list: seq<StationKpis> := [];
    for i := 0 to |results.stations|
      invariant |list| == i
      invariant forall j :: 0 <= j < i ==>
        list[j] == StationKpisOf(results.stations[j], results.simulationDuration, chargeDuration)
    {
      var k := CalculateStationKpis(results.stations[i], results.simulationDuration, chargeDuration);
      list := list + [k];
    }
    report := KpiReport(CityKpisOf(list, durationHours), list);
  }
}
