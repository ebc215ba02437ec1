/**
 * A battery-swap station (simulation/station.py).
 *
 * The station owns a closed pool of `chargers` batteries. Charged batteries
 * sit in a bounded store; a customer takes one, hands in a depleted one at
 * the end of the swap, and every depleted battery runs one charge cycle that
 * puts it back into the store.
 *
 * The source is a set of SimPy processes. Here every resumption of a process
 * is one atomic method of class `Station`, and the simulation clock is the
 * `now` argument of each. Each method is proved against a pure transition
 * function on `StationState`, and the invariant `Inv` (battery conservation,
 * outcome bookkeeping, consistency of the three event logs) is proved to be
 * established by the constructor and preserved by every transition.
 *
 * The model keeps, as ghost state, what SimPy holds in its queues and
 * suspended generators: the customers still waiting for a battery, the swaps
 * in progress, the charge cycles spawned but not yet started, the charge
 * cycles that have put their battery back but not yet logged the inventory,
 * and the wait of every swap started so far.
 */
module Stations {

  // ------------------------------------------------------------ event records

  datatype SwapEventType = Arrival | SwapStart | SwapEnd | Rejected

  datatype SwapEvent = SwapEvent(
    time: real,
    stationId: string,
    eventType: SwapEventType,
    customerId: string,
    waitTime: real)

  datatype ChargeEventType = ChargeStart | ChargeEnd

  datatype ChargeEvent = ChargeEvent(time: real, stationId: string, eventType: ChargeEventType)

  datatype InventoryEvent = InventoryEvent(time: real, stationId: string, chargedCount: int, depletedCount: int)

  /** The dictionary get_stats_summary returns (unrounded). */
  datatype StatsSummary = StatsSummary(
    stationId: string,
    tier: string,
    totalArrivals: int,
    successfulSwaps: int,
    rejectedSwaps: int,
    avgWaitTime: real,
    rejectionRate: real,
    inventoryCapacity: int)

  const DefaultMaxWaitTime: real := 15.0

  /** Number of swap events of one type in a log. */
  function CountSwaps(log: seq<SwapEvent>, t: SwapEventType): nat
    decreases |log|
  {
    if |log| == 0 then 0
    else CountSwaps(log[..|log| - 1], t) + (if log[|log| - 1].eventType == t then 1 else 0)
  }

  /** Number of charge events of one type in a log. */
  function CountCharges(log: seq<ChargeEvent>, t: ChargeEventType): nat
    decreases |log|
  {
    if |log| == 0 then 0
    else CountCharges(log[..|log| - 1], t) + (if log[|log| - 1].eventType == t then 1 else 0)
  }

  lemma CountSwapsAppend(log: seq<SwapEvent>, e: SwapEvent, t: SwapEventType)
    ensures CountSwaps(log + [e], t) == CountSwaps(log, t) + (if e.eventType == t then 1 else 0)
  {
    assert (log + [e])[..|log|] == log;
  }

  lemma CountChargesAppend(log: seq<ChargeEvent>, e: ChargeEvent, t: ChargeEventType)
    ensures CountCharges(log + [e], t) == CountCharges(log, t) + (if e.eventType == t then 1 else 0)
  {
    assert (log + [e])[..|log|] == log;
  }

  /** The sum of a sequence of reals. */
  function Sum(xs: seq<real>): real
    decreases |xs|
  {
    if |xs| == 0 then 0.0 else Sum(xs[..|xs| - 1]) + xs[|xs| - 1]
  }

  lemma SumAppend(xs: seq<real>, x: real)
    ensures Sum(xs + [x]) == Sum(xs) + x
  {
    assert (xs + [x])[..|xs|] == xs;
  }

  /** A sum of n terms, each in [0, m], lies in [0, m * n]. */
  lemma {:induction false} SumBounds(xs: seq<real>, m: real)
    requires forall i :: 0 <= i < |xs| ==> 0.0 <= xs[i] <= m
    ensures 0.0 <= Sum(xs) <= m * |xs| as real
    decreases |xs|
  {
    if |xs| > 0 {
      var init := xs[..|xs| - 1];
      assert forall i :: 0 <= i < |init| ==> init[i] == xs[i];
      SumBounds(init, m);
      assert m * |xs| as real == m * |init| as real + m;
    }
  }

  // ------------------------------------------------------------ station state

  /** The fixed parameters the invariant depends on. */
  datatype StationParams = StationParams(stationId: string, capacity: int, maxWaitTime: real)

  /**
   * Everything a Station holds that changes. The first group are the source's
   * own attributes (`level` is `charged_store.level`); the second group is
   * what the scheduler holds.
   */
  datatype StationState = StationState(
    level: int,
    depletedCount: int,
    chargingCount: int,
    totalArrivals: int,
    successfulSwaps: int,
    rejectedSwaps: int,
    totalWaitTime: real,
    swapEvents: seq<SwapEvent>,
    chargeEvents: seq<ChargeEvent>,
    inventoryEvents: seq<InventoryEvent>,
    // held by the scheduler
    pendingRequests: nat,       // customers whose battery request is still queued
    swapsInProgress: nat,       // customers holding a battery, swap not yet ended
    queuedCharges: nat,         // charge cycles spawned, not yet started
    unloggedPuts: nat,          // batteries put back whose inventory record is still to come
    waits: seq<real>)           // the wait of every swap started so far, in order

  /** Battery conservation: every battery of the pool is charged, depleted, or in a customer's swap. */
  predicate PoolOk(p: StationParams, s: StationState) {
    && p.capacity > 0 && p.maxWaitTime >= 0.0
    && 0 <= s.level <= p.capacity
    && s.level + s.depletedCount + s.swapsInProgress == p.capacity
    && 0 <= s.chargingCount
    && s.queuedCharges + s.chargingCount == s.depletedCount
  }

  /** Every arrival is still waiting, swapping, or has ended in exactly one outcome. */
  predicate OutcomesOk(s: StationState) {
    && 0 <= s.successfulSwaps && 0 <= s.rejectedSwaps
    && s.successfulSwaps + s.rejectedSwaps + s.pendingRequests + s.swapsInProgress == s.totalArrivals
  }

  /** Every wait lies in [0, max_wait_time], and the total wait is the sum of the waits of the swaps started so far. */
  predicate WaitsOk(p: StationParams, s: StationState) {
    && (forall i :: 0 <= i < |s.waits| ==> 0.0 <= s.waits[i] <= p.maxWaitTime)
    && |s.waits| == s.successfulSwaps + s.swapsInProgress
    && s.totalWaitTime == Sum(s.waits)
  }

  /** The event logs agree with the counters. */
  predicate LogCountsOk(s: StationState) {
    && CountSwaps(s.swapEvents, Arrival) == s.totalArrivals
    && CountSwaps(s.swapEvents, SwapStart) == s.successfulSwaps + s.swapsInProgress
    && CountSwaps(s.swapEvents, SwapEnd) == s.successfulSwaps
    && CountSwaps(s.swapEvents, Rejected) == s.rejectedSwaps
    && CountCharges(s.chargeEvents, ChargeStart) == CountCharges(s.chargeEvents, ChargeEnd) + s.chargingCount
    && |s.inventoryEvents| + s.unloggedPuts == 1 + s.successfulSwaps + CountCharges(s.chargeEvents, ChargeEnd)
  }

  predicate SwapLogOk(p: StationParams, log: seq<SwapEvent>) {
    forall i :: 0 <= i < |log| ==> log[i].stationId == p.stationId && 0.0 <= log[i].waitTime <= p.maxWaitTime
  }

  predicate ChargeLogOk(p: StationParams, log: seq<ChargeEvent>) {
    forall i :: 0 <= i < |log| ==> log[i].stationId == p.stationId
  }

  predicate InventoryLogOk(p: StationParams, log: seq<InventoryEvent>) {
    forall i :: 0 <= i < |log| ==>
      && log[i].stationId == p.stationId
      && 0 <= log[i].chargedCount && 0 <= log[i].depletedCount
      && log[i].chargedCount + log[i].depletedCount <= p.capacity
  }

  /** Every record names this station, every logged wait is in range, every inventory record fits the pool. */
  predicate LogsOk(p: StationParams, s: StationState) {
    SwapLogOk(p, s.swapEvents) && ChargeLogOk(p, s.chargeEvents) && InventoryLogOk(p, s.inventoryEvents)
  }

  /** The station invariant. */
  predicate Inv(p: StationParams, s: StationState) {
    PoolOk(p, s) && OutcomesOk(s) && WaitsOk(p, s) && LogCountsOk(s) && LogsOk(p, s)
  }

  function Min(a: int, b: int): int {
    if a <= b then a else b
  }

  // ------------------------------------------------------------- transitions

  /**
   * Station.__init__: the store starts at min(initial_charged, chargers), the
   * rest of the pool is depleted, one charge cycle is spawned per depleted
   * battery, and one inventory record is written.
   */
  function InitState(p: StationParams, initialCharged: int, now: real): (r: StationState)
    requires p.capacity > 0 && p.maxWaitTime >= 0.0 && initialCharged >= 0
    ensures Inv(p, r)
    ensures r.level == Min(initialCharged, p.capacity)
    ensures r.level + r.depletedCount == p.capacity
    ensures r.queuedCharges == r.depletedCount && r.chargingCount == 0
    ensures r.chargeEvents == [] && r.swapEvents == []
    ensures r.inventoryEvents == [InventoryEvent(now, p.stationId, r.level, r.depletedCount)]
    ensures r.totalArrivals == 0 && r.successfulSwaps == 0 && r.rejectedSwaps == 0 && r.totalWaitTime == 0.0
  {
    var level := Min(initialCharged, p.capacity);
    var depleted := p.capacity - level;
    StationState(level, depleted, 0, 0, 0, 0, 0.0, [], [],
                 [InventoryEvent(now, p.stationId, level, depleted)],
                 0, 0, depleted, 0, [])
  }

  /** process_swap up to its first yield: count the arrival, log it, ask the store for a battery. */
  function ArriveStep(p: StationParams, s: StationState, now: real, customerId: string): (r: StationState)
    ensures r.totalArrivals == s.totalArrivals + 1
    ensures CountSwaps(r.swapEvents, Arrival) == CountSwaps(s.swapEvents, Arrival) + 1
    ensures forall t :: t != Arrival ==> CountSwaps(r.swapEvents, t) == CountSwaps(s.swapEvents, t)
    ensures r.swapEvents == s.swapEvents + [SwapEvent(now, p.stationId, Arrival, customerId, 0.0)]
    ensures r.level == s.level && r.successfulSwaps == s.successfulSwaps && r.rejectedSwaps == s.rejectedSwaps
  {
    var e := SwapEvent(now, p.stationId, Arrival, customerId, 0.0);
    forall t ensures CountSwaps(s.swapEvents + [e], t) == CountSwaps(s.swapEvents, t) + (if t == Arrival then 1 else 0) {
      CountSwapsAppend(s.swapEvents, e, t);
    }
    s.(totalArrivals := s.totalArrivals + 1,
       swapEvents := s.swapEvents + [e],
       pendingRequests := s.pendingRequests + 1)
  }

  /**
   * The resumption after the battery request won the race against the
   * patience timer: one battery leaves the store, and the wait (acquire time
   * minus request time) is added to the total and logged with swap_start.
   */
  function AcquireStep(p: StationParams, s: StationState, now: real, requestTime: real, customerId: string): (r: StationState)
    requires s.pendingRequests > 0 && s.level > 0
    ensures r.level == s.level - 1
    ensures r.totalWaitTime == s.totalWaitTime + (now - requestTime)
    ensures CountSwaps(r.swapEvents, SwapStart) == CountSwaps(s.swapEvents, SwapStart) + 1
    ensures forall t :: t != SwapStart ==> CountSwaps(r.swapEvents, t) == CountSwaps(s.swapEvents, t)
    ensures r.swapEvents == s.swapEvents + [SwapEvent(now, p.stationId, SwapStart, customerId, now - requestTime)]
    ensures r.successfulSwaps == s.successfulSwaps && r.rejectedSwaps == s.rejectedSwaps
  {
    var wait := now - requestTime;
    var e := SwapEvent(now, p.stationId, SwapStart, customerId, wait);
    forall t ensures CountSwaps(s.swapEvents + [e], t) == CountSwaps(s.swapEvents, t) + (if t == SwapStart then 1 else 0) {
      CountSwapsAppend(s.swapEvents, e, t);
    }
    SumAppend(s.waits, wait);
    s.(level := s.level - 1,
       totalWaitTime := s.totalWaitTime + wait,
       swapEvents := s.swapEvents + [e],
       pendingRequests := s.pendingRequests - 1,
       swapsInProgress := s.swapsInProgress + 1,
       waits := s.waits + [wait])
  }

  /**
   * The resumption after the swap duration: the swap counts as successful,
   * the customer's depleted battery joins the depleted count, swap_end is
   * logged with the same wait, the inventory is logged, and a charge cycle
   * is spawned for the depleted battery.
   */
  function SwapEndStep(p: StationParams, s: StationState, now: real, waitTime: real, customerId: string): (r: StationState)
    requires s.swapsInProgress > 0
    ensures r.successfulSwaps == s.successfulSwaps + 1 && r.rejectedSwaps == s.rejectedSwaps
    ensures r.depletedCount == s.depletedCount + 1 && r.level == s.level
    ensures CountSwaps(r.swapEvents, SwapEnd) == CountSwaps(s.swapEvents, SwapEnd) + 1
    ensures forall t :: t != SwapEnd ==> CountSwaps(r.swapEvents, t) == CountSwaps(s.swapEvents, t)
    ensures r.swapEvents == s.swapEvents + [SwapEvent(now, p.stationId, SwapEnd, customerId, waitTime)]
    ensures r.inventoryEvents == s.inventoryEvents + [InventoryEvent(now, p.stationId, s.level, s.depletedCount + 1)]
    ensures r.queuedCharges == s.queuedCharges + 1
  {
    var e := SwapEvent(now, p.stationId, SwapEnd, customerId, waitTime);
    forall t ensures CountSwaps(s.swapEvents + [e], t) == CountSwaps(s.swapEvents, t) + (if t == SwapEnd then 1 else 0) {
      CountSwapsAppend(s.swapEvents, e, t);
    }
    s.(successfulSwaps := s.successfulSwaps + 1,
       depletedCount := s.depletedCount + 1,
       swapEvents := s.swapEvents + [e],
       inventoryEvents := s.inventoryEvents + [InventoryEvent(now, p.stationId, s.level, s.depletedCount + 1)],
       swapsInProgress := s.swapsInProgress - 1,
       queuedCharges := s.queuedCharges + 1)
  }

  /**
   * The resumption after the patience timer won the race: the pending
   * request is cancelled (no battery leaves the store), the swap counts as
   * rejected, and the rejection is logged with wait max_wait_time.
   */
  function RejectStep(p: StationParams, s: StationState, now: real, customerId: string): (r: StationState)
    requires s.pendingRequests > 0
    ensures r.rejectedSwaps == s.rejectedSwaps + 1 && r.successfulSwaps == s.successfulSwaps
    ensures r.level == s.level && r.totalWaitTime == s.totalWaitTime
    ensures CountSwaps(r.swapEvents, Rejected) == CountSwaps(s.swapEvents, Rejected) + 1
    ensures forall t :: t != Rejected ==> CountSwaps(r.swapEvents, t) == CountSwaps(s.swapEvents, t)
    ensures r.swapEvents == s.swapEvents + [SwapEvent(now, p.stationId, Rejected, customerId, p.maxWaitTime)]
  {
    var e := SwapEvent(now, p.stationId, Rejected, customerId, p.maxWaitTime);
    forall t ensures CountSwaps(s.swapEvents + [e], t) == CountSwaps(s.swapEvents, t) + (if t == Rejected then 1 else 0) {
      CountSwapsAppend(s.swapEvents, e, t);
    }
    s.(rejectedSwaps := s.rejectedSwaps + 1,
       swapEvents := s.swapEvents + [e],
       pendingRequests := s.pendingRequests - 1)
  }

  /** _charge_cycle up to its first yield: log charge_start, one more battery charging. */
  function ChargeStartStep(p: StationParams, s: StationState, now: real): (r: StationState)
    requires s.queuedCharges > 0
    ensures r.chargingCount == s.chargingCount + 1 && r.depletedCount == s.depletedCount
    ensures CountCharges(r.chargeEvents, ChargeStart) == CountCharges(s.chargeEvents, ChargeStart) + 1
    ensures CountCharges(r.chargeEvents, ChargeEnd) == CountCharges(s.chargeEvents, ChargeEnd)
    ensures r.chargeEvents == s.chargeEvents + [ChargeEvent(now, p.stationId, ChargeStart)]
  {
    var e := ChargeEvent(now, p.stationId, ChargeStart);
    CountChargesAppend(s.chargeEvents, e, ChargeStart);
    CountChargesAppend(s.chargeEvents, e, ChargeEnd);
    s.(chargingCount := s.chargingCount + 1,
       chargeEvents := s.chargeEvents + [e],
       queuedCharges := s.queuedCharges - 1)
  }

  /**
   * The resumption after the charge duration: log charge_end, the battery
   * stops charging and stops being depleted, and is put back into the store
   * (the put is granted at once, see PutNeverBlocks).
   */
  function ChargeEndStep(p: StationParams, s: StationState, now: real): (r: StationState)
    requires s.chargingCount > 0
    ensures r.chargingCount == s.chargingCount - 1 && r.depletedCount == s.depletedCount - 1
    ensures r.level == s.level + 1
    ensures CountCharges(r.chargeEvents, ChargeEnd) == CountCharges(s.chargeEvents, ChargeEnd) + 1
    ensures CountCharges(r.chargeEvents, ChargeStart) == CountCharges(s.chargeEvents, ChargeStart)
    ensures r.chargeEvents == s.chargeEvents + [ChargeEvent(now, p.stationId, ChargeEnd)]
  {
    var e := ChargeEvent(now, p.stationId, ChargeEnd);
    CountChargesAppend(s.chargeEvents, e, ChargeStart);
    CountChargesAppend(s.chargeEvents, e, ChargeEnd);
    s.(chargingCount := s.chargingCount - 1,
       depletedCount := s.depletedCount - 1,
       level := s.level + 1,
       chargeEvents := s.chargeEvents + [e],
       unloggedPuts := s.unloggedPuts + 1)
  }

  /** The resumption after the put: _log_inventory records the store level and the depleted count. */
  function PutLoggedStep(p: StationParams, s: StationState, now: real): (r: StationState)
    requires s.unloggedPuts > 0
    ensures r.inventoryEvents == s.inventoryEvents + [InventoryEvent(now, p.stationId, s.level, s.depletedCount)]
    ensures r.level == s.level && r.depletedCount == s.depletedCount
  {
    s.(inventoryEvents := s.inventoryEvents + [InventoryEvent(now, p.stationId, s.level, s.depletedCount)],
       unloggedPuts := s.unloggedPuts - 1)
  }

  // ------------------------------------------------- the invariant is kept

  lemma ArrivePreservesInv(p: StationParams, s: StationState, now: real, customerId: string)
    requires Inv(p, s)
    ensures Inv(p, ArriveStep(p, s, now, customerId))
  {
  }

  /** A battery granted no later than max_wait_time after the request keeps the invariant. */
  lemma AcquirePreservesInv(p: StationParams, s: StationState, now: real, requestTime: real, customerId: string)
    requires Inv(p, s) && s.pendingRequests > 0 && s.level > 0
    requires 0.0 <= now - requestTime <= p.maxWaitTime
    ensures Inv(p, AcquireStep(p, s, now, requestTime, customerId))
  {
  }

  lemma SwapEndPreservesInv(p: StationParams, s: StationState, now: real, waitTime: real, customerId: string)
    requires Inv(p, s) && s.swapsInProgress > 0 && 0.0 <= waitTime <= p.maxWaitTime
    ensures Inv(p, SwapEndStep(p, s, now, waitTime, customerId))
  {
  }

  lemma RejectPreservesInv(p: StationParams, s: StationState, now: real, customerId: string)
    requires Inv(p, s) && s.pendingRequests > 0
    ensures Inv(p, RejectStep(p, s, now, customerId))
  {
  }

  lemma ChargeStartPreservesInv(p: StationParams, s: StationState, now: real)
    requires Inv(p, s) && s.queuedCharges > 0
    ensures Inv(p, ChargeStartStep(p, s, now))
  {
  }

  lemma ChargeEndPreservesInv(p: StationParams, s: StationState, now: real)
    requires Inv(p, s) && s.chargingCount > 0
    ensures Inv(p, ChargeEndStep(p, s, now))
  {
  }

  lemma PutLoggedPreservesInv(p: StationParams, s: StationState, now: real)
    requires Inv(p, s) && s.unloggedPuts > 0
    ensures Inv(p, PutLoggedStep(p, s, now))
  {
  }

  // -------------------------------------------------- consequences of Inv

  /**
   * While a battery is charging the store has room for it, so the put at
   * the end of a charge cycle never waits; and no more batteries are
   * charging than are depleted.
   */
  lemma PutNeverBlocks(p: StationParams, s: StationState)
    requires Inv(p, s) && s.chargingCount > 0
    ensures s.level < p.capacity
    ensures s.chargingCount <= s.depletedCount
  {
  }

  /** Successes plus rejections never exceed arrivals; the rest are still waiting or swapping. */
  lemma OutcomesBounded(p: StationParams, s: StationState)
    requires Inv(p, s)
    ensures s.successfulSwaps + s.rejectedSwaps <= s.totalArrivals
    ensures s.totalArrivals - s.successfulSwaps - s.rejectedSwaps == s.pendingRequests + s.swapsInProgress
  {
  }

  /** Every inventory record shows no more batteries than the pool holds. */
  lemma InventoryRecordsBounded(p: StationParams, s: StationState, i: int)
    requires Inv(p, s) && 0 <= i < |s.inventoryEvents|
    ensures 0 <= s.inventoryEvents[i].chargedCount
    ensures s.inventoryEvents[i].chargedCount + s.inventoryEvents[i].depletedCount <= p.capacity
  {
  }

  // ------------------------------------------------------------ statistics

  /** avg_wait: total wait over successful swaps, 0 when there were none. */
  function AverageWait(totalWaitTime: real, successfulSwaps: int): (avg: real)
    ensures successfulSwaps > 0 ==> avg * successfulSwaps as real == totalWaitTime
    ensures successfulSwaps <= 0 ==> avg == 0.0
  {
    if successfulSwaps > 0 then totalWaitTime / successfulSwaps as real else 0.0
  }

  /** rejection_rate: rejected over arrivals, 0 when there were none. */
  function RejectionRate(rejectedSwaps: int, totalArrivals: int): (rate: real)
    ensures totalArrivals > 0 ==> rate * totalArrivals as real == rejectedSwaps as real
    ensures totalArrivals <= 0 ==> rate == 0.0
  {
    if totalArrivals > 0 then rejectedSwaps as real / totalArrivals as real else 0.0
  }

  function StatsOf(p: StationParams, tier: string, s: StationState): StatsSummary {
    StatsSummary(p.stationId, tier, s.totalArrivals, s.successfulSwaps, s.rejectedSwaps,
                 AverageWait(s.totalWaitTime, s.successfulSwaps),
                 RejectionRate(s.rejectedSwaps, s.totalArrivals),
                 p.capacity)
  }

  lemma DivBound(x: real, y: real, n: real)
    requires n > 0.0 && 0.0 <= x <= y * n
    ensures 0.0 <= x / n <= y
  {
  }

  /**
   * The summary of a station in any reachable state: a rejection rate in
   * [0, 1], a non-negative average wait, and, once no swap is in progress,
   * an average wait of at most max_wait_time.
   */
  lemma StatsBounds(p: StationParams, tier: string, s: StationState)
    requires Inv(p, s)
    ensures 0.0 <= StatsOf(p, tier, s).rejectionRate <= 1.0
    ensures 0.0 <= StatsOf(p, tier, s).avgWaitTime
    ensures s.swapsInProgress == 0 ==> StatsOf(p, tier, s).avgWaitTime <= p.maxWaitTime
    ensures StatsOf(p, tier, s).successfulSwaps + StatsOf(p, tier, s).rejectedSwaps <= StatsOf(p, tier, s).totalArrivals
  {
    SumBounds(s.waits, p.maxWaitTime);
    if s.totalArrivals > 0 {
      DivBound(s.rejectedSwaps as real, 1.0, s.totalArrivals as real);
    }
    if s.successfulSwaps > 0 {
      var n := s.successfulSwaps as real;
      if s.swapsInProgress == 0 {
        DivBound(s.totalWaitTime, p.maxWaitTime, n);
      } else {
        assert 0.0 <= s.totalWaitTime / n;
      }
    }
  }

  // --------------------------------------------------------------- the class

  class Station {
    const stationId: string
    const tier: string
    const inventoryCapacity: int      // == chargers: the pool size
    const swapDuration: real
    const chargeDuration: real
    const replenishmentThreshold: real
    const replenishmentAmount: int
    const replenishmentDelay: real
    const maxWaitTime: real

    var level: int                    // charged_store.level
    var depletedCount: int
    var chargingCount: int
    var totalArrivals: int
    var successfulSwaps: int
    var rejectedSwaps: int
    var totalWaitTime: real
    var swapEvents: seq<SwapEvent>
    var chargeEvents: seq<ChargeEvent>
    var inventoryEvents: seq<InventoryEvent>

    ghost var pendingRequests: nat
    ghost var swapsInProgress: nat
    ghost var queuedCharges: nat
    ghost var unloggedPuts: nat
    ghost var waits: seq<real>

    function Params(): StationParams {
      StationParams(stationId, inventoryCapacity, maxWaitTime)
    }

    ghost function State(): StationState
      reads this
    {
      StationState(level, depletedCount, chargingCount, totalArrivals, successfulSwaps, rejectedSwaps,
                   totalWaitTime, swapEvents, chargeEvents, inventoryEvents,
                   pendingRequests, swapsInProgress, queuedCharges, unloggedPuts, waits)
    }

    ghost predicate Valid()
      reads this
    {
      Inv(Params(), State())
    }

    /**
     * Station.__init__ at simulation time `now`. The inventory_capacity
     * argument is accepted and ignored: the store's capacity is the charger
     * count. SimPy refuses a store of capacity 0, a negative initial level
     * and a negative timeout, hence the requires.
     */
    constructor (stationId: string, tier: string, chargers: int, inventoryCapacity: int, initialCharged: int,
                 swapDuration: real, chargeDuration: real, replenishmentThreshold: real,
                 replenishmentAmount: int, replenishmentDelay: real, maxWaitTime: real, now: real)
      requires chargers > 0 && initialCharged >= 0 && maxWaitTime >= 0.0
      ensures Valid()
      ensures this.stationId == stationId && this.tier == tier && this.inventoryCapacity == chargers
      ensures this.swapDuration == swapDuration && this.chargeDuration == chargeDuration
      ensures this.replenishmentThreshold == replenishmentThreshold
      ensures this.replenishmentAmount == replenishmentAmount && this.replenishmentDelay == replenishmentDelay
      ensures this.maxWaitTime == maxWaitTime
      ensures State() == InitState(Params(), initialCharged, now)
    {
      this.stationId := stationId;
      this.tier := tier;
      this.inventoryCapacity := chargers;
      this.swapDuration := swapDuration;
      this.chargeDuration := chargeDuration;
      this.replenishmentThreshold := replenishmentThreshold;
      this.replenishmentAmount := replenishmentAmount;
      this.replenishmentDelay := replenishmentDelay;
      this.maxWaitTime := maxWaitTime;
      var initialLevel := Min(initialCharged, chargers);
      level := initialLevel;
      depletedCount := chargers - initialLevel;
      chargingCount := 0;
      totalArrivals := 0;
      successfulSwaps := 0;
      rejectedSwaps := 0;
      totalWaitTime := 0.0;
      swapEvents := [];
      chargeEvents := [];
      inventoryEvents := [InventoryEvent(now, stationId, initialLevel, chargers - initialLevel)];
      pendingRequests := 0;
      swapsInProgress := 0;
      unloggedPuts := 0;
      waits := [];
      // one charge cycle spawned per initially depleted battery
      // (fields cannot be read before `new;`, so the count is kept locally)
      var spawned := 0;
      while spawned < chargers - initialLevel
        invariant 0 <= spawned <= chargers - initialLevel
      {
        spawned := spawned + 1;
      }
      queuedCharges := spawned;
    }

    /** process_swap, first resumption: the arrival at time `now`. */
    method Arrive(now: real, customerId: string)
      requires Valid()
      modifies this
      ensures Valid()
      ensures State() == ArriveStep(Params(), old(State()), now, customerId)
    {
      ghost var next := ArriveStep(Params(), State(), now, customerId);
      ArrivePreservesInv(Params(), State(), now, customerId);
      totalArrivals := totalArrivals + 1;
      swapEvents := swapEvents + [SwapEvent(now, stationId, Arrival, customerId, 0.0)];
      pendingRequests := pendingRequests + 1;
      assert State() == next;
    }

    /**
     * process_swap, resumed because the battery request (made at
     * `requestTime`, the process's swap_req_time) was granted no later than
     * max_wait_time after it was made. Returns the wait.
     */
    method Acquire(now: real, requestTime: real, customerId: string) returns (waitTime: real)
      requires Valid() && pendingRequests > 0 && level > 0
      requires 0.0 <= now - requestTime <= maxWaitTime
      modifies this
      ensures Valid()
      ensures State() == AcquireStep(Params(), old(State()), now, requestTime, customerId)
      ensures waitTime == now - requestTime
    {
      ghost var next := AcquireStep(Params(), State(), now, requestTime, customerId);
      AcquirePreservesInv(Params(), State(), now, requestTime, customerId);
      waitTime := now - requestTime;
      level := level - 1;
      totalWaitTime := totalWaitTime + waitTime;
      swapEvents := swapEvents + [SwapEvent(now, stationId, SwapStart, customerId, waitTime)];
      pendingRequests := pendingRequests - 1;
      swapsInProgress := swapsInProgress + 1;
      waits := waits + [waitTime];
      assert State() == next;
    }

    /** process_swap, resumed after the swap duration; `waitTime` is the wait Acquire returned. */
    method SwapEnd(now: real, waitTime: real, customerId: string)
      requires Valid() && swapsInProgress > 0 && 0.0 <= waitTime <= maxWaitTime
      modifies this
      ensures Valid()
      ensures State() == SwapEndStep(Params(), old(State()), now, waitTime, customerId)
    {
      ghost var next := SwapEndStep(Params(), State(), now, waitTime, customerId);
      SwapEndPreservesInv(Params(), State(), now, waitTime, customerId);
      successfulSwaps := successfulSwaps + 1;
      depletedCount := depletedCount + 1;
      swapEvents := swapEvents + [SwapEvent(now, stationId, SwapEventType.SwapEnd, customerId, waitTime)];
      swapsInProgress := swapsInProgress - 1;
      LogInventory(now);
      // env.process(self._charge_cycle())
      queuedCharges := queuedCharges + 1;
      assert State() == next;
    }

    /** process_swap, resumed because the patience timer fired before a battery was granted. */
    method RejectOnTimeout(now: real, customerId: string)
      requires Valid() && pendingRequests > 0
      modifies this
      ensures Valid()
      ensures State() == RejectStep(Params(), old(State()), now, customerId)
    {
      ghost var next := RejectStep(Params(), State(), now, customerId);
      RejectPreservesInv(Params(), State(), now, customerId);
      // battery_request.cancel(): the request leaves the store's queue
      pendingRequests := pendingRequests - 1;
      rejectedSwaps := rejectedSwaps + 1;
      swapEvents := swapEvents + [SwapEvent(now, stationId, Rejected, customerId, maxWaitTime)];
      assert State() == next;
    }

    /** _charge_cycle, first resumption. */
    method ChargeStart(now: real)
      requires Valid() && queuedCharges > 0
      modifies this
      ensures Valid()
      ensures State() == ChargeStartStep(Params(), old(State()), now)
    {
      ghost var next := ChargeStartStep(Params(), State(), now);
      ChargeStartPreservesInv(Params(), State(), now);
      chargeEvents := chargeEvents + [ChargeEvent(now, stationId, ChargeEventType.ChargeStart)];
      chargingCount := chargingCount + 1;
      queuedCharges := queuedCharges - 1;
      assert State() == next;
    }

    /** _charge_cycle, resumed after the charge duration; the put into the store is granted at once. */
    method ChargeEnd(now: real)
      requires Valid() && chargingCount > 0
      modifies this
      ensures Valid()
      ensures State() == ChargeEndStep(Params(), old(State()), now)
    {
      ghost var next := ChargeEndStep(Params(), State(), now);
      ChargeEndPreservesInv(Params(), State(), now);
      PutNeverBlocks(Params(), State());
      chargeEvents := chargeEvents + [ChargeEvent(now, stationId, ChargeEventType.ChargeEnd)];
      chargingCount := chargingCount - 1;
      depletedCount := depletedCount - 1;
      level := level + 1;
      unloggedPuts := unloggedPuts + 1;
      assert State() == next;
    }

    /** _charge_cycle, resumed after the put: log the inventory. */
    method ChargeLogged(now: real)
      requires Valid() && unloggedPuts > 0
      modifies this
      ensures Valid()
      ensures State() == PutLoggedStep(Params(), old(State()), now)
    {
      ghost var next := PutLoggedStep(Params(), State(), now);
      PutLoggedPreservesInv(Params(), State(), now);
      LogInventory(now);
      unloggedPuts := unloggedPuts - 1;
      assert State() == next;
    }

    /** _log_inventory: append the store level and the depleted count at time `now`; nothing else changes. */
    method LogInventory(now: real)
      modifies this
      ensures inventoryEvents == old(inventoryEvents) + [InventoryEvent(now, stationId, level, depletedCount)]
      ensures level == old(level) && depletedCount == old(depletedCount)
      ensures chargingCount == old(chargingCount) && totalArrivals == old(totalArrivals)
      ensures successfulSwaps == old(successfulSwaps) && rejectedSwaps == old(rejectedSwaps)
      ensures totalWaitTime == old(totalWaitTime)
      ensures swapEvents == old(swapEvents) && chargeEvents == old(chargeEvents)
      ensures pendingRequests == old(pendingRequests) && swapsInProgress == old(swapsInProgress)
      ensures queuedCharges == old(queuedCharges) && unloggedPuts == old(unloggedPuts) && waits == old(waits)
    {
      inventoryEvents := inventoryEvents + [InventoryEvent(now, stationId, level, depletedCount)];
    }

    /** get_stats_summary (unrounded). */
    function GetStatsSummary(): (r: StatsSummary)
      reads this
      ensures r.successfulSwaps > 0 ==> r.avgWaitTime * r.successfulSwaps as real == totalWaitTime
      ensures r.successfulSwaps == 0 ==> r.avgWaitTime == 0.0
      ensures r.totalArrivals > 0 ==> r.rejectionRate * r.totalArrivals as real == rejectedSwaps as real
      ensures r.totalArrivals == 0 ==> r.rejectionRate == 0.0
      ensures r.stationId == stationId && r.tier == tier && r.inventoryCapacity == inventoryCapacity
      ensures r.totalArrivals == totalArrivals && r.successfulSwaps == successfulSwaps
      ensures r.rejectedSwaps == rejectedSwaps
      ensures r == StatsOf(Params(), tier, State())
    {
      StatsSummary(stationId, tier, totalArrivals, successfulSwaps, rejectedSwaps,
                   AverageWait(totalWaitTime, successfulSwaps),
                   RejectionRate(rejectedSwaps, totalArrivals),
                   inventoryCapacity)
    }
  }
}
