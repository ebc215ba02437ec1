/**
 * Customer demand for one station (simulation/demand.py).
 *
 * Only the deterministic part of the generator is modelled: the hour-of-day
 * bucket, the multiplier lookup with its default, the effective rate, the
 * choice of the next gap (including the fixed gap for a zero rate) and the
 * customer numbering. The exponential draw is an oracle: a `RandomState`
 * holds a stream of draws indexed by how many draws were taken before.
 */
module Demand {
  import opened Wrappers
  import opened Stations

  // -------------------------------------------------------- hour of the day

  /** int((t / 60) % 24) with Python's floored float modulo: the hour of the day at minute t. */
  function HourOfDay(t: real): (h: int)
    ensures 0 <= h < 24
    ensures var day := (t / 1440.0).Floor;
      (1440 * day + 60 * h) as real <= t < (1440 * day + 60 * h + 60) as real
  {
    var hours := t / 60.0;
    var m := hours - 24.0 * (hours / 24.0).Floor as real;
    m.Floor
  }

  /** Every minute of hour h of any day d falls into bucket h. */
  lemma HourOfDayCharacterized(t: real, d: int, h: int)
    requires 0 <= h < 24
    requires (1440 * d + 60 * h) as real <= t < (1440 * d + 60 * h + 60) as real
    ensures HourOfDay(t) == h
  {
    var day := (t / 1440.0).Floor;
    var h' := HourOfDay(t);
    assert day == d;
  }

  /** The bucket repeats every 24 hours. */
  lemma HourOfDayPeriodic(t: real)
    ensures HourOfDay(t + 1440.0) == HourOfDay(t)
  {
    var h := HourOfDay(t);
    var d := (t / 1440.0).Floor;
    HourOfDayCharacterized(t + 1440.0, d + 1, h);
  }

  // ----------------------------------------------------------- arrival rate

  /** time_multipliers.get(hour, 1.0). */
  function TimeMultiplier(multipliers: map<int, real>, hour: int): (m: real)
    ensures hour in multipliers ==> m == multipliers[hour]
    ensures hour !in multipliers ==> m == 1.0
  {
    if hour in multipliers then multipliers[hour] else 1.0
  }

  /** _calculate_rate at minute t: arrivals per hour. */
  function EffectiveRate(baseRate: real, multipliers: map<int, real>, scenarioMultiplier: real, t: real): real {
    baseRate * TimeMultiplier(multipliers, HourOfDay(t)) * scenarioMultiplier
  }

  /** rate_per_minute. */
  function RatePerMinute(ratePerHour: real): (r: real)
    ensures r * 60.0 == ratePerHour
  {
    ratePerHour / 60.0
  }

  /** An hour with no multiplier runs at the base rate times the scenario multiplier. */
  lemma MissingHourUsesBaseRate(baseRate: real, multipliers: map<int, real>, scenarioMultiplier: real, t: real)
    requires HourOfDay(t) !in multipliers
    ensures EffectiveRate(baseRate, multipliers, scenarioMultiplier, t) == baseRate * scenarioMultiplier
  {
  }

  /** An hour with a multiplier scales the base rate by it. */
  lemma ListedHourScalesRate(baseRate: real, multipliers: map<int, real>, scenarioMultiplier: real, t: real)
    requires HourOfDay(t) in multipliers
    ensures EffectiveRate(baseRate, multipliers, scenarioMultiplier, t)
         == baseRate * multipliers[HourOfDay(t)] * scenarioMultiplier
  {
  }

  /** Scaling the scenario multiplier by k scales the rate by exactly k. */
  lemma RateScalesWithScenario(baseRate: real, multipliers: map<int, real>, scenarioMultiplier: real, k: real, t: real)
    ensures EffectiveRate(baseRate, multipliers, k * scenarioMultiplier, t)
         == k * EffectiveRate(baseRate, multipliers, scenarioMultiplier, t)
  {
    var m := TimeMultiplier(multipliers, HourOfDay(t));
    assert baseRate * m * (k * scenarioMultiplier) == k * (baseRate * m * scenarioMultiplier);
  }

  /** The rate at a minute is the rate 24 hours later. */
  lemma RateIsDaily(baseRate: real, multipliers: map<int, real>, scenarioMultiplier: real, t: real)
    ensures EffectiveRate(baseRate, multipliers, scenarioMultiplier, t + 1440.0)
         == EffectiveRate(baseRate, multipliers, scenarioMultiplier, t)
  {
    HourOfDayPeriodic(t);
  }

  /** Non-negative inputs give a non-negative rate. */
  lemma RateNonNegative(baseRate: real, multipliers: map<int, real>, scenarioMultiplier: real, t: real)
    requires baseRate >= 0.0 && scenarioMultiplier >= 0.0
    requires forall h :: h in multipliers ==> multipliers[h] >= 0.0
    ensures EffectiveRate(baseRate, multipliers, scenarioMultiplier, t) >= 0.0
  {
    var m := TimeMultiplier(multipliers, HourOfDay(t));
    assert m >= 0.0;
    assert baseRate * m >= 0.0;
    assert baseRate * m * scenarioMultiplier >= 0.0;
  }

  // ---------------------------------------------------------------- the gap

  /** The fixed gap used when the rate is not positive. */
  const IdleGap: real := 60.0

  /**
   * The scale of the exponential draw for the next gap: the mean gap 1 /
   * rate_per_minute when the rate is positive; None when it is not, in which
   * case the gap is IdleGap and nothing is drawn.
   */
  function GapScale(ratePerMinute: real): (r: Option<real>)
    ensures r.Some? <==> ratePerMinute > 0.0
    ensures r.Some? ==> r.value > 0.0 && r.value * ratePerMinute == 1.0
  {
    if ratePerMinute > 0.0 then Some(1.0 / ratePerMinute) else None
  }

  /** The source of random draws (numpy's RandomState), as an oracle. */
  class RandomState {
    const seed: Option<int>
    /** sampler(i, scale): the exponential draw with the given scale that is taken i-th. */
    const sampler: (nat, real) -> real
    var drawn: nat

    constructor (seed: Option<int>, sampler: (nat, real) -> real)
      ensures this.seed == seed && this.sampler == sampler && drawn == 0
    {
      this.seed := seed;
      this.sampler := sampler;
      drawn := 0;
    }

    /** exponential(scale): the next draw of the stream. */
    method Exponential(scale: real) returns (x: real)
      modifies this
      ensures drawn == old(drawn) + 1
      ensures x == sampler(old(drawn), scale)
    {
      x := sampler(drawn, scale);
      drawn := drawn + 1;
    }
  }

  // ----------------------------------------------------------- customer ids

  function DigitChar(d: int): (c: char)
    requires 0 <= d < 10
    ensures '0' <= c <= '9' && c as int - '0' as int == d
  {
    ('0' as int + d) as char
  }

  predicate AllDigits(s: string) {
    forall i :: 0 <= i < |s| ==> '0' <= s[i] <= '9'
  }

  /** str(n): the decimal digits of n, most significant first, without leading zeros. */
  function NatToString(n: nat): (s: string)
    ensures |s| > 0 && AllDigits(s)
    ensures s[0] == '0' ==> n == 0
    decreases n
  {
    if n < 10 then [DigitChar(n)] else NatToString(n / 10) + [DigitChar(n % 10)]
  }

  /** The number a string of decimal digits denotes. */
  function ParseNat(s: string): nat
    requires AllDigits(s)
    decreases |s|
  {
    if |s| == 0 then 0 else ParseNat(s[..|s| - 1]) * 10 + (s[|s| - 1] as int - '0' as int)
  }

  /** Reading back the digits of n gives n. */
  lemma {:induction false} ParseNatToString(n: nat)
    ensures ParseNat(NatToString(n)) == n
    decreases n
  {
    var s := NatToString(n);
    if n >= 10 {
      ParseNatToString(n / 10);
      assert s[..|s| - 1] == NatToString(n / 10);
    } else {
      assert s[..|s| - 1] == [];
    }
  }

  /** f"{station_id}_C{n}". */
  function CustomerId(stationId: string, n: nat): (id: string)
    ensures |id| > |stationId| + 2
    ensures id[..|stationId|] == stationId && id[|stationId|..|stationId| + 2] == "_C"
    ensures id[|stationId| + 2..] == NatToString(n)
  {
    stationId + "_C" + NatToString(n)
  }

  /** Different customer numbers give different ids at the same station. */
  lemma CustomerIdsDistinct(stationId: string, m: nat, n: nat)
    requires m != n
    ensures CustomerId(stationId, m) != CustomerId(stationId, n)
  {
    ParseNatToString(m);
    ParseNatToString(n);
  }

  // -------------------------------------------------------------- generator

  /** DemandGenerator: one arrival process feeding one station. */
  class DemandGenerator {
    const station: Station
    const baseRate: real
    const timeMultipliers: map<int, real>
    const scenarioMultiplier: real
    const randomState: RandomState
    var customerCounter: nat

    constructor (station: Station, baseRate: real, timeMultipliers: map<int, real>,
                 scenarioMultiplier: real, randomState: RandomState)
      ensures this.station == station && this.baseRate == baseRate
      ensures this.timeMultipliers == timeMultipliers && this.scenarioMultiplier == scenarioMultiplier
      ensures this.randomState == randomState
      ensures customerCounter == 0
    {
      this.station := station;
      this.baseRate := baseRate;
      this.timeMultipliers := timeMultipliers;
      this.scenarioMultiplier := scenarioMultiplier;
      this.randomState := randomState;
      customerCounter := 0;
    }

    /** _calculate_rate at simulation minute `now`. */
    function CalculateRate(now: real): (r: real)
      ensures r == EffectiveRate(baseRate, timeMultipliers, scenarioMultiplier, now)
    {
      EffectiveRate(baseRate, timeMultipliers, scenarioMultiplier, now)
    }

    /**
     * generate_arrivals, top of the loop at minute `now`: the time to wait
     * for the next customer. A positive rate takes one exponential draw with
     * mean 1 / rate_per_minute; otherwise the gap is IdleGap and nothing is
     * drawn.
     */
    method NextGap(now: real) returns (gap: real)
      modifies randomState
      ensures var scale := GapScale(RatePerMinute(CalculateRate(now)));
        && (scale.Some? ==> randomState.drawn == old(randomState.drawn) + 1
                            && gap == randomState.sampler(old(randomState.drawn), scale.value))
        && (scale.None? ==> randomState.drawn == old(randomState.drawn) && gap == IdleGap)
    {
      var ratePerMinute := RatePerMinute(CalculateRate(now));
      if ratePerMinute > 0.0 {
        gap := randomState.Exponential(1.0 / ratePerMinute);
      } else {
        gap := IdleGap;
      }
    }

    /**
     * generate_arrivals, after the gap has elapsed at minute `now`: number
     * the next customer and start its swap attempt at the station.
     */
    method Arrive(now: real) returns (customerId: string)
      requires station.Valid()
      modifies this, station
      ensures customerCounter == old(customerCounter) + 1
      ensures customerId == CustomerId(station.stationId, customerCounter)
      ensures station.Valid()
      ensures station.State() == ArriveStep(station.Params(), old(station.State()), now, customerId)
    {
      customerCounter := customerCounter + 1;
      customerId := station.stationId + "_C" + NatToString(customerCounter);
      station.Arrive(now, customerId);
    }
  }
}
