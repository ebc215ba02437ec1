# Battery-swap network simulator: a verified model

This project models the core of a discrete-event simulator for a city network of EV battery-swap stations, and proves properties of that model. It has three parts:

- **The simulation.** Customers arrive at each station following a time-of-day rate. Each waits a bounded time for a charged battery. A station holds a closed pool of batteries, one per charger. A battery taken by a customer comes back depleted and is charged back into the pool.
- **The configuration.** Baseline and scenario configurations are validated. A scenario is a set of edits applied to a copy of the baseline.
- **The analysis.** The run results become station and city KPIs, a cost breakdown, a pass/fail validation against reference KPIs, and a prioritised list of optimisation suggestions.

One Dafny module per source file:

| module | file | models |
|---|---|---|
| `Wrappers` | `wrappers.dfy` | `Option` and `Result` |
| `Schema` | `schema.dfy` | configuration records, their defaults, and the checks made on construction |
| `Applicator` | `applicator.dfy` | applying a scenario to a baseline; attribute writes by name go through a per-field table |
| `Stations` | `station.dfy` | the station, a class whose methods are the steps of the swap and charge processes |
| `Demand` | `demand.dfy` | the arrival rate rule, the inter-arrival gap, customer numbering |
| `Timeline` | `timeline.dfy` | the threshold-crossing snapshot recorder |
| `Engine` | `engine.dfy` | creating stations and demand generators, and collecting results |
| `Kpis` | `kpis.dfy` | station and city KPIs |
| `Costs` | `costs.dfy` | the cost breakdown and cost deltas |
| `Validator` | `validator.dfy` | tolerance checks against reference KPIs |
| `Services` | `services.dfy` | optimisation suggestions and the scenario file name |

**The station.** In the program, a station is driven by a cooperative scheduler. Each resumption of one of its processes becomes one atomic method of the class `Stations.Station`:

- arrive;
- acquire a battery;
- end a swap;
- reject on timeout;
- start a charge;
- end a charge;
- log the inventory after the put.

Each method is proved against a pure step function over a `StationState` value. The station invariant `Inv` is proved preserved by every step. The invariant contains:

- battery conservation: charged + depleted + held by customers in a swap = the pool size;
- that every arrival is pending, in a swap, or has exactly one outcome;
- that every wait lies in [0, max_wait_time] and the total wait is their sum;
- that the event logs agree with the counters.

What the scheduler holds is kept in ghost fields of the class: pending requests, swaps in progress, queued charge cycles, and puts not yet logged.

**Time and randomness.** The simulation clock is a parameter of every step. The random number generator is the class `Demand.RandomState`. Its draws come from a sampler function given as a parameter, and it counts the draws taken, so "one shared stream" and "no draw at zero rate" can be stated.

**Numbers.** All numbers are unbounded `int` and exact `real`. Output rounding is left out.

## Model

| member | source | states |
|---|---|---|
| Schema.NewStationConfig | config/schema.py:19-29 | construction succeeds exactly when the tier is high, medium or low, chargers are at least 0, the capacity is positive and the initial count (inventory_capacity when missing) is within [0, capacity]; a bad tier fails as InvalidTier, then negative chargers as NegativeChargers, then a non-positive capacity as NonPositiveCapacity, then an initial count outside [0, capacity] as InitialChargedOutOfRange; a missing initial count becomes the capacity |
| Schema.StationConfigRoundTrip | config/schema.py:8-29 | rebuilding a valid station config from its own fields gives back the same config |
| Schema.DefaultBaseRates | config/schema.py:36-40 | the default base rates are high 20, medium 12, low 6, and no other tier |
| Schema.DefaultTimeMultipliers | config/schema.py:44-49 | the default multiplier table has exactly the hours 0 to 23, each in (0, 1.8] |
| Schema.DefaultDemandConfig | config/schema.py:32-52 | the default demand config uses those tables and a scenario multiplier of 1.0 |
| Schema.DefaultOperationalConfig | config/schema.py:55-62 | the operational defaults: swap 2.0, charge 210.0, threshold 0.2, amount 10, delay 30.0 |
| Schema.NewBaselineConfig | config/schema.py:75-82 | construction succeeds exactly when there is a station and the effective duration is positive; a given duration_hours overrides the supplied simulation_duration with hours times 60 |
| Applicator.StationAttributeKind | config/schema.py:8-17 | exactly the seven declared station attributes have a kind |
| Applicator.GetStationAttr | config/schema.py:8-17 | reading an attribute by name succeeds exactly for the seven declared attributes |
| Applicator.StationAttrsDetermine | config/schema.py:8-17 | two station configs that agree on every declared attribute are equal |
| Applicator.SetStationAttr | scenarios/applicator.py:66-72 | an unknown name fails with the station's id and the name; a known name takes the new value, and every other attribute keeps its value |
| Applicator.ApplyChangesSpec | scenarios/applicator.py:63-72 | a station's changes succeed exactly when every entry names a declared attribute of a matching kind; each named attribute then holds its value and the other attributes are unchanged |
| Applicator.ModifyStationsSpec | scenarios/applicator.py:58-72 | the modification succeeds exactly when it succeeds on every station; each station is modified independently, in place, and the station count is unchanged |
| Applicator.ModifyIgnoresAbsentKeys | scenarios/applicator.py:63-64 | a modification key naming no present station has no effect |
| Applicator.RemoveStations | scenarios/applicator.py:31-35 | removal never lengthens the station list |
| Applicator.RemoveStationsMembership | scenarios/applicator.py:31-35 | a station survives removal exactly when it was present and its id is not listed |
| Applicator.RemoveStationsDistributes | scenarios/applicator.py:31-35 | removal filters each part of a list independently, so the survivors keep their relative order |
| Applicator.RemoveNothing | scenarios/applicator.py:31-35 | an empty removal list keeps every station |
| Applicator.OperationsParameterKind | config/schema.py:55-62 | exactly the five operational parameters have a kind |
| Applicator.GetOperationsParam | config/schema.py:55-62 | reading a parameter by name succeeds exactly for the five operational parameters |
| Applicator.SetOperationsParam | scenarios/applicator.py:77-81 | an unknown parameter fails with its name; a known one takes the value and the other parameters are unchanged |
| Applicator.ApplyOperationsOverrideSpec | scenarios/applicator.py:75-81 | an override with distinct parameter names succeeds exactly when every entry names a parameter of Operations with a value of matching kind; each named parameter then holds its value and every other parameter keeps its old value |
| Applicator.UnknownParameterFails | scenarios/applicator.py:75-81 | an override list containing an unknown parameter name fails |
| Applicator.ApplyScenario | scenarios/applicator.py:14-55 | the steps run in the source's order: add, then remove, then modify stations, then the demand multiplier, then operations overrides. A failing modification is returned as the error; otherwise a failing operations override is returned as the error. On success, a given demand multiplier overwrites the old one and none keeps it. Rates, duration and seed come from the baseline. The baseline value is never changed |
| Applicator.AddedThenRemoved | scenarios/applicator.py:27-35 | a station added by the scenario whose id is also listed for removal is absent from the result |
| Applicator.ScenarioStationOrder | scenarios/applicator.py:27-42 | the result lists the surviving baseline stations then the surviving added stations, each modified in place, in order |
| Applicator.UnknownAttributeFails | scenarios/applicator.py:66-72 | a modification naming an undeclared attribute of a present station makes the whole scenario fail |
| Applicator.EmptyScenarioIsIdentity | scenarios/applicator.py:26-55 | a scenario with no edits yields a config equal to the baseline |
| Stations.InitState | simulation/station.py:66-102 | the store starts at min(initial_charged, chargers), the rest of the pool is depleted, one charge cycle is queued per depleted battery, one inventory record is logged, and the invariant holds |
| Stations.Station.constructor | simulation/station.py:38-102 | the new station holds the given parameters, its inventory capacity is the charger count, and its state is the initial state |
| Stations.ArriveStep | simulation/station.py:104-119 | an arrival adds one to total_arrivals and appends exactly one arrival event, and leaves the other counts unchanged |
| Stations.Station.Arrive | simulation/station.py:104-129 | the arrival step is applied in place and the invariant is kept |
| Stations.AcquireStep | simulation/station.py:131-144 | a granted request takes one battery from the store, adds the wait (grant time minus request time) to the total, and logs swap_start with that wait |
| Stations.Station.Acquire | simulation/station.py:131-144 | the acquire step is applied in place, the wait is returned, and the invariant is kept when the wait is within max_wait_time |
| Stations.SwapEndStep | simulation/station.py:147-164 | the swap counts as successful, the returned battery is depleted, swap_end carries the same wait, the inventory is logged and one charge cycle is queued |
| Stations.Station.SwapEnd | simulation/station.py:147-164 | the swap-end step is applied in place and the invariant is kept |
| Stations.RejectStep | simulation/station.py:165-180 | on timeout no battery leaves the store, the swap counts as rejected, and the rejection is logged with wait max_wait_time |
| Stations.Station.RejectOnTimeout | simulation/station.py:165-180 | the reject step is applied in place and the invariant is kept |
| Stations.ChargeStartStep | simulation/station.py:182-191 | a charge start logs charge_start and counts one more battery charging |
| Stations.Station.ChargeStart | simulation/station.py:182-191 | the charge-start step is applied in place and the invariant is kept |
| Stations.ChargeEndStep | simulation/station.py:194-207 | a charge end logs charge_end, and one battery stops charging, stops being depleted and returns to the store |
| Stations.Station.ChargeEnd | simulation/station.py:194-207 | the charge-end step is applied in place and the invariant is kept |
| Stations.PutLoggedStep | simulation/station.py:207-208 | after the put, one inventory record with the current level and depleted count is appended |
| Stations.Station.ChargeLogged | simulation/station.py:207-208 | the logging step is applied in place and the invariant is kept |
| Stations.Station.LogInventory | simulation/station.py:213-220 | exactly one record (time, station, level, depleted count) is appended and nothing else changes |
| Stations.ArrivePreservesInv | simulation/station.py:104-119 | an arrival keeps conservation, outcome accounting, wait bounds and log agreement |
| Stations.AcquirePreservesInv | simulation/station.py:131-144 | an acquire within patience keeps the invariant |
| Stations.SwapEndPreservesInv | simulation/station.py:147-164 | a swap end keeps the invariant |
| Stations.RejectPreservesInv | simulation/station.py:165-180 | a rejection keeps the invariant |
| Stations.ChargeStartPreservesInv | simulation/station.py:182-191 | a charge start keeps the invariant |
| Stations.ChargeEndPreservesInv | simulation/station.py:194-207 | a charge end keeps the invariant |
| Stations.PutLoggedPreservesInv | simulation/station.py:207-208 | logging after a put keeps the invariant |
| Stations.PutNeverBlocks | simulation/station.py:68-69 | while a battery charges, the store is below capacity, so the put never waits; charging_count never exceeds depleted_count |
| Stations.OutcomesBounded | simulation/station.py:129-180 | successes plus rejections never exceed arrivals; the difference is the customers still waiting or swapping |
| Stations.InventoryRecordsBounded | simulation/station.py:213-220 | every inventory record shows a non-negative charged count, and charged plus depleted never exceeds the pool |
| Stations.AverageWait | simulation/station.py:224-225 | the average wait times the successful swaps is the total wait, and it is 0 with no successes |
| Stations.RejectionRate | simulation/station.py:234 | the rejection rate times the arrivals is the rejected count, and it is 0 with no arrivals |
| Stations.StatsBounds | simulation/station.py:222-236 | in every reachable state the rejection rate is in [0, 1] and the average wait is non-negative; with no swap in progress the average wait is at most max_wait_time |
| Stations.Station.GetStatsSummary | simulation/station.py:222-236 | the summary copies the id, tier, counts and capacity, with the average-wait and rejection-rate ratios and their zero guards |
| Demand.HourOfDay | simulation/demand.py:61 | the hour bucket lies in 0 to 23 and is the hour of the day that contains t |
| Demand.HourOfDayCharacterized | simulation/demand.py:61 | any hour whose one-hour window of some day contains t is the bucket |
| Demand.HourOfDayPeriodic | simulation/demand.py:61 | the bucket repeats every 1440 minutes |
| Demand.TimeMultiplier | simulation/demand.py:64 | a listed hour uses its multiplier, and a missing hour uses 1.0 |
| Demand.RatePerMinute | simulation/demand.py:36 | the per-minute rate times 60 is the hourly rate |
| Demand.MissingHourUsesBaseRate | simulation/demand.py:64-67 | in an hour missing from the table the rate is base rate times scenario multiplier |
| Demand.ListedHourScalesRate | simulation/demand.py:64-67 | in a listed hour the rate is base rate times that hour's multiplier times the scenario multiplier |
| Demand.RateScalesWithScenario | simulation/demand.py:67 | scaling the scenario multiplier by k scales the rate by k |
| Demand.RateIsDaily | simulation/demand.py:55-69 | the rate repeats every 24 hours |
| Demand.RateNonNegative | simulation/demand.py:67 | non-negative rates and multipliers give a non-negative rate |
| Demand.GapScale | simulation/demand.py:40-41 | a scale exists exactly when the per-minute rate is positive, and it is the rate's reciprocal |
| Demand.RandomState.Exponential | simulation/demand.py:41 | one draw is taken from the shared stream, and the draw counter rises by one |
| Demand.DigitChar | simulation/demand.py:50 | the digit character of d has code '0' + d |
| Demand.NatToString | simulation/demand.py:50 | the decimal text of a number is non-empty digits, with no leading zero |
| Demand.ParseNatToString | simulation/demand.py:50 | reading back the decimal text of n gives n, so the text determines the number |
| Demand.CustomerId | simulation/demand.py:50 | the id is the station id, then "_C", then the counter in decimal |
| Demand.CustomerIdsDistinct | simulation/demand.py:49-50 | different counter values give different ids |
| Demand.DemandGenerator.constructor | simulation/demand.py:11-27 | the generator holds its station, rates and random state, and its customer counter starts at 0 |
| Demand.DemandGenerator.CalculateRate | simulation/demand.py:55-69 | the rate is base rate times the hour's multiplier times the scenario multiplier |
| Demand.DemandGenerator.NextGap | simulation/demand.py:33-43 | a positive per-minute rate draws one exponential gap at scale 1/rate; otherwise the gap is 60 minutes and no draw is taken |
| Demand.DemandGenerator.Arrive | simulation/demand.py:49-53 | the counter rises by one, the id is formed from it, and exactly one arrival is made at this generator's station, keeping its invariant |
| Timeline.FrameOfUnique | simulation/timeline_recorder.py:55-78 | the frame for given stations and time is unique |
| Timeline.FrameOfStamped | simulation/timeline_recorder.py:63-77 | every snapshot in a frame carries the frame's time |
| Timeline.CaptureSnapshot | simulation/timeline_recorder.py:45-78 | the frame is stamped with the current time and holds one snapshot per station, in input order, copying its metrics |
| Timeline.TimelineRecorder.constructor | simulation/timeline_recorder.py:13-23 | a fresh recorder has next_snapshot_time 0 and no frames |
| Timeline.TimelineRecorder.Tick | simulation/timeline_recorder.py:25-43 | before the threshold nothing changes; otherwise exactly one frame for the current time is appended and the threshold advances by exactly one interval; next_snapshot_time stays interval times the frame count |
| Timeline.TimelineRecorder.ToSerializable | simulation/timeline_recorder.py:80-97 | the serialised frames are the recorded frames, in order |
| Timeline.TimelineRecorder.GetFrameCount | simulation/timeline_recorder.py:99-101 | the count is the number of frames, and next_snapshot_time is interval times that count |
| Timeline.TimelineRecorder.Reset | simulation/timeline_recorder.py:103-106 | reset restores the initial state |
| Engine.BaseRateFor | simulation/engine.py:85 | a station's base rate is its tier's configured rate, and 10.0 when the tier is missing |
| Engine.DefaultTiersUseListedRates | simulation/engine.py:85 | with the default demand config every valid tier uses its listed, positive rate |
| Engine.ReadStationAttrs | simulation/engine.py:63-76 | reading station attributes succeeds exactly when every name is a declared attribute, and yields their values in order |
| Engine.CreateStationAsWrittenFails | simulation/engine.py:67 | the station creation as written reads the undeclared attribute bays and fails with an attribute error |
| Engine.CreateStationReadsSucceed | simulation/engine.py:61-76 | without bays, station creation reads the id, tier, chargers, capacity and initial count |
| Engine.CreatedStationValid | simulation/engine.py:61-76 | a station created from a config starts in the initial state and satisfies the station invariant |
| Engine.ResultOfValidStation | simulation/engine.py:105-113 | a result entry for a valid station has a rejection rate in [0, 1], a non-negative average wait, outcomes within arrivals, and counts that agree with its swap log |
| Engine.SimulationEngine.constructor | simulation/engine.py:21-32 | the engine starts with no stations or generators and one fresh random state seeded from the config |
| Engine.SimulationEngine.CreateStation | simulation/engine.py:61-76 | a fresh station is built from the config entry and the operational parameters, with the default max wait time |
| Engine.SimulationEngine.CreateDemandGenerator | simulation/engine.py:78-94 | a fresh generator feeds the station with its tier's rate, the shared multipliers and the shared random state |
| Engine.SimulationEngine.CreateAll | simulation/engine.py:37-46 | the configs are walked in order, creating one distinct fresh station and one generator feeding it per config; configs are not re-validated, and the walk stops at the first config with no chargers or a negative initial count, where the battery store cannot be built |
| Engine.SimulationEngine.Setup | simulation/engine.py:34-46 | the created stations and generators are appended, pairwise, in config order, and the earlier entries are unchanged |
| Engine.SimulationEngine.CollectResults | simulation/engine.py:96-116 | the bundle carries the duration and seed and one entry per station, in creation order, with its id, tier, stats and three logs |
| Kpis.LostSwapsPct | kpis/calculator.py:120 | the percentage times the arrivals is 100 times the lost count, and it is 0 with no arrivals |
| Kpis.LostSwapsPctBounded | kpis/calculator.py:120 | with losses within arrivals the percentage lies in [0, 100] |
| Kpis.ChargerUtilization | kpis/calculator.py:216-236 | 0 with no charge events or no positive duration; otherwise completed charges times charge duration over the duration, capped at 1 and equal to 1 exactly when the busy time reaches the duration; non-negative when the charge duration is; the charger count plays no part |
| Kpis.CalculateAvgInventory | kpis/calculator.py:238-265 | the loop computes the time-weighted average: the sum of each count times the time to the next record, plus the last count to the horizon, over the duration; 0 for an empty log or a non-positive duration |
| Kpis.PairSumConstant | kpis/calculator.py:250-255 | for a constant count the interval sum telescopes to the count times the elapsed time |
| Kpis.ConstantInventoryAverage | kpis/calculator.py:244-265 | a constant count logged from time 0 averages to exactly that count |
| Kpis.PairSumBounds | kpis/calculator.py:250-255 | for time-ordered records with counts within capacity, the interval sum lies between 0 and capacity times the elapsed time |
| Kpis.AverageInventoryBounded | kpis/calculator.py:238-265 | for time-ordered records within the horizon and counts within capacity, the average lies in [0, capacity] |
| Kpis.StationKpisOf | kpis/calculator.py:103-148 | the station KPIs copy the id, tier, arrivals, successes, losses and average wait from the results |
| Kpis.StationKpisBounded | kpis/calculator.py:116-136 | the lost-swap percentage lies in [0, 100] and the utilisation lies in [0, 1] |
| Kpis.CalculateStationKpis | kpis/calculator.py:103-148 | the computed station KPIs are those of the results |
| Kpis.CityKpisOf | kpis/calculator.py:150-214 | an empty list gives all zeros. Otherwise: the totals are the station sums; the average wait is the swap-weighted mean, 0 with no swaps; utilisation and idle inventory are plain means; throughput is swaps per hour, 0 for non-positive hours; cost_proxy is 0.5 times wait plus 2 times the lost percentage plus 10 times (1 minus utilisation) |
| Kpis.TotalsBounded | kpis/calculator.py:169-185 | for well-formed stations the totals are non-negative, swaps plus losses stay within arrivals, the wait sum is at most max wait times swaps, and the utilisation sum is at most the station count |
| Kpis.CityKpisBounded | kpis/calculator.py:150-214 | for well-formed stations the city lost percentage is in [0, 100], the wait is in [0, max wait], utilisation is in [0, 1], swaps plus losses stay within arrivals, and the cost proxy is non-negative |
| Kpis.Calculate | kpis/calculator.py:39-101 | one station KPI entry per result station, in order, and city KPIs over them with duration in hours |
| Costs.DefaultCostParameters | kpis/cost_model.py:11-30 | the default unit prices, all non-negative |
| Costs.StationSumsAppend | kpis/cost_model.py:117-119 | charger and capacity totals add over concatenated station lists |
| Costs.ResultSumsAppend | kpis/cost_model.py:127-128 | success and rejection totals add over concatenated results |
| Costs.StationSumsNonNegative | kpis/cost_model.py:117-119 | non-negative station counts give non-negative totals |
| Costs.ResultSumsNonNegative | kpis/cost_model.py:127-128 | non-negative result counts give non-negative totals |
| Costs.CalculateCosts | kpis/cost_model.py:98-178 | each component is its count times its unit price. Bay capital is 0. Charges equal successes. There are 3 replenishments per station and 24 labour hours per station. The totals, net profit and total cost are the stated sums and differences |
| Costs.BreakdownAdditive | kpis/cost_model.py:117-161 | the breakdown totals are additive in the counts they are built from |
| Costs.CalculateCostsAsWrittenFails | kpis/cost_model.py:118 | summing bays over configs that have no bays field fails with an attribute error whenever there is a station |
| Costs.CostsAdditive | kpis/cost_model.py:98-178 | the costs of two disjoint networks together are the sums of their costs, total by total |
| Costs.RevenueSplitsOutcomes | kpis/cost_model.py:154-157 | revenue plus lost revenue is all arrivals with an outcome times the revenue per swap |
| Costs.CostsNonNegative | kpis/cost_model.py:117-161 | with non-negative prices and counts every total is non-negative, and total cost is at least total capital |
| Costs.CalculateCostDelta | kpis/cost_model.py:180-198 | each delta added to the baseline total gives the scenario total |
| Costs.DeltaOfSelfIsZero | kpis/cost_model.py:191-198 | a breakdown against itself gives all zero deltas |
| Costs.DeltaAntisymmetric | kpis/cost_model.py:191-198 | swapping the two breakdowns negates every delta |
| Costs.DeltaDecomposes | kpis/cost_model.py:160-161 | the profit delta is the revenue delta minus the operational delta, and the total-cost delta is the sum of the capital, operational and lost-revenue deltas |
| Validator.CitySection | validation/baseline_validator.py:38-39 | a missing city section reads as empty |
| Validator.MetricValue | validation/baseline_validator.py:44-45 | a missing metric reads as 0.0 |
| Validator.ValidateMetric | validation/baseline_validator.py:73-96 | against a zero reference it passes exactly when computed is below 0.01; otherwise the variance is the relative deviation and it passes exactly when that is within the tolerance; the entry carries its name, values and tolerance in percent |
| Validator.PositiveReferenceBand | validation/baseline_validator.py:85-87 | for a positive reference the check passes exactly when the absolute deviation is at most tolerance times the reference |
| Validator.ExactMatchPasses | validation/baseline_validator.py:85-87 | a value equal to a non-zero reference passes |
| Validator.ZeroAgainstZeroPasses | validation/baseline_validator.py:81-84 | 0 against a zero reference passes |
| Validator.NegativeReferenceAlwaysPasses | validation/baseline_validator.py:85-87 | against a negative reference any computed value passes, since the relative deviation is not positive |
| Validator.Tolerance | validation/baseline_validator.py:12-14 | every checked metric has a positive tolerance |
| Validator.Validate | validation/baseline_validator.py:22-71 | the report has exactly the wait, lost-swaps and utilisation entries, each with its tolerance (0.15, 0.15, 0.10), and the verdict is their conjunction |
| Validator.SelfValidationPasses | validation/baseline_validator.py:41-69 | a document with non-negative values validates against itself |
| Validator.MissingMetricPasses | validation/baseline_validator.py:44-45 | a metric missing from both documents passes |
| Services.CitySuggestions | api/services.py:277-286 | exactly one add_station suggestion, high priority and with no station, when the city loses more than 5 % of swaps, and none otherwise |
| Services.StationSuggestionsSpec | api/services.py:288-326 | per station: add_chargers exactly when utilisation is above 0.5 (2 and high above 0.7, otherwise 1 and medium); add_bays (1, high) exactly when the wait is above 5; remove_chargers (1, low) exactly when utilisation is below 0.1 with arrivals; each names the station; at most two |
| Services.StationSuggestionsConsistent | api/services.py:291-326 | a station is never told to both add and remove chargers |
| Services.AllStationSuggestionsStep | api/services.py:289 | the per-station loop appends each station's suggestions in station order |
| Services.AllStationSuggestionsBounded | api/services.py:289-326 | the station rules give at most two suggestions per station, none of them add_station |
| Services.WithPriority | api/services.py:329-330 | selecting one priority keeps only suggestions of that priority |
| Services.SortIsSorted | api/services.py:329-330 | the sort leaves high before medium before low |
| Services.SortIsStable | api/services.py:329-330 | within each priority the sort keeps generation order |
| Services.SortIsPermutation | api/services.py:329-330 | the sorted list is a permutation of the generated list |
| Services.SortedIsOwnSort | api/services.py:329-330 | sorting a list already in priority order leaves it unchanged |
| Services.StableSortUnique | api/services.py:329-330 | the stable priority sort is the only ordered list that keeps each priority's order |
| Services.ApplyStationRules | api/services.py:290-326 | the loop body appends exactly the station's suggestions |
| Services.ApplyRules | api/services.py:275-326 | the city rule followed by the per-station loop generates the city suggestions then each station's, in order |
| Services.GenerateSuggestions | api/services.py:273-332 | the result is the stable priority sort of the generated suggestions |
| Services.SuggestionsOverview | api/services.py:273-332 | at most 1 + 2 times the station count suggestions; add_station appears exactly when the lost percentage is above 5, and then comes first |
| Services.LowerAscii | api/services.py:62 | an upper-case ASCII letter becomes its lower-case letter; other characters are unchanged; the result is never upper-case |
| Services.SafeName | api/services.py:62 | the safe name has the same length, with spaces replaced by underscores and letters lower-cased |
| Services.SafeNameIsSafe | api/services.py:62 | a safe name has no space and no upper-case ASCII letter |
| Services.SafeNameIdempotent | api/services.py:62 | making a safe name safe again changes nothing |
| Services.ScenarioFilename | api/services.py:62-63 | the file name is "scenario_", the safe name, then ".yaml" |
| Services.FilenameOfSafeName | api/services.py:62-63 | a name and its safe name give the same file name |

## Left out

- The discrete-event scheduler is not modelled: `env.run`, `yield`, the container's get and put queues, and the race between the battery request and the patience timer (simulation/station.py:125-129, simulation/engine.py:48-59). Each resumption is an atomic method, and its requires says which scheduler facts it relies on: a request pending, a battery in the store, the wait within patience. The model does not decide which customer a battery goes to, or in what order the processes resume.
- A battery granted at the same instant the patience timer fires, with the timer handled first, is not modelled. The program then counts a rejection although the battery has left the store. The model's rejection step takes no battery.
- Random sampling is not modelled. The exponential draw (simulation/demand.py:41) is an oracle: a sampler function given to `Demand.RandomState`. The seeded generator's actual numbers are not modelled.
- The infinite arrival loop of `generate_arrivals` is not modelled as a loop. `Demand.DemandGenerator.NextGap` and `Demand.DemandGenerator.Arrive` are one iteration, split at the `yield`.
- Rounding of output values is not modelled: station stats, KPI dictionaries, validator report fields and cost dictionaries (simulation/station.py:233-234, kpis/calculator.py:75-100, validation/baseline_validator.py:89-96, kpis/cost_model.py:61-88). All values are exact and unrounded.
- Floating point is modelled as exact reals.
- The HTTP layer, authentication, the database client, the request and response schemas, YAML and JSON loading, file writing, `copy.deepcopy`, and the command-line drivers and printing functions are not part of this model. The service orchestration around the KPI calls (api/services.py:75-271) is not part of this model either.
- Weather and event modifiers, distances and replenishment policies are not modelled; the program has none (replenishment is commented out at simulation/station.py:210-211). The replenishment parameters are stored and never used.
- Scenario application is modelled as value in, value out. The program edits a deep copy of the baseline in place and returns it. The model builds the new config as a value, which is the same external behaviour.
- Applicator.SetStationAttr: Python's `setattr` stores a value of any type. The model fails on a value whose kind does not match the field, and stores an integer given for a real field as that real. A wrongly typed value therefore fails in the model rather than being stored. `hasattr` is also true of the names every Python object has, such as `__doc__` or `__class__`, and `setattr` accepts most of them. The model knows only the seven data fields and fails on every other name.
- Applicator.SetOperationsParam: the kind check is the same restriction as for SetStationAttr. At scenarios/applicator.py:79-80 `setattr` stores a value of any type, where the model fails with ValueKindMismatch. The model also rejects the built-in object names that `hasattr` accepts.
- A scenario's `name` and `description`, a description field of every suggestion, and the suggestions' `action_payload` dictionaries are not modelled as such. The payload is modelled as its one amount.
- Services.SafeName: only ASCII letters are lower-cased. Python's `str.lower` also folds other Unicode letters.
- Services.SortByPriority: the priority map's default of 3 (api/services.py:330) is not modelled, because every suggestion carries one of the three priorities.
- Stations.StatsBounds: the average wait is bounded by max_wait_time only when no swap is in progress. A wait is added when a swap starts, but the swap counts as successful only when it ends, so at the horizon the average can exceed max_wait_time.
- Stations.InventoryRecordsBounded: charged plus depleted is at most the pool, not equal to it. A battery held by a customer in a swap is in neither count.
- Stations.Station.constructor: the `inventory_capacity` argument is accepted and ignored, as in the source, where the pool size is the charger count. The constructor requires at least one charger and a non-negative initial count, because the SimPy container refuses the others when the station is built. It also requires a non-negative patience, which is a restriction of the model. The source constructor accepts a negative max_wait_time; `env.timeout` raises only when the first customer arrives (simulation/station.py:126). The engine never passes a patience, so the default of 15 minutes applies.
- Engine.SimulationEngine.CreateAll: the walk over the configs stops at the first config with no chargers or a negative initial count, where the program's container construction raises an error. The model reports that with `ok` false. Configs reach the engine unchecked, since a scenario can set any field, so the walk also accepts configs that the StationConfig constructor would refuse. An unknown tier gets the base rate 10.0, `inventory_capacity` is ignored, and an initial count above the charger count is cut to that count.
- Kpis.Calculate: the charge duration is always passed explicitly. The source's default of 60.0 minutes (kpis/calculator.py:43), on which run_baseline.py relies, is the constant Kpis.DefaultChargeDuration.
- Kpis.AverageInventoryBounded: time ordering of the records and counts within capacity are hypotheses. The station's logging produces such logs, but no lemma connects the two.
- Kpis.ChargerUtilization: utilisation is not divided by the charger count. This is modelled as written (kpis/calculator.py:234).
- The timeline recorder is modelled but not connected to the engine, as in the source (simulation/engine.py:96-116 emits no snapshot). The per-station metrics a snapshot reads are given as inputs.
- Per-customer identity across a swap's steps is not tracked: the invariant counts pending requests and swaps in progress, but not which customer holds them.
- Costs.CalculateCosts: the simulation results are taken as their list of stations, which is what `simulation_results.get("stations", [])` yields.
- Validator.NegativeReferenceAlwaysPasses states the behaviour as written. A negative reference makes the relative deviation non-positive, so every value passes.

## Findings

| source | as written | input that shows it | evidently intended | confidence | as-written member | corrected member |
|---|---|---|---|---|---|---|
| simulation/engine.py:67 | station creation passes `bays=station_config.bays`, but station configs have no `bays` field and the station constructor no longer takes it | any baseline with at least one station | create the station from its id, tier, chargers, capacity and initial count only | high, not executed | Engine.CreateStationAsWrittenFails | Engine.CreateStationReadsSucceed |
| kpis/cost_model.py:118 | `sum(s.bays for s in baseline_config.stations)` reads a field station configs no longer have | any config with at least one station | no bays, so bay capital is 0 | high, not executed | Costs.CalculateCostsAsWrittenFails | Costs.CalculateCosts |
