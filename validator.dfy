/**
 * The baseline validator (validation/baseline_validator.py): compares three
 * computed city KPIs with reference values, each within a relative error
 * band, and passes only if all three do. Values are unrounded.
 */
module Validator {

  const WaitTimeTolerance: real := 0.15
  const UtilizationTolerance: real := 0.10
  const LostSwapsTolerance: real := 0.15

  /** Absolute bound a computed value must stay under when the reference is 0. */
  const NearZero: real := 0.01

  /** A KPI document: section name to metric name to value. */
  type KpiDocument = map<string, map<string, real>>

  /** doc.get("city_kpis", {}). */
  function CitySection(doc: KpiDocument): (m: map<string, real>)
    ensures "city_kpis" in doc ==> m == doc["city_kpis"]
    ensures "city_kpis" !in doc ==> m == map[]
  {
    if "city_kpis" in doc then doc["city_kpis"] else map[]
  }

  /** section.get(name, 0.0). */
  function MetricValue(section: map<string, real>, name: string): (v: real)
    ensures name in section ==> v == section[name]
    ensures name !in section ==> v == 0.0
  {
    if name in section then section[name] else 0.0
  }

  function Abs(x: real): real {
    if x < 0.0 then -x else x
  }

  /** The per-metric entry of the report. */
  datatype MetricReport = MetricReport(
    name: string,
    computed: real,
    reference: real,
    variancePct: real,
    tolerancePct: real,
    passed: bool)

  /**
   * _validate_metric: against a zero reference the value must be below
   * NearZero; otherwise its relative deviation |computed - reference| /
   * reference must be within the tolerance.
   */
  function ValidateMetric(name: string, computed: real, reference: real, tolerance: real): (r: MetricReport)
    ensures r.name == name && r.computed == computed && r.reference == reference
    ensures r.tolerancePct == tolerance * 100.0
    ensures reference == 0.0 ==> (r.passed <==> computed < NearZero) && r.variancePct == Abs(computed) * 100.0
    ensures reference != 0.0 ==>
      && r.variancePct * reference == Abs(computed - reference) * 100.0
      && (r.passed <==> r.variancePct <= tolerance * 100.0)
  {
    var variance := if reference == 0.0 then Abs(computed) else Abs(computed - reference) / reference;
    var passed := if reference == 0.0 then computed < NearZero else variance <= tolerance;
    MetricReport(name, computed, reference, variance * 100.0, tolerance * 100.0, passed)
  }

  /** For a positive reference the band is |computed - reference| <= tolerance * reference. */
  lemma PositiveReferenceBand(name: string, computed: real, reference: real, tolerance: real)
    requires reference > 0.0
    ensures ValidateMetric(name, computed, reference, tolerance).passed
        <==> Abs(computed - reference) <= tolerance * reference
  {
    var d := Abs(computed - reference);
    var v := d / reference;
    assert v * reference == d;
    if v <= tolerance {
      assert v * reference <= tolerance * reference;
    } else {
      assert v * reference > tolerance * reference;
    }
  }

  /** A computed value equal to a non-zero reference passes whatever the tolerance, if it is not negative. */
  lemma ExactMatchPasses(name: string, reference: real, tolerance: real)
    requires reference != 0.0 && tolerance >= 0.0
    ensures ValidateMetric(name, reference, reference, tolerance).passed
  {
  }

  /** Computed 0 against reference 0 passes. */
  lemma ZeroAgainstZeroPasses(name: string, tolerance: real)
    ensures ValidateMetric(name, 0.0, 0.0, tolerance).passed
  {
  }

  /**
   * A negative reference makes the relative deviation non-positive, so any
   * computed value passes a non-negative tolerance.
   */
  lemma NegativeReferenceAlwaysPasses(name: string, computed: real, reference: real, tolerance: real)
    requires reference < 0.0 && tolerance >= 0.0
    ensures ValidateMetric(name, computed, reference, tolerance).passed
  {
    var d := Abs(computed - reference);
    var v := d / reference;
    assert v * reference == d;
    assert v <= 0.0;
  }

  // ----------------------------------------------------------------- report

  /** The three checked city metrics. */
  datatype Metric = AvgWaitTime | LostSwapsPct | ChargerUtilization

  /** The key a metric has in the KPI documents and in the report. */
  function Key(m: Metric): string {
    match m
    case AvgWaitTime => "avg_wait_time"
    case LostSwapsPct => "lost_swaps_pct"
    case ChargerUtilization => "charger_utilization"
  }

  /** The tolerance each checked metric is held to. */
  function Tolerance(m: Metric): (t: real)
    ensures t > 0.0
  {
    match m
    case AvgWaitTime => WaitTimeTolerance
    case LostSwapsPct => LostSwapsTolerance
    case ChargerUtilization => UtilizationTolerance
  }

  datatype ValidationReport = ValidationReport(passed: bool, metrics: map<Metric, MetricReport>)

  /** The entry of metric m for the two documents. */
  function MetricEntry(computed: KpiDocument, reference: KpiDocument, m: Metric): MetricReport {
    ValidateMetric(Key(m), MetricValue(CitySection(computed), Key(m)), MetricValue(CitySection(reference), Key(m)),
                   Tolerance(m))
  }

  /**
   * validate: the report holds exactly the three metric entries, and the
   * overall verdict is their conjunction.
   */
  method Validate(computed: KpiDocument, reference: KpiDocument) returns (passed: bool, report: ValidationReport)
    ensures passed == report.passed
    ensures report.metrics.Keys == {AvgWaitTime, LostSwapsPct, ChargerUtilization}
    ensures forall m :: m in report.metrics ==> report.metrics[m] == MetricEntry(computed, reference, m)
    ensures passed <==> forall m: Metric :: MetricEntry(computed, reference, m).passed
  {
    report := ValidationReport(true, map[]);

    var wait := MetricEntry(computed, reference, AvgWaitTime);
    report := report.(metrics := report.metrics[AvgWaitTime := wait]);
    report := report.(passed := report.passed && wait.passed);

    var lost := MetricEntry(computed, reference, LostSwapsPct);
    report := report.(metrics := report.metrics[LostSwapsPct := lost]);
    report := report.(passed := report.passed && lost.passed);

    var util := MetricEntry(computed, reference, ChargerUtilization);
    report := report.(metrics := report.metrics[ChargerUtilization := util]);
    report := report.(passed := report.passed && util.passed);

    passed := report.passed;
  }

  /** A document validated against itself passes when its checked values are not negative. */
  lemma SelfValidationPasses(doc: KpiDocument, m: Metric)
    requires MetricValue(CitySection(doc), Key(m)) >= 0.0
    ensures MetricEntry(doc, doc, m).passed
  {
  }

  /** A missing section or metric counts as 0.0, so two documents lacking it agree and pass. */
  lemma MissingMetricPasses(computed: KpiDocument, reference: KpiDocument, m: Metric)
    requires Key(m) !in CitySection(computed) && Key(m) !in CitySection(reference)
    ensures MetricEntry(computed, reference, m).passed
  {
  }
}
