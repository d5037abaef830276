/** The quality-control view: quality metrics re-classified on every 8-second
    tick with the 0.7 ratio (pass / warning / fail), the overall quality score
    and the test pass rate, the metric bar, and the compliance chart whose
    labels drop the year suffix of a standard's name. */
module QualityControl {
  import opened Common
  import Tolerance

  datatype MetricStatus = Pass | Warning | Fail
  datatype Trend = Up | Down | Stable

  datatype QualityMetric = QualityMetric(
    id: string,
    name: string,
    current: real,
    target: real,
    tolerance: real,
    unit: string,
    status: MetricStatus,
    trend: Trend)

  datatype ComplianceStatus = Compliant | ComplianceWarning | NonCompliant

  /** A compliance standard; its audit dates are not modelled. */
  datatype ComplianceStandard = ComplianceStandard(
    id: string,
    name: string,
    standard: string,
    compliance: real,
    status: ComplianceStatus)

  datatype TestResult = TestPass | TestFail

  /** A recent quality test; its timestamp is not modelled. */
  datatype QualityTest = QualityTest(
    id: string,
    testType: string,
    batchId: string,
    result: TestResult,
    score: real,
    inspector: string)

  function SeedMetrics(): seq<QualityMetric> {
    [ QualityMetric("1", "Carbon Content", 0.42, 0.40, 0.05, "%", Pass, Stable),
      QualityMetric("2", "Tensile Strength", 485.0, 500.0, 25.0, "MPa", Warning, Down),
      QualityMetric("3", "Hardness (HRC)", 22.0, 20.0, 3.0, "HRC", Pass, Up),
      QualityMetric("4", "Surface Finish", 1.2, 1.0, 0.3, "μm", Warning, Stable),
      QualityMetric("5", "Dimensional Accuracy", 0.02, 0.01, 0.02, "mm", Pass, Stable) ]
  }

  function SeedStandards(): seq<ComplianceStandard> {
    [ ComplianceStandard("1", "ISO 9001:2015", "Quality Management", 98.0, Compliant),
      ComplianceStandard("2", "ASTM A36", "Structural Steel", 95.0, Compliant),
      ComplianceStandard("3", "EN 10025", "Hot Rolled Products", 89.0, ComplianceWarning),
      ComplianceStandard("4", "JIS G3101", "General Structure", 92.0, Compliant) ]
  }

  function SeedTests(): seq<QualityTest> {
    [ QualityTest("1", "Tensile Test", "B2024-001", TestPass, 94.0, "J. Smith"),
      QualityTest("2", "Hardness Test", "B2024-001", TestPass, 96.0, "M. Johnson"),
      QualityTest("3", "Chemical Analysis", "B2024-002", TestFail, 78.0, "A. Davis"),
      QualityTest("4", "Surface Inspection", "B2024-002", TestPass, 88.0, "R. Wilson") ]
  }

  /** The tick's status rule: fail beyond the tolerance, warning beyond 0.7
      of it, pass otherwise. */
  function MetricStatusOf(current: real, target: real, tolerance: real): (s: MetricStatus)
    ensures s == Fail <==> Tolerance.Deviation(current, target) > tolerance
    ensures s == Warning <==>
      tolerance * 0.7 < Tolerance.Deviation(current, target) <= tolerance
    ensures s == Pass <==>
      Tolerance.Deviation(current, target) <= tolerance &&
      Tolerance.Deviation(current, target) <= tolerance * 0.7
  {
    match Tolerance.ClassifyWorstFirst(Tolerance.Deviation(current, target), tolerance, 0.7)
    case Best => Pass
    case Middle => Warning
    case Worst => Fail
  }

  /** A metric whose shown status is the one the rule gives for its value. */
  predicate Consistent(m: QualityMetric) {
    m.status == MetricStatusOf(m.current, m.target, m.tolerance)
  }

  /** One metric after a tick: moved by (draw - 0.5) * 0.1, not clamped, and
      re-classified. */
  function TickMetric(m: QualityMetric, draw: real): QualityMetric {
    var newCurrent := m.current + (draw - 0.5) * 0.1;
    m.(current := newCurrent, status := MetricStatusOf(newCurrent, m.target, m.tolerance))
  }

  /** The metrics after one tick, one draw per metric. */
  function TickMetrics(prev: seq<QualityMetric>, draws: seq<real>): (next: seq<QualityMetric>)
    requires |draws| == |prev| && AllDraws(draws)
    ensures |next| == |prev|
    ensures forall i :: 0 <= i < |next| ==>
      -0.05 <= next[i].current - prev[i].current < 0.05
    ensures forall i :: 0 <= i < |next| ==> Consistent(next[i])
    ensures forall i :: 0 <= i < |next| ==>
      next[i] == prev[i].(current := next[i].current, status := next[i].status)
  {
    seq(|prev|, i requires 0 <= i < |prev| => TickMetric(prev[i], draws[i]))
  }

  /** The hard-coded seed statuses do not follow the rule: tensile strength
      485 against 500 +/- 25 (deviation 15 <= 17.5) and surface finish 1.2
      against 1.0 +/- 0.3 (deviation 0.2 <= 0.21) are seeded as warnings but
      the rule passes them. Consistency holds only from the first tick on. */
  lemma SeedStatusesInconsistent()
    ensures SeedMetrics()[1].status == Warning
    ensures MetricStatusOf(485.0, 500.0, 25.0) == Pass
    ensures !Consistent(SeedMetrics()[1])
    ensures !Consistent(SeedMetrics()[3])
    ensures Consistent(SeedMetrics()[0]) && Consistent(SeedMetrics()[2]) && Consistent(SeedMetrics()[4])
  {
    assert Tolerance.Deviation(485.0, 500.0) == 15.0;
    assert Tolerance.Deviation(1.2, 1.0) == 0.2;
    assert Tolerance.Deviation(0.42, 0.40) == 0.02;
    assert Tolerance.Deviation(22.0, 20.0) == 2.0;
    assert Tolerance.Deviation(0.02, 0.01) == 0.01;
  }

  function Score(s: MetricStatus): real {
    match s
    case Pass => 100.0
    case Warning => 85.0
    case Fail => 60.0
  }

  function Scores(metrics: seq<QualityMetric>): seq<real> {
    seq(|metrics|, i requires 0 <= i < |metrics| => Score(metrics[i].status))
  }

  /** overallQuality: the mean of 100 / 85 / 60 per metric status; an empty
      list gives NaN (None). */
  function OverallQuality(metrics: seq<QualityMetric>): (q: Option<real>)
    ensures q.None? <==> metrics == []
  {
    Mean(Scores(metrics))
  }

  /** For a nonempty list the overall quality lies in [60, 100] and is 100
      exactly when every metric passes. */
  lemma OverallQualityRange(metrics: seq<QualityMetric>)
    requires metrics != []
    ensures 60.0 <= OverallQuality(metrics).value <= 100.0
    ensures OverallQuality(metrics).value == 100.0 <==>
      forall i :: 0 <= i < |metrics| ==> metrics[i].status == Pass
  {
    var s := Scores(metrics);
    var n := |s| as real;
    MeanBounds(s, 60.0, 100.0);
    if forall i :: 0 <= i < |metrics| ==> metrics[i].status == Pass {
      SumBounds(s, 100.0, 100.0);
      DivUnique(Sum(s), n, 100.0);
    }
    if OverallQuality(metrics).value == 100.0 {
      assert Sum(s) / n * n == Sum(s);
      SumAtMaxOnlyIfAllMax(s, 100.0);
      forall i | 0 <= i < |metrics|
        ensures metrics[i].status == Pass
      {
        assert s[i] == 100.0;
      }
    }
  }

  function Passed(tests: seq<QualityTest>): seq<bool> {
    seq(|tests|, i requires 0 <= i < |tests| => tests[i].result == TestPass)
  }

  /** passRate: the percentage of passed tests; an empty list gives NaN (None). */
  function PassRate(tests: seq<QualityTest>): (r: Option<real>)
    ensures r.None? <==> tests == []
    ensures r.Some? ==> 0.0 <= r.value <= 100.0
  {
    if tests == [] then None
    else
      CountTrueAtMostLength(Passed(tests));
      var p := CountTrue(Passed(tests)) as real;
      var n := |tests| as real;
      DivAtMost(p, n, 1.0);
      Some(p / n * 100.0)
  }

  /** The rate is 100 exactly when every test passed and 0 exactly when none did. */
  lemma PassRateExtremes(tests: seq<QualityTest>)
    requires tests != []
    ensures PassRate(tests).value == 100.0 <==>
      forall i :: 0 <= i < |tests| ==> tests[i].result == TestPass
    ensures PassRate(tests).value == 0.0 <==>
      forall i :: 0 <= i < |tests| ==> tests[i].result == TestFail
  {
    var b := Passed(tests);
    var p := CountTrue(b) as real;
    var n := |tests| as real;
    CountTrueAll(b);
    CountTrueNone(b);
    var q := p / n;
    assert PassRate(tests).value == q * 100.0;
    assert q * n == p;
    assert q == 1.0 <==> p == n by {
      if p == n {
        DivUnique(p, n, 1.0);
      }
    }
    assert q == 0.0 <==> p == 0.0;
    assert CountTrue(b) == |b| <==> p == n;
    assert |b| == |tests|;
    assert forall i :: 0 <= i < |b| ==> (b[i] <==> tests[i].result == TestPass);
    assert (forall i :: 0 <= i < |b| ==> b[i]) <==>
      (forall i :: 0 <= i < |tests| ==> tests[i].result == TestPass);
    assert (forall i :: 0 <= i < |b| ==> !b[i]) <==>
      (forall i :: 0 <= i < |tests| ==> tests[i].result == TestFail);
  }

  /** The seed tests pass three times out of four. */
  lemma SeedPassRate()
    ensures PassRate(SeedTests()) == Some(75.0)
  {
    var b := Passed(SeedTests());
    assert b == [true, true, false, true];
    assert CountTrue(b[..0]) == 0;
    assert CountTrue(b[..1]) == 1 by { assert b[..1][..0] == b[..0]; }
    assert CountTrue(b[..2]) == 2 by { assert b[..2][..1] == b[..1]; }
    assert CountTrue(b[..3]) == 2 by { assert b[..3][..2] == b[..2]; }
    assert CountTrue(b) == 3 by { assert b[..3] == b[..|b| - 1]; }
  }

  /** The metric bar: 100 minus 50 per tolerance of deviation, clamped. */
  function BarValue(m: QualityMetric): (v: real)
    requires m.tolerance > 0.0
    ensures 0.0 <= v <= 100.0
  {
    Clamp(0.0, 100.0, 100.0 - Tolerance.Deviation(m.current, m.target) / m.tolerance * 50.0)
  }

  /** Full bar on target, half bar at the tolerance edge, empty from twice
      the tolerance on; the bar shrinks as the deviation grows. */
  lemma BarValueShape(m: QualityMetric)
    requires m.tolerance > 0.0
    ensures m.current == m.target ==> BarValue(m) == 100.0
    ensures Tolerance.Deviation(m.current, m.target) == m.tolerance ==> BarValue(m) == 50.0
    ensures Tolerance.Deviation(m.current, m.target) >= 2.0 * m.tolerance ==> BarValue(m) == 0.0
  {
    var d := Tolerance.Deviation(m.current, m.target);
    if d >= 2.0 * m.tolerance {
      DivAtLeast(d, m.tolerance, 2.0);
    }
    if d == m.tolerance {
      DivUnique(d, m.tolerance, 1.0);
    }
  }

  predicate IsDigit(c: char) {
    '0' <= c <= '9'
  }

  /** A ':' immediately followed by a digit starts at k. */
  predicate ColonDigitAt(s: string, k: int) {
    0 <= k && k + 1 < |s| && s[k] == ':' && IsDigit(s[k + 1])
  }

  /** The leftmost place, from `from` on, where the pattern /:\d+/ matches. */
  function FindColonDigit(s: string, from: nat): (r: Option<nat>)
    requires from <= |s|
    ensures r.Some? ==> from <= r.value && ColonDigitAt(s, r.value)
    ensures r.Some? ==> forall k :: from <= k < r.value ==> !ColonDigitAt(s, k)
    ensures r.None? ==> forall k :: from <= k < |s| ==> !ColonDigitAt(s, k)
    decreases |s| - from
  {
    if from == |s| then None
    else if ColonDigitAt(s, from) then Some(from)
    else FindColonDigit(s, from + 1)
  }

  /** End of the run of digits starting at j (the greedy \d+). */
  function DigitRunEnd(s: string, j: nat): (k: nat)
    requires j <= |s|
    ensures j <= k <= |s|
    ensures forall t :: j <= t < k ==> IsDigit(s[t])
    ensures k == |s| || !IsDigit(s[k])
    decreases |s| - j
  {
    if j == |s| || !IsDigit(s[j]) then j else DigitRunEnd(s, j + 1)
  }

  /** `name.replace(/:\d+/, '')`: only the first ':' followed by digits, with
      all the digits after it, is removed; the text before and after stays. */
  function ChartName(name: string): (r: string)
    ensures FindColonDigit(name, 0).None? ==> r == name
    ensures FindColonDigit(name, 0).Some? ==>
      var i := FindColonDigit(name, 0).value;
      i <= |r| <= |name| - 2 && r[..i] == name[..i] &&
      r == name[..i] + name[DigitRunEnd(name, i + 1)..]
  {
    match FindColonDigit(name, 0)
    case None => name
    case Some(i) => name[..i] + name[DigitRunEnd(name, i + 1)..]
  }

  /** What the replacement removes is exactly one ':' and the whole run of
      digits after it, and everything after that run stays. */
  lemma ChartNameRemovesOneRun(name: string)
    requires FindColonDigit(name, 0).Some?
    ensures var i := FindColonDigit(name, 0).value;
      exists e :: i + 2 <= e <= |name| && (forall t :: i + 1 <= t < e ==> IsDigit(name[t])) &&
        (e == |name| || !IsDigit(name[e])) && ChartName(name) == name[..i] + name[e..]
  {
    var i := FindColonDigit(name, 0).value;
    var e := DigitRunEnd(name, i + 1);
    assert IsDigit(name[i + 1]);
    assert i + 2 <= e;
  }

  /** A name without a ':' is shown unchanged. */
  lemma ChartNameWithoutColon(name: string)
    requires forall k :: 0 <= k < |name| ==> name[k] != ':'
    ensures ChartName(name) == name
  {
  }

  /** The seed standards: the year of "ISO 9001:2015" goes, the other names stay. */
  lemma SeedChartNames()
    ensures ChartName("ISO 9001:2015") == "ISO 9001"
    ensures ChartName("ASTM A36") == "ASTM A36"
  {
    var s := "ISO 9001:2015";
    assert ColonDigitAt(s, 8);
    assert forall k :: 0 <= k < 8 ==> s[k] != ':';
    var i := FindColonDigit(s, 0).value;
    assert i == 8;
    assert !IsDigit(s[8]);
    assert DigitRunEnd(s, 9) == 13 by {
      assert IsDigit(s[9]) && IsDigit(s[10]) && IsDigit(s[11]) && IsDigit(s[12]);
    }
    assert s[..8] == "ISO 9001";
    ChartNameWithoutColon("ASTM A36");
  }

  datatype ChartEntry = ChartEntry(name: string, compliance: real, fill: string)

  function Fill(s: ComplianceStatus): string {
    match s
    case Compliant => "#10b981"
    case ComplianceWarning => "#f59e0b"
    case NonCompliant => "#ef4444"
  }

  /** complianceData: one chart entry per standard, in order. */
  function ComplianceData(standards: seq<ComplianceStandard>): (r: seq<ChartEntry>)
    ensures |r| == |standards|
    ensures forall i :: 0 <= i < |r| ==>
      r[i].name == ChartName(standards[i].name) &&
      r[i].compliance == standards[i].compliance &&
      r[i].fill == Fill(standards[i].status)
  {
    seq(|standards|, i requires 0 <= i < |standards| =>
      ChartEntry(ChartName(standards[i].name), standards[i].compliance, Fill(standards[i].status)))
  }

  /** The view's state. */
  class QualityControlView {
    var metrics: seq<QualityMetric>
    var standards: seq<ComplianceStandard>
    var tests: seq<QualityTest>
    var lastUpdated: int

    constructor (now: int)
      ensures metrics == SeedMetrics() && standards == SeedStandards() && tests == SeedTests()
      ensures lastUpdated == now
    {
      metrics := SeedMetrics();
      standards := SeedStandards();
      tests := SeedTests();
      lastUpdated := now;
    }

    /** The 8-second interval callback: metrics move and are re-classified;
        standards and tests are left alone. */
    method Tick(draws: seq<real>, now: int)
      requires |draws| == |metrics| && AllDraws(draws)
      modifies this
      ensures metrics == TickMetrics(old(metrics), draws)
      ensures forall i :: 0 <= i < |metrics| ==> Consistent(metrics[i])
      ensures standards == old(standards) && tests == old(tests)
      ensures lastUpdated == now
    {
      metrics := TickMetrics(metrics, draws);
      lastUpdated := now;
    }
  }
}
