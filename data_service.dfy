/** The client data service: the recommendation it computes from a target
    and a current composition, the system analytics it reduces from the
    process readings, active alerts and stored recommendations, and the mock
    data it falls back on when the database cannot be reached. */
module DataService {
  import opened Common

  /** A row identifier: one assigned by the database, or one of the mock
      ids `mock-<i>`, `mock-rec-<i>` and `mock-alert-<i>`, kept apart by kind. */
  datatype RowId = Stored(key: string) | MockId(index: nat) | MockRecId(index: nat) | MockAlertId(index: nat)

  /** A process reading; times are in milliseconds. */
  datatype ProcessReading = ProcessReading(
    id: RowId,
    timestamp: int,
    furnaceId: string,
    temperature: real,
    pressure: real,
    oxygenLevel: real,
    composition: map<string, real>,
    qualityScore: Option<real>)

  datatype ElementAdjustment = ElementAdjustment(element: string, adjustment: real, confidence: real)

  /** A stored or generated recommendation. The target composition keeps the
      order of its keys, which is the order of the adjustments. */
  datatype AlloyRecommendation = AlloyRecommendation(
    id: RowId,
    targetComposition: seq<(string, real)>,
    currentComposition: map<string, real>,
    recommendations: seq<ElementAdjustment>,
    costImpact: real,
    qualityImprovement: real,
    createdAt: int)

  datatype AlertSeverity = SeverityLow | SeverityMedium | SeverityHigh | SeverityCritical

  datatype Alert = Alert(
    id: RowId,
    title: string,
    message: string,
    severity: AlertSeverity,
    source: string,
    isResolved: bool,
    createdAt: int,
    resolvedAt: Option<int>)

  /** One adjustment per target element, in key order: what has to be added
      to the current content to reach the target, with a confidence of
      Math.random() * 20 + 80. */
  function Adjustments(target: seq<(string, real)>, current: map<string, real>, confidenceDraws: seq<real>)
    : (adj: seq<ElementAdjustment>)
    requires |confidenceDraws| == |target| && AllDraws(confidenceDraws)
    ensures |adj| == |target|
    ensures forall i :: 0 <= i < |adj| ==>
      adj[i].element == target[i].0 &&
      LookupOr0(current, target[i].0) + adj[i].adjustment == target[i].1 &&
      80.0 <= adj[i].confidence < 100.0
  {
    seq(|target|, i requires 0 <= i < |target| =>
      ElementAdjustment(target[i].0, target[i].1 - LookupOr0(current, target[i].0),
                        confidenceDraws[i] * 20.0 + 80.0))
  }

  function AbsCosts(adj: seq<ElementAdjustment>): seq<real> {
    seq(|adj|, i requires 0 <= i < |adj| => Abs(adj[i].adjustment) * 10.0)
  }

  /** costImpact: ten per unit of absolute adjustment; zero exactly when no
      element needs adjusting. */
  function CostImpact(adj: seq<ElementAdjustment>): (cost: real)
    ensures cost >= 0.0
    ensures cost == 0.0 <==> forall i :: 0 <= i < |adj| ==> adj[i].adjustment == 0.0
  {
    var costs := AbsCosts(adj);
    SumAtLeast(costs, 0.0);
    SumZeroIffAllZero(costs);
    assert forall i :: 0 <= i < |adj| ==> (costs[i] == 0.0 <==> adj[i].adjustment == 0.0);
    Sum(costs)
  }

  /** generateRecommendation, without the database insert; the identifier and
      the creation time are supplied by the caller. */
  function GenerateRecommendation(
    target: seq<(string, real)>, current: map<string, real>,
    confidenceDraws: seq<real>, qualityDraw: real, id: RowId, now: int): (rec: AlloyRecommendation)
    requires |confidenceDraws| == |target| && AllDraws(confidenceDraws) && IsDraw(qualityDraw)
    ensures rec.targetComposition == target && rec.currentComposition == current
    ensures rec.recommendations == Adjustments(target, current, confidenceDraws)
    ensures rec.costImpact >= 0.0
    ensures rec.costImpact == 0.0 <==>
      forall i :: 0 <= i < |target| ==> LookupOr0(current, target[i].0) == target[i].1
    ensures 5.0 <= rec.qualityImprovement < 20.0
    ensures rec.id == id && rec.createdAt == now
  {
    var adj := Adjustments(target, current, confidenceDraws);
    AlloyRecommendation(id, target, current, adj, CostImpact(adj), qualityDraw * 15.0 + 5.0, now)
  }

  /** The score a reading contributes to the average: a missing one counts 0. */
  function ScoreOrZero(r: ProcessReading): real {
    match r.qualityScore
    case None => 0.0
    case Some(q) => q
  }

  function Scores(readings: seq<ProcessReading>): seq<real> {
    seq(|readings|, i requires 0 <= i < |readings| => ScoreOrZero(readings[i]))
  }

  /** avgQuality: the mean score, where an empty reading list gives NaN and
      `|| 0` turns it into 0. */
  function AvgQuality(readings: seq<ProcessReading>): (avg: real)
    ensures readings == [] ==> avg == 0.0
  {
    match Mean(Scores(readings))
    case None => 0.0
    case Some(m) => m
  }

  /** Readings whose scores all lie in [lo, hi] average in [lo, hi]. */
  lemma AvgQualityBounds(readings: seq<ProcessReading>, lo: real, hi: real)
    requires readings != []
    requires forall i :: 0 <= i < |readings| ==> lo <= ScoreOrZero(readings[i]) <= hi
    ensures lo <= AvgQuality(readings) <= hi
  {
    MeanBounds(Scores(readings), lo, hi);
  }

  function IsCriticalAlert(alerts: seq<Alert>): seq<bool> {
    seq(|alerts|, i requires 0 <= i < |alerts| => alerts[i].severity == SeverityCritical)
  }

  /** criticalAlerts: among the active alerts, those of critical severity. */
  function CriticalAlerts(alerts: seq<Alert>): (n: nat)
    ensures n <= |alerts|
    ensures n == 0 <==> forall i :: 0 <= i < |alerts| ==> alerts[i].severity != SeverityCritical
  {
    CountTrueAtMostLength(IsCriticalAlert(alerts));
    CountTrueNone(IsCriticalAlert(alerts));
    assert forall i :: 0 <= i < |alerts| ==>
      (IsCriticalAlert(alerts)[i] <==> alerts[i].severity == SeverityCritical);
    CountTrue(IsCriticalAlert(alerts))
  }

  function Confidences(adj: seq<ElementAdjustment>): seq<real> {
    seq(|adj|, i requires 0 <= i < |adj| => adj[i].confidence)
  }

  /** The per-recommendation mean confidences, or None as soon as one
      recommendation has no adjustments: its 0/0 is NaN, and NaN poisons the
      outer sum. */
  function MeanConfidences(recs: seq<AlloyRecommendation>): (ms: Option<seq<real>>)
    ensures ms.Some? <==> forall i :: 0 <= i < |recs| ==> recs[i].recommendations != []
    ensures ms.Some? ==> |ms.value| == |recs|
    ensures ms.Some? ==> forall i :: 0 <= i < |recs| ==>
      ms.value[i] == Mean(Confidences(recs[i].recommendations)).value
  {
    if recs == [] then Some([])
    else
      var front := MeanConfidences(recs[..|recs| - 1]);
      var last := Mean(Confidences(recs[|recs| - 1].recommendations));
      if front.Some? && last.Some? then Some(front.value + [last.value]) else None
  }

  /** avgConfidence: the mean over recommendations of their mean confidence;
      NaN (no recommendations, or one without adjustments) becomes 0. */
  function AvgConfidence(recs: seq<AlloyRecommendation>): (avg: real)
    ensures recs == [] ==> avg == 0.0
    ensures (exists i :: 0 <= i < |recs| && recs[i].recommendations == []) ==> avg == 0.0
  {
    match MeanConfidences(recs)
    case None => 0.0
    case Some(ms) =>
      match Mean(ms)
      case None => 0.0
      case Some(m) => m
  }

  /** When every recommendation has adjustments whose confidences lie in
      [lo, hi], the average confidence lies in [lo, hi] too. */
  lemma AvgConfidenceBounds(recs: seq<AlloyRecommendation>, lo: real, hi: real)
    requires recs != []
    requires forall i :: 0 <= i < |recs| ==> recs[i].recommendations != []
    requires forall i, j :: 0 <= i < |recs| && 0 <= j < |recs[i].recommendations| ==>
      lo <= recs[i].recommendations[j].confidence <= hi
    ensures lo <= AvgConfidence(recs) <= hi
  {
    var ms := MeanConfidences(recs).value;
    forall i | 0 <= i < |recs|
      ensures lo <= ms[i] <= hi
    {
      var cs := Confidences(recs[i].recommendations);
      assert forall j :: 0 <= j < |cs| ==> cs[j] == recs[i].recommendations[j].confidence;
      MeanBounds(cs, lo, hi);
    }
    MeanBounds(ms, lo, hi);
  }

  datatype SystemAnalytics = SystemAnalytics(
    totalReadings: nat,
    avgQuality: real,
    criticalAlerts: nat,
    avgConfidence: real,
    systemUptime: real,
    energyEfficiency: real,
    costSavings: real)

  /** getSystemAnalytics over the three fetched lists; uptime, efficiency and
      savings are fixed figures. */
  function GetSystemAnalytics(readings: seq<ProcessReading>, alerts: seq<Alert>, recs: seq<AlloyRecommendation>)
    : (a: SystemAnalytics)
    ensures a.totalReadings == |readings|
    ensures a.criticalAlerts <= |alerts|
    ensures readings == [] ==> a.avgQuality == 0.0
    ensures recs == [] ==> a.avgConfidence == 0.0
    ensures a.systemUptime == 99.2 && a.energyEfficiency == 87.5 && a.costSavings == 1250.30
  {
    SystemAnalytics(|readings|, AvgQuality(readings), CriticalAlerts(alerts), AvgConfidence(recs),
                    99.2, 87.5, 1250.30)
  }

  /** The outcome of a database query: an error, or possibly-null data. */
  datatype Fetched<T> = FetchError | FetchOk(data: Option<T>)

  /** `if (error) return mock; return data || mock`: an error or null data
      gives the mock data; an empty list is data and is kept. */
  function OrMock<T>(res: Fetched<T>, mock: T): (r: T)
    ensures res.FetchError? ==> r == mock
    ensures res.FetchOk? && res.data.None? ==> r == mock
    ensures res.FetchOk? && res.data.Some? ==> r == res.data.value
  {
    match res
    case FetchError => mock
    case FetchOk(None) => mock
    case FetchOk(Some(d)) => d
  }

  /** The draws one mock reading consumes: temperature, pressure, oxygen,
      C, Si, Mn, Cr and quality, in that order. */
  predicate ReadingDraws(d: seq<real>) {
    |d| == 8 && AllDraws(d)
  }

  function MockReading(now: int, i: nat, d: seq<real>): (r: ProcessReading)
    requires ReadingDraws(d)
    ensures r.id == MockId(i) && r.timestamp == now - i * 300000
    ensures 1640.0 <= r.temperature < 1660.0
    ensures r.qualityScore.Some? && 85.0 <= r.qualityScore.value < 100.0
  {
    ProcessReading(
      MockId(i), now - i * 300000, "FURNACE_001",
      1650.0 + d[0] * 20.0 - 10.0,
      2.5 + d[1] * 0.5 - 0.25,
      125.0 + d[2] * 10.0 - 5.0,
      map["C" := 3.5 + d[3] * 0.2 - 0.1, "Si" := 2.2 + d[4] * 0.3 - 0.15,
          "Mn" := 0.7 + d[5] * 0.1 - 0.05, "Cr" := 0.2 + d[6] * 0.05 - 0.025],
      Some(85.0 + d[7] * 15.0))
  }

  /** getMockProcessData: twenty readings five minutes apart, newest first,
      each with a quality score in [85, 100). */
  function MockProcessData(now: int, draws: seq<seq<real>>): (rs: seq<ProcessReading>)
    requires |draws| == 20 && forall i :: 0 <= i < 20 ==> ReadingDraws(draws[i])
    ensures |rs| == 20
    ensures forall i :: 0 <= i < 20 ==> rs[i].id == MockId(i) && rs[i].timestamp == now - i * 300000
    ensures forall i, j :: 0 <= i < j < 20 ==> rs[i].timestamp > rs[j].timestamp
    ensures forall i :: 0 <= i < 20 ==>
      1640.0 <= rs[i].temperature < 1660.0 &&
      rs[i].qualityScore.Some? && 85.0 <= rs[i].qualityScore.value < 100.0
  {
    seq(20, i requires 0 <= i < 20 => MockReading(now, i, draws[i]))
  }

  /** The one mock recommendation, `mock-rec-1`, ten minutes old, with one
      adjustment per target element. */
  function MockRecommendations(now: int): (recs: seq<AlloyRecommendation>)
    ensures |recs| == 1 && recs[0].id == MockRecId(1) && recs[0].createdAt < now
    ensures |recs[0].recommendations| == |recs[0].targetComposition| == |recs[0].currentComposition|
  {
    [ AlloyRecommendation(
        MockRecId(1),
        [("C", 3.5), ("Si", 2.2), ("Mn", 0.7), ("Cr", 0.2)],
        map["C" := 3.45, "Si" := 2.12, "Mn" := 0.68, "Cr" := 0.18],
        [ ElementAdjustment("C", 0.05, 94.0), ElementAdjustment("Si", 0.08, 89.0),
          ElementAdjustment("Mn", 0.02, 92.0), ElementAdjustment("Cr", 0.02, 87.0) ],
        125.50, 12.5, now - 600000) ]
  }

  /** The two mock alerts, `mock-alert-1` and `mock-alert-2`: both
      unresolved, older than now, and neither critical. */
  function MockAlerts(now: int): (alerts: seq<Alert>)
    ensures |alerts| == 2
    ensures forall i :: 0 <= i < 2 ==>
      alerts[i].id == MockAlertId(i + 1) && !alerts[i].isResolved &&
      alerts[i].createdAt < now && alerts[i].severity != SeverityCritical
  {
    [ Alert(MockAlertId(1), "Temperature Deviation", "Furnace temperature has exceeded normal range",
            SeverityHigh, "FURNACE_001", false, now - 300000, None),
      Alert(MockAlertId(2), "Low Inventory Warning", "Silicon carbide inventory below threshold",
            SeverityMedium, "INVENTORY_SYSTEM", false, now - 900000, None) ]
  }

  /** The mock recommendation's adjustments are its target minus its current
      composition, but its cost impact of 125.5 is not the 1.7 that
      generateRecommendation would compute for them. */
  lemma MockRecommendationCost(now: int)
    ensures var rec := MockRecommendations(now)[0];
      forall i :: 0 <= i < |rec.targetComposition| ==>
        rec.recommendations[i].element == rec.targetComposition[i].0 &&
        LookupOr0(rec.currentComposition, rec.targetComposition[i].0) + rec.recommendations[i].adjustment
          == rec.targetComposition[i].1
    ensures var rec := MockRecommendations(now)[0];
      CostImpact(rec.recommendations) == 1.7 != rec.costImpact
  {
    var rec := MockRecommendations(now)[0];
    var c := AbsCosts(rec.recommendations);
    assert c == [0.5, 0.8, 0.2, 0.2];
    assert Sum(c[..1]) == 0.5 by { assert c[..1][..0] == []; }
    assert Sum(c[..2]) == 1.3 by { assert c[..2][..1] == c[..1]; }
    assert Sum(c[..3]) == 1.5 by { assert c[..3][..2] == c[..2]; }
    assert c[..|c| - 1] == c[..3];
  }

  /** When all three queries fail, the analytics are computed from the mock
      data: 20 readings averaging in [85, 100), no critical alert, and an
      average confidence of 90.5. */
  lemma FallbackAnalytics(now: int, draws: seq<seq<real>>)
    requires |draws| == 20 && forall i :: 0 <= i < 20 ==> ReadingDraws(draws[i])
    ensures var a := GetSystemAnalytics(
        OrMock(FetchError, MockProcessData(now, draws)),
        OrMock(FetchError, MockAlerts(now)),
        OrMock(FetchError, MockRecommendations(now)));
      a.totalReadings == 20 && 85.0 <= a.avgQuality < 100.0 &&
      a.criticalAlerts == 0 && a.avgConfidence == 90.5
  {
    MockAvgQuality(now, draws);
    MockAvgConfidence(now);
  }

  /** The twenty mock readings average in [85, 100). */
  lemma MockAvgQuality(now: int, draws: seq<seq<real>>)
    requires |draws| == 20 && forall i :: 0 <= i < 20 ==> ReadingDraws(draws[i])
    ensures 85.0 <= AvgQuality(MockProcessData(now, draws)) < 100.0
  {
    var rs := MockProcessData(now, draws);
    var scores := Scores(rs);
    assert forall i :: 0 <= i < 20 ==> 85.0 <= scores[i] < 100.0;
    MeanBounds(scores, 85.0, 100.0);
    MeanBelow(scores, 100.0);
  }

  /** The mock recommendation's confidences 94, 89, 92 and 87 average 90.5. */
  lemma MockAvgConfidence(now: int)
    ensures AvgConfidence(MockRecommendations(now)) == 90.5
  {
    var rec := MockRecommendations(now)[0];
    var cs := Confidences(rec.recommendations);
    assert cs == [94.0, 89.0, 92.0, 87.0];
    assert Sum(cs[..1]) == 94.0 by { assert cs[..1][..0] == []; }
    assert Sum(cs[..2]) == 183.0 by { assert cs[..2][..1] == cs[..1]; }
    assert Sum(cs[..3]) == 275.0 by { assert cs[..3][..2] == cs[..2]; }
    assert Sum(cs) == 362.0 by { assert cs[..|cs| - 1] == cs[..3]; }
    var ms := MeanConfidences(MockRecommendations(now)).value;
    assert ms == [90.5];
    assert Sum(ms) == 90.5 by { assert ms[..|ms| - 1] == []; }
  }

  /** A mean of values each below hi is below hi. */
  lemma MeanBelow(scores: seq<real>, hi: real)
    requires scores != []
    requires forall i :: 0 <= i < |scores| ==> scores[i] < hi
    ensures Mean(scores).value < hi
  {
    SumBelow(scores, hi);
    var n := |scores| as real;
    var m := Sum(scores) / n;
    assert m * n == Sum(scores);
  }

  /** A nonempty sum of values each below hi is below |xs|*hi. */
  lemma {:induction false} SumBelow(xs: seq<real>, hi: real)
    requires xs != []
    requires forall i :: 0 <= i < |xs| ==> xs[i] < hi
    ensures Sum(xs) < |xs| as real * hi
    decreases |xs|
  {
    var init := xs[..|xs| - 1];
    if init == [] {
      assert Sum(init) == 0.0;
    } else {
      SumBelow(init, hi);
    }
  }
}
