/** The response shaping of the advanced API views: the formatted alloy
    recommendations, the quality analysis over recent process rows and the
    dashboard metrics. Rows arrive as the database query orders them,
    newest first; the query itself is not modelled. */
module AdvancedViews {
  import opened Common
  import AlloyUtils

  /** A view's outcome: a body, 400 Bad Request or 404 Not Found. */
  datatype Response<T> = Ok(body: T) | BadRequest | NotFound

  // ---------------------------------------------------------------------
  // generate_recommendations

  datatype Improvement = Improvement(element: string, from: real, to: real)

  /** One recommendation as the frontend receives it; `id` k stands for the
      string "rec_k". */
  datatype FormattedRecommendation = FormattedRecommendation(
    id: nat,
    alloyType: string,
    quantity: real,
    unit: string,
    confidence: real,
    estimatedCost: real,
    expectedImprovement: seq<Improvement>)

  /** The request body; a composition that is absent or null is `None`. */
  datatype RecommendationRequest = RecommendationRequest(
    targetComposition: Option<seq<(string, real)>>,
    currentComposition: Option<map<string, real>>)

  /** `not target_composition or not current_composition`: absent, null or empty. */
  predicate Incomplete(req: RecommendationRequest): (b: bool)
    ensures !b <==>
      req.targetComposition.Some? && |req.targetComposition.value| > 0 &&
      req.currentComposition.Some? && |req.currentComposition.value| > 0
  {
    req.targetComposition == None || req.targetComposition.value == [] ||
    req.currentComposition == None || req.currentComposition.value == map[]
  }

  /** Reads an addition back out of its formatted form. */
  function Unformat(f: FormattedRecommendation): (rec: Option<AlloyUtils.Addition>)
    ensures rec.Some? <==> |f.expectedImprovement| == 1
  {
    if |f.expectedImprovement| == 1 then
      var e := f.expectedImprovement[0];
      Some(AlloyUtils.Addition(f.alloyType, f.quantity, e.element, e.from, e.to, f.confidence))
    else None
  }

  /** The entry for the addition formatted when `count` entries exist already:
      the id counts from 1, the unit is kg, the cost is 12.5 per kg, and the
      one improvement runs from the current to the target content. */
  function Format(count: nat, rec: AlloyUtils.Addition): (f: FormattedRecommendation)
    ensures Unformat(f) == Some(rec)
    ensures f.id == count + 1 && f.unit == "kg"
    ensures f.estimatedCost == 12.5 * f.quantity
  {
    FormattedRecommendation(count + 1, rec.material, rec.quantity, "kg", rec.confidence,
      rec.quantity * 12.5, [Improvement(rec.element, rec.current, rec.target)])
  }

  /** Every addition formatted, in order. */
  function FormatAll(recs: seq<AlloyUtils.Addition>): (fs: seq<FormattedRecommendation>)
    ensures |fs| == |recs|
    ensures forall k :: 0 <= k < |fs| ==> fs[k].id == k + 1 && Unformat(fs[k]) == Some(recs[k])
  {
    seq(|recs|, k requires 0 <= k < |recs| => Format(k, recs[k]))
  }

  /** The formatting loop: the id is one more than the entries so far. */
  method FormatRecommendations(recs: seq<AlloyUtils.Addition>) returns (formatted: seq<FormattedRecommendation>)
    ensures formatted == FormatAll(recs)
  {
    formatted := [];
    var i := 0;
    while i < |recs|
      invariant 0 <= i <= |recs| && |formatted| == i
      invariant forall k :: 0 <= k < i ==> formatted[k] == Format(k, recs[k])
    {
      formatted := formatted + [Format(|formatted|, recs[i])];
      i := i + 1;
    }
  }

  /** generate_recommendations: 400 for an incomplete request, otherwise the
      first three additions of calculate_alloy_recommendations, formatted. */
  method GenerateRecommendations(req: RecommendationRequest, draws: seq<seq<real>>)
    returns (resp: Response<seq<FormattedRecommendation>>)
    requires req.targetComposition.Some? ==> AlloyUtils.UniformDraws(draws, |req.targetComposition.value|)
    ensures resp.BadRequest? <==> Incomplete(req)
    ensures !Incomplete(req) ==> resp == Ok(FormatAll(AlloyUtils.First3(
      AlloyUtils.AllAdditions(req.targetComposition.value, req.currentComposition.value, draws))))
    ensures resp.Ok? ==> |resp.body| <= 3
  {
    if Incomplete(req) {
      return BadRequest;
    }
    var recs := AlloyUtils.CalculateAlloyRecommendations(req.targetComposition.value, req.currentComposition.value, draws);
    var formatted := FormatRecommendations(recs);
    resp := Ok(formatted);
  }

  // ---------------------------------------------------------------------
  // quality_analysis

  datatype Trend = Stable | Variable

  datatype QualityReport = QualityReport(
    averageQualityScore: real,
    totalSamples: nat,
    qualityTrend: Trend,
    anomaliesDetected: nat,
    anomalies: seq<AlloyUtils.TemperatureAnomaly>)

  predicate HasComposition(row: AlloyUtils.ProcessData) {
    row.compositionData != map[]
  }

  /** The 316L scores of the rows that hold composition data, in row order. */
  function CompositionScores(rows: seq<AlloyUtils.ProcessData>): (scores: seq<real>)
    ensures |scores| <= |rows|
    ensures forall j :: 0 <= j < |scores| ==> 50.0 <= scores[j] <= 100.0
  {
    if rows == [] then []
    else
      var front := CompositionScores(rows[..|rows| - 1]);
      var row := rows[|rows| - 1];
      if HasComposition(row) then
        AlloyUtils.QualityScoreRange(row.compositionData, "316L");
        front + [AlloyUtils.QualityScore(row.compositionData, "316L")]
      else front
  }

  /** No score is collected exactly when no row holds composition data. */
  lemma {:induction false} CompositionScoresEmpty(rows: seq<AlloyUtils.ProcessData>)
    ensures CompositionScores(rows) == [] <==> forall i :: 0 <= i < |rows| ==> !HasComposition(rows[i])
    decreases |rows|
  {
    if rows != [] {
      var front := rows[..|rows| - 1];
      CompositionScoresEmpty(front);
      assert forall i :: 0 <= i < |front| ==> front[i] == rows[i];
    }
  }

  /** `sum(scores) / len(scores) if scores else 0`. */
  function AverageQuality(scores: seq<real>): (a: real)
    ensures scores == [] ==> a == 0.0
    ensures scores != [] ==> a * |scores| as real == Sum(scores)
  {
    if scores == [] then 0.0 else Sum(scores) / |scores| as real
  }

  /** The average is 0 exactly when no row holds composition data, and
      otherwise a quality score in [50, 100]. */
  lemma AverageQualityOfRows(rows: seq<AlloyUtils.ProcessData>)
    ensures var a := AverageQuality(CompositionScores(rows));
      (a == 0.0 <==> forall i :: 0 <= i < |rows| ==> !HasComposition(rows[i])) &&
      (CompositionScores(rows) != [] ==> 50.0 <= a <= 100.0)
  {
    var scores := CompositionScores(rows);
    CompositionScoresEmpty(rows);
    if scores != [] {
      MeanBounds(scores, 50.0, 100.0);
      assert AverageQuality(scores) == Mean(scores).value;
    }
  }

  /** `quality_scores[-5:]`: the whole list when it is shorter than five. */
  function LastFive<T>(s: seq<T>): (r: seq<T>)
    ensures |r| == if |s| < 5 then |s| else 5
    ensures r == s[|s| - |r|..]
  {
    if |s| <= 5 then s else s[|s| - 5..]
  }

  function Distinct(s: seq<real>): set<real> {
    set x | x in s
  }

  /** 'stable' when the last five scores hold fewer than three distinct
      values; fewer than three scores are always stable. */
  function TrendOf(scores: seq<real>): (t: Trend)
    ensures |scores| < 3 ==> t == Stable
  {
    DistinctAtMostLength(LastFive(scores));
    if |Distinct(LastFive(scores))| < 3 then Stable else Variable
  }

  lemma {:induction false} DistinctAtMostLength(s: seq<real>)
    ensures |Distinct(s)| <= |s|
    decreases |s|
  {
    if s != [] {
      var front := s[..|s| - 1];
      DistinctAtMostLength(front);
      assert Distinct(s) == Distinct(front) + {s[|s| - 1]};
    }
  }

  lemma SubsetCardinality(a: set<real>, b: set<real>)
    requires a <= b
    ensures |a| <= |b|
  {
    assert b == a + (b - a);
    assert a * (b - a) == {};
  }

  /** Last five scores that take at most two values read as stable. */
  lemma TwoValuesStable(scores: seq<real>, x: real, y: real)
    requires forall i :: |scores| - 5 <= i < |scores| && 0 <= i ==> scores[i] == x || scores[i] == y
    ensures TrendOf(scores) == Stable
  {
    var last := LastFive(scores);
    forall v | v in Distinct(last)
      ensures v in {x, y}
    {
      var k :| 0 <= k < |last| && last[k] == v;
      assert last[k] == scores[|scores| - |last| + k];
    }
    SubsetCardinality(Distinct(last), {x, y});
  }

  /** Three pairwise different values among the last five scores read as variable. */
  lemma ThreeValuesVariable(scores: seq<real>, i: int, j: int, k: int)
    requires 0 <= i < |scores| && 0 <= j < |scores| && 0 <= k < |scores|
    requires |scores| - 5 <= i && |scores| - 5 <= j && |scores| - 5 <= k
    requires scores[i] != scores[j] && scores[j] != scores[k] && scores[i] != scores[k]
    ensures TrendOf(scores) == Variable
  {
    var last := LastFive(scores);
    var off := |scores| - |last|;
    InDistinct(scores, last, off, i);
    InDistinct(scores, last, off, j);
    InDistinct(scores, last, off, k);
    ThreeMembers(scores[i], scores[j], scores[k], Distinct(last));
  }

  /** A score at index `n` of the last five is among their distinct values. */
  lemma InDistinct(scores: seq<real>, last: seq<real>, off: int, n: int)
    requires last == LastFive(scores) && off == |scores| - |last|
    requires off <= n < |scores|
    ensures scores[n] in Distinct(last)
  {
    assert last[n - off] == scores[n];
  }

  /** A set holding three pairwise different values has at least three members. */
  lemma ThreeMembers(x: real, y: real, z: real, d: set<real>)
    requires x in d && y in d && z in d
    requires x != y && y != z && x != z
    ensures |d| >= 3
  {
    var three := {x, y} + {z};
    assert |{x, y}| == 2 by {
      assert {x, y} == {x} + {y};
    }
    assert z !in {x, y};
    SubsetCardinality(three, d);
  }

  /** The rows oldest first. */
  function Chronological<T>(rows: seq<T>): (r: seq<T>)
    ensures |r| == |rows|
    ensures forall i :: 0 <= i < |rows| ==> r[i] == rows[|rows| - 1 - i]
  {
    seq(|rows|, i requires 0 <= i < |rows| => rows[|rows| - 1 - i])
  }

  /** The scoring loop over the rows. */
  method ScoreRows(rows: seq<AlloyUtils.ProcessData>) returns (scores: seq<real>)
    ensures scores == CompositionScores(rows)
  {
    scores := [];
    var i := 0;
    while i < |rows|
      invariant 0 <= i <= |rows|
      invariant scores == CompositionScores(rows[..i])
    {
      assert rows[..i + 1][..i] == rows[..i];
      var row := rows[i];
      if row.compositionData != map[] {
        var score := AlloyUtils.CalculateQualityScore(row.compositionData, "316L");
        scores := scores + [score];
      }
      i := i + 1;
    }
    assert rows[..i] == rows;
  }

  /** The body of quality_analysis, with `readings` the rows in the order
      the trend and detect_anomalies see them: 404 when there are no rows;
      otherwise the average 316L score of the rows, and the trend of the
      last five scores and the anomalies of `readings`. */
  method AnalyseRows(rows: seq<AlloyUtils.ProcessData>, readings: seq<AlloyUtils.ProcessData>)
    returns (resp: Response<QualityReport>)
    ensures resp.NotFound? <==> rows == []
    ensures rows != [] ==> resp.Ok?
    ensures resp.Ok? ==> resp.body == QualityReport(
      AverageQuality(CompositionScores(rows)), |rows|, TrendOf(CompositionScores(readings)),
      |AlloyUtils.Anomalies(readings)|, AlloyUtils.Anomalies(readings))
  {
    if rows == [] {
      return NotFound;
    }
    var scores := ScoreRows(rows);
    var average := if scores == [] then 0.0 else Sum(scores) / |scores| as real;
    var ordered := ScoreRows(readings);
    var trend := if |Distinct(LastFive(ordered))| < 3 then Stable else Variable;
    var anomalies := AlloyUtils.DetectAnomalies(readings);
    resp := Ok(QualityReport(average, |rows|, trend, |anomalies|, anomalies));
  }

  /** quality_analysis as written: the rows, newest first, go to
      detect_anomalies unchanged, so its last five readings are the five
      oldest. */
  method QualityAnalysis(rows: seq<AlloyUtils.ProcessData>) returns (resp: Response<QualityReport>)
    ensures resp.NotFound? <==> rows == []
    ensures rows != [] ==> resp.Ok?
    ensures resp.Ok? ==> resp.body == QualityReport(
      AverageQuality(CompositionScores(rows)), |rows|, TrendOf(CompositionScores(rows)),
      |AlloyUtils.Anomalies(rows)|, AlloyUtils.Anomalies(rows))
  {
    resp := AnalyseRows(rows, rows);
  }

  /** quality_analysis corrected: the rows are put in time order before the
      trend and detect_anomalies, so that the last five scores and the last
      five readings are the newest five. */
  method QualityAnalysisInTimeOrder(rows: seq<AlloyUtils.ProcessData>) returns (resp: Response<QualityReport>)
    ensures resp.NotFound? <==> rows == []
    ensures rows != [] ==> resp.Ok?
    ensures resp.Ok? ==> resp.body == QualityReport(
      AverageQuality(CompositionScores(rows)), |rows|, TrendOf(CompositionScores(Chronological(rows))),
      |AlloyUtils.Anomalies(Chronological(rows))|, AlloyUtils.Anomalies(Chronological(rows)))
  {
    resp := AnalyseRows(rows, Chronological(rows));
  }

  /** Putting a concatenation in time order puts the parts in time order
      and swaps them. */
  lemma ChronologicalAppend(a: seq<real>, b: seq<real>)
    ensures Chronological(a + b) == Chronological(b) + Chronological(a)
  {
    assert |Chronological(a + b)| == |Chronological(b) + Chronological(a)|;
    forall i | 0 <= i < |a + b|
      ensures Chronological(a + b)[i] == (Chronological(b) + Chronological(a))[i]
    {
      if i < |b| {
        assert Chronological(a + b)[i] == b[|b| - 1 - i];
      } else {
        assert Chronological(a + b)[i] == a[|a| + |b| - 1 - i];
      }
    }
  }

  /** Scoring a concatenation scores the parts. */
  lemma {:induction false} CompositionScoresAppend(a: seq<AlloyUtils.ProcessData>, b: seq<AlloyUtils.ProcessData>)
    ensures CompositionScores(a + b) == CompositionScores(a) + CompositionScores(b)
    decreases |b|
  {
    if b == [] {
      assert a + b == a;
    } else {
      var b0 := b[..|b| - 1];
      assert (a + b)[..|a + b| - 1] == a + b0;
      CompositionScoresAppend(a, b0);
    }
  }

  /** The scores of the rows in time order are the newest-first scores
      reversed. */
  lemma {:induction false} ScoresInTimeOrder(rows: seq<AlloyUtils.ProcessData>)
    ensures CompositionScores(Chronological(rows)) == Chronological(CompositionScores(rows))
    decreases |rows|
  {
    if rows != [] {
      var r0, x := rows[..|rows| - 1], rows[|rows| - 1];
      assert rows == r0 + [x];
      assert Chronological(rows) == [x] + Chronological(r0);
      ScoresInTimeOrder(r0);
      CompositionScoresAppend([x], Chronological(r0));
      CompositionScoresAppend(r0, [x]);
      ChronologicalAppend(CompositionScores(r0), CompositionScores([x]));
      assert CompositionScores([x]) == Chronological(CompositionScores([x])) by {
        assert [x][..0] == [];
      }
    }
  }

  /** Eight scores, newest first: the three newest differ, the five oldest
      agree. */
  const ShiftScores: seq<real> := [50.0, 75.0, 100.0, 100.0, 100.0, 100.0, 100.0, 100.0]

  /** As written, rows scoring ShiftScores newest first read as stable: the
      last five scores of the list are the five oldest. */
  lemma NewestScoresMissedAsWritten(rows: seq<AlloyUtils.ProcessData>)
    requires CompositionScores(rows) == ShiftScores
    ensures TrendOf(CompositionScores(rows)) == Stable
  {
    TwoValuesStable(ShiftScores, 100.0, 100.0);
  }

  /** In time order, the same rows read as variable: the three newest scores
      are among the last five. */
  lemma NewestScoresSeenInTimeOrder(rows: seq<AlloyUtils.ProcessData>)
    requires CompositionScores(rows) == ShiftScores
    ensures TrendOf(CompositionScores(Chronological(rows))) == Variable
  {
    ScoresInTimeOrder(rows);
    var r := Chronological(ShiftScores);
    assert r[5] == 100.0 && r[6] == 75.0 && r[7] == 50.0;
    ThreeValuesVariable(r, 5, 6, 7);
  }

  /** In time order, every reported anomaly is one of the five newest rows. */
  lemma AnomaliesAreNewest(rows: seq<AlloyUtils.ProcessData>)
    ensures forall j :: 0 <= j < |AlloyUtils.Anomalies(Chronological(rows))| ==>
      NewestReading(rows, AlloyUtils.Anomalies(Chronological(rows))[j])
  {
    var c := Chronological(rows);
    var r := AlloyUtils.Anomalies(c);
    if |rows| >= 10 {
      var ts := AlloyUtils.Temperatures(c);
      var m, v := AlloyUtils.MeanOf(ts), AlloyUtils.Variance(ts);
      var last := c[|c| - 5..];
      forall j | 0 <= j < |r|
        ensures NewestReading(rows, r[j])
      {
        FlaggedIsNewest(rows, last, m, v, r[j]);
      }
    }
  }

  /** A row flagged among the last five in time order is one of the five newest. */
  lemma FlaggedIsNewest(rows: seq<AlloyUtils.ProcessData>, last: seq<AlloyUtils.ProcessData>,
                        m: real, v: real, a: AlloyUtils.TemperatureAnomaly)
    requires |rows| >= 5 && last == Chronological(rows)[|rows| - 5..]
    requires AlloyUtils.FlaggedAmong(last, m, v, a)
    ensures NewestReading(rows, a)
  {
    var i :| 0 <= i < |last| && AlloyUtils.Flagged(last[i].temperature, m, v) &&
      a == AlloyUtils.AnomalyOf(last[i], m, v);
    assert last[i] == rows[4 - i];
    assert Reports(rows[4 - i], a);
  }

  /** `a` reports the furnace, time and temperature of one of the five newest rows. */
  predicate NewestReading(rows: seq<AlloyUtils.ProcessData>, a: AlloyUtils.TemperatureAnomaly) {
    exists i :: 0 <= i < 5 && i < |rows| && Reports(rows[i], a)
  }

  predicate Reports(row: AlloyUtils.ProcessData, a: AlloyUtils.TemperatureAnomaly) {
    a.furnaceId == row.furnaceId && a.timestamp == row.timestamp && a.value == row.temperature
  }

  /** A reading of furnace F1 with no composition or score. */
  function Reading(t: int, temperature: real): AlloyUtils.ProcessData {
    AlloyUtils.ProcessData("F1", t, temperature, map[], None)
  }

  /** Twelve rows, newest first: the newest reads 12, the eleven older ones 0. */
  function NewestOutlierRows(): seq<AlloyUtils.ProcessData> {
    seq(12, i requires 0 <= i < 12 => Reading(12 - i, if i == 0 then 12.0 else 0.0))
  }

  /** Twelve temperatures, one of them 12 and the rest 0, have mean 1 and
      variance 11. */
  lemma OneOutlierStatistics(ts: seq<real>, k: int)
    requires |ts| == 12 && 0 <= k < 12 && ts[k] == 12.0
    requires forall i :: 0 <= i < 12 && i != k ==> ts[i] == 0.0
    ensures AlloyUtils.MeanOf(ts) == 1.0 && AlloyUtils.Variance(ts) == 11.0
  {
    var rest := ts[..k] + ts[k + 1..];
    assert forall i :: 0 <= i < |rest| ==> rest[i] == 0.0 by {
      forall i | 0 <= i < |rest|
        ensures rest[i] == 0.0
      {
        if i < k {
          assert rest[i] == ts[i];
        } else {
          assert rest[i] == ts[i + 1];
        }
      }
    }
    SumZeroIffAllZero(rest);
    AlloyUtils.RemoveOneSum(ts, k);
    assert AlloyUtils.MeanOf(ts) == 1.0;
    var ds := AlloyUtils.Deviations(ts, 1.0);
    var others := ds[..k] + ds[k + 1..];
    forall i | 0 <= i < |others|
      ensures others[i] == -1.0
    {
      if i < k {
        assert others[i] == ds[i];
      } else {
        assert others[i] == ds[i + 1];
      }
    }
    AlloyUtils.RemoveOneSquares(ds, k);
    AlloyUtils.SumSquaresSingleton(ds[k]);
    UnitSquares(others);
    assert AlloyUtils.SumSquares(ds) == 132.0;
  }

  /** Entries of magnitude one have as many units of square as entries. */
  lemma {:induction false} UnitSquares(xs: seq<real>)
    requires forall i :: 0 <= i < |xs| ==> xs[i] == -1.0
    ensures AlloyUtils.SumSquares(xs) == |xs| as real
    decreases |xs|
  {
    if xs != [] {
      UnitSquares(xs[..|xs| - 1]);
    }
  }

  /** As written, detect_anomalies is handed the rows newest first, so its
      last five readings are the five oldest and the fresh outlier goes
      unreported. */
  lemma NewestOutlierMissedAsWritten()
    ensures AlloyUtils.Anomalies(NewestOutlierRows()) == []
  {
    var rows := NewestOutlierRows();
    var ts := AlloyUtils.Temperatures(rows);
    OneOutlierStatistics(ts, 0);
    var last := rows[7..];
    assert forall i :: 0 <= i < |last| ==> last[i].temperature == 0.0;
  }

  /** In time order the same outlier is the newest reading and is reported,
      as a medium anomaly (121 > 9 * 11, but not > 16 * 11). */
  lemma NewestOutlierFlagged()
    ensures AlloyUtils.Anomalies(Chronological(NewestOutlierRows())) ==
      [AlloyUtils.TemperatureAnomaly("F1", 12, 12.0, AlloyUtils.Medium)]
  {
    var c := Chronological(NewestOutlierRows());
    var ts := AlloyUtils.Temperatures(c);
    OneOutlierStatistics(ts, 11);
    var last := c[7..];
    assert last[4] == Reading(12, 12.0);
    assert forall i :: 0 <= i < 4 ==> last[i].temperature == 0.0;
    OnlyLastFlagged(last, 1.0, 11.0);
  }

  /** Five rows of which only the last is flagged yield that one anomaly. */
  lemma OnlyLastFlagged(last: seq<AlloyUtils.ProcessData>, m: real, v: real)
    requires |last| == 5 && AlloyUtils.Flagged(last[4].temperature, m, v)
    requires forall i :: 0 <= i < 4 ==> !AlloyUtils.Flagged(last[i].temperature, m, v)
    ensures AlloyUtils.FlagRows(last, m, v) == [AlloyUtils.AnomalyOf(last[4], m, v)]
  {
    var front := last[..4];
    assert forall i :: 0 <= i < |front| ==> !AlloyUtils.Flagged(front[i].temperature, m, v);
    assert AlloyUtils.FlagRows(front, m, v) == [];
  }

  // ---------------------------------------------------------------------
  // dashboard_metrics

  datatype Activity = Activity(time: int, furnace: string, temperature: real, quality: real)

  datatype DashboardMetrics = DashboardMetrics(
    productionEfficiency: real,
    activeAlerts: nat,
    lowStockItems: nat,
    furnacesOnline: nat,
    recentActivity: seq<Activity>)

  /** `quality_score or 85`: a missing or zero score reads as 85. */
  function ScoreOr85(q: Option<real>): (s: real)
    ensures q == None || q == Some(0.0) ==> s == 85.0
    ensures q != None && q != Some(0.0) ==> Some(s) == q
  {
    if q.None? || q.value == 0.0 then 85.0 else q.value
  }

  function DashboardScores(recent: seq<AlloyUtils.ProcessData>): (scores: seq<real>)
    ensures |scores| == |recent|
    ensures forall i :: 0 <= i < |recent| ==> scores[i] == ScoreOr85(recent[i].qualityScore)
  {
    seq(|recent|, i requires 0 <= i < |recent| => ScoreOr85(recent[i].qualityScore))
  }

  /** The production efficiency: the mean score of the recent rows, 85 with none. */
  function ProductionEfficiency(recent: seq<AlloyUtils.ProcessData>): (e: real)
    ensures recent == [] ==> e == 85.0
  {
    if recent == [] then 85.0 else Sum(DashboardScores(recent)) / |recent| as real
  }

  /** Stored scores in [lo, hi], with 85 in that band too, keep the
      efficiency in [lo, hi]. */
  lemma EfficiencyBounds(recent: seq<AlloyUtils.ProcessData>, lo: real, hi: real)
    requires lo <= 85.0 <= hi
    requires forall i :: 0 <= i < |recent| && recent[i].qualityScore.Some? ==> lo <= recent[i].qualityScore.value <= hi
    ensures lo <= ProductionEfficiency(recent) <= hi
  {
    if recent != [] {
      MeanBounds(DashboardScores(recent), lo, hi);
    }
  }

  /** Rows without a stored score give exactly 85. */
  lemma UnscoredEfficiency(recent: seq<AlloyUtils.ProcessData>)
    requires forall i :: 0 <= i < |recent| ==> recent[i].qualityScore == None
    ensures ProductionEfficiency(recent) == 85.0
  {
    EfficiencyBounds(recent, 85.0, 85.0);
  }

  /** The dashboard's efficiency stays in any band holding 85 and every
      stored score of the rows. */
  lemma DashboardEfficiencyBounds(rows: seq<AlloyUtils.ProcessData>, isResolved: seq<bool>,
                                  quantities: seq<real>, lo: real, hi: real)
    requires lo <= 85.0 <= hi
    requires forall i :: 0 <= i < |rows| && rows[i].qualityScore.Some? ==> lo <= rows[i].qualityScore.value <= hi
    ensures lo <= Dashboard(rows, isResolved, quantities).productionEfficiency <= hi
  {
    EfficiencyBounds(rows[..if |rows| < 10 then |rows| else 10], lo, hi);
  }

  function ActivityOf(row: AlloyUtils.ProcessData): Activity {
    Activity(row.timestamp, row.furnaceId, row.temperature, ScoreOr85(row.qualityScore))
  }

  function Unresolved(isResolved: seq<bool>): (flags: seq<bool>)
    ensures |flags| == |isResolved|
    ensures forall i :: 0 <= i < |flags| ==> flags[i] == !isResolved[i]
  {
    seq(|isResolved|, i requires 0 <= i < |isResolved| => !isResolved[i])
  }

  function LowStock(quantities: seq<real>): (flags: seq<bool>)
    ensures |flags| == |quantities|
    ensures forall i :: 0 <= i < |flags| ==> flags[i] == (quantities[i] < 100.0)
  {
    seq(|quantities|, i requires 0 <= i < |quantities| => quantities[i] < 100.0)
  }

  /** dashboard_metrics: the ten newest rows (newest first), the resolution
      flags of every alert and the quantity of every inventory item. */
  function Dashboard(rows: seq<AlloyUtils.ProcessData>, isResolved: seq<bool>, quantities: seq<real>)
    : (d: DashboardMetrics)
    ensures d.productionEfficiency == ProductionEfficiency(rows[..if |rows| < 10 then |rows| else 10])
    ensures |d.recentActivity| == if |rows| < 5 then |rows| else 5
    ensures forall i :: 0 <= i < |d.recentActivity| ==> d.recentActivity[i] == ActivityOf(rows[i])
    ensures d.activeAlerts <= |isResolved| && d.lowStockItems <= |quantities|
    ensures d.activeAlerts == 0 <==> forall i :: 0 <= i < |isResolved| ==> isResolved[i]
    ensures d.lowStockItems == 0 <==> forall i :: 0 <= i < |quantities| ==> quantities[i] >= 100.0
    ensures d.furnacesOnline == 3
  {
    var recent := rows[..if |rows| < 10 then |rows| else 10];
    var shown := recent[..if |recent| < 5 then |recent| else 5];
    CountTrueAtMostLength(Unresolved(isResolved));
    CountTrueAtMostLength(LowStock(quantities));
    CountTrueNone(Unresolved(isResolved));
    CountTrueNone(LowStock(quantities));
    DashboardMetrics(
      ProductionEfficiency(recent),
      CountTrue(Unresolved(isResolved)),
      CountTrue(LowStock(quantities)),
      3,
      seq(|shown|, i requires 0 <= i < |shown| => ActivityOf(shown[i])))
  }
}
