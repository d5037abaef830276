/** The backend's analysis utilities: alloy additions that move a current
    composition towards a target, a quality score of a composition against
    the ranges of a steel grade, and three-sigma flagging of the most recent
    furnace temperatures. */
module AlloyUtils {
  import opened Common

  // ---------------------------------------------------------------------
  // AlloyOptimizer.calculate_alloy_recommendations

  /** An addition material and its element percentages. */
  datatype Material = Material(name: string, composition: map<string, real>)

  /** The addition materials, in the order they are tried. */
  function AlloyMaterials(): seq<Material> {
    [FeSi75, FeCr65, NiMetal, FeMo60, MnMetal, SiMn6515]
  }

  const FeSi75 := Material("FeSi 75%", map["Si" := 75.0, "Fe" := 25.0])
  const FeCr65 := Material("FeCr 65%", map["Cr" := 65.0, "Fe" := 35.0])
  const NiMetal := Material("Ni Metal", map["Ni" := 99.5, "Fe" := 0.5])
  const FeMo60 := Material("FeMo 60%", map["Mo" := 60.0, "Fe" := 40.0])
  const MnMetal := Material("Mn Metal", map["Mn" := 99.0, "Fe" := 1.0])
  const SiMn6515 := Material("SiMn 65/15", map["Mn" := 65.0, "Si" := 15.0, "Fe" := 20.0])

  /** One recommended addition. */
  datatype Addition = Addition(
    material: string,
    quantity: real,
    element: string,
    current: real,
    target: real,
    confidence: real)

  /** A draw of `random.uniform(0, 15)`. */
  predicate IsUniform15(u: real) {
    0.0 <= u <= 15.0
  }

  /** One draw per element and material, used when that pair yields an addition. */
  predicate UniformDraws(draws: seq<seq<real>>, elements: nat) {
    |draws| == elements &&
    (forall i :: 0 <= i < |draws| ==> |draws[i]| == |AlloyMaterials()|) &&
    (forall i, k :: 0 <= i < |draws| && 0 <= k < |draws[i]| ==> IsUniform15(draws[i][k]))
  }

  /** A material qualifies for an element when it holds more than 50% of it. */
  predicate Qualifies(m: Material, element: string) {
    element in m.composition && m.composition[element] > 50.0
  }

  function QualifyingFlags(materials: seq<Material>, element: string): seq<bool> {
    seq(|materials|, k requires 0 <= k < |materials| => Qualifies(materials[k], element))
  }

  /** `min(95, 80 + random.uniform(0, 15))`. */
  function Confidence(u: real): (c: real)
    requires IsUniform15(u)
    ensures 80.0 <= c <= 95.0
  {
    Min(95.0, 80.0 + u)
  }

  /** The inner loop for one element: every qualifying material, in order,
      whose required quantity is positive. */
  function AdditionsFor(element: string, t: real, c: real, materials: seq<Material>, us: seq<real>)
    : (r: seq<Addition>)
    requires |us| == |materials| && forall k :: 0 <= k < |us| ==> IsUniform15(us[k])
    ensures |r| <= |materials|
    ensures forall j :: 0 <= j < |r| ==>
      r[j].element == element && r[j].current == c && r[j].target == t &&
      r[j].quantity > 0.0 && 80.0 <= r[j].confidence <= 95.0
    decreases |materials|
  {
    if materials == [] then []
    else
      var n := |materials| - 1;
      var front := AdditionsFor(element, t, c, materials[..n], us[..n]);
      var m := materials[n];
      if Qualifies(m, element) && (t - c) / (m.composition[element] / 100.0) > 0.0 then
        front + [Addition(m.name, Abs((t - c) / (m.composition[element] / 100.0)), element, c, t, Confidence(us[n]))]
      else front
  }

  /** Exactly the qualifying materials yield an addition when the element is
      short, and none does when it is not. */
  lemma {:induction false} AdditionsForCount(element: string, t: real, c: real, materials: seq<Material>, us: seq<real>)
    requires |us| == |materials| && forall k :: 0 <= k < |us| ==> IsUniform15(us[k])
    ensures t <= c ==> AdditionsFor(element, t, c, materials, us) == []
    ensures t > c ==> |AdditionsFor(element, t, c, materials, us)| == CountTrue(QualifyingFlags(materials, element))
    decreases |materials|
  {
    if materials != [] {
      var n := |materials| - 1;
      AdditionsForCount(element, t, c, materials[..n], us[..n]);
      assert QualifyingFlags(materials, element)[..n] == QualifyingFlags(materials[..n], element);
      var m := materials[n];
      if Qualifies(m, element) {
        NeededSign(t - c, m.composition[element] / 100.0, (t - c) / (m.composition[element] / 100.0), m.composition[element]);
      }
    }
  }

  /** The addition is the one material `m` yields: `m` qualifies, and the
      quantity carries exactly the missing amount of the element. */
  predicate Explains(m: Material, element: string, t: real, c: real, a: Addition) {
    m.name == a.material && Qualifies(m, element) &&
    a.quantity * m.composition[element] == (t - c) * 100.0
  }

  /** Every addition is explained by one of the materials tried. */
  lemma {:induction false} AdditionsForSound(element: string, t: real, c: real, materials: seq<Material>, us: seq<real>)
    requires |us| == |materials| && forall k :: 0 <= k < |us| ==> IsUniform15(us[k])
    ensures forall j :: 0 <= j < |AdditionsFor(element, t, c, materials, us)| ==>
      exists k :: 0 <= k < |materials| && Explains(materials[k], element, t, c, AdditionsFor(element, t, c, materials, us)[j])
    decreases |materials|
  {
    if materials != [] {
      var n := |materials| - 1;
      AdditionsForSound(element, t, c, materials[..n], us[..n]);
      var r := AdditionsFor(element, t, c, materials, us);
      var front := AdditionsFor(element, t, c, materials[..n], us[..n]);
      var m := materials[n];
      forall j | 0 <= j < |r|
        ensures exists k :: 0 <= k < |materials| && Explains(materials[k], element, t, c, r[j])
      {
        if j < |front| {
          assert r[j] == front[j];
          var k :| 0 <= k < |materials[..n]| && Explains(materials[..n][k], element, t, c, front[j]);
          assert materials[k] == materials[..n][k];
        } else {
          NeededSign(t - c, m.composition[element] / 100.0, (t - c) / (m.composition[element] / 100.0), m.composition[element]);
          assert Explains(materials[n], element, t, c, r[j]);
        }
      }
      assert forall j :: 0 <= j < |r| ==> exists k :: 0 <= k < |materials| && Explains(materials[k], element, t, c, r[j]);
    } else {
      assert AdditionsFor(element, t, c, materials, us) == [];
    }
  }

  /** The required quantity has the sign of the missing amount, and times
      the percentage gives back a hundred times that amount. */
  lemma NeededSign(diff: real, p: real, needed: real, pct: real)
    requires p == pct / 100.0 && pct > 50.0 && needed == diff / p
    ensures needed > 0.0 <==> diff > 0.0
    ensures needed * pct == diff * 100.0
  {
    assert needed * p == diff;
    PositiveScaleSign(needed, p);
    assert pct == p * 100.0;
  }

  /** The additions for one target element: none unless it deviates from
      the current content by more than 0.01. */
  function ElementAdditions(element: string, t: real, current: map<string, real>, us: seq<real>)
    : (r: seq<Addition>)
    requires |us| == |AlloyMaterials()| && forall k :: 0 <= k < |us| ==> IsUniform15(us[k])
    ensures |r| <= |AlloyMaterials()|
    ensures forall j :: 0 <= j < |r| ==>
      r[j].element == element && r[j].current == LookupOr0(current, element) && r[j].target == t &&
      r[j].target - r[j].current > 0.01 && r[j].quantity > 0.0 && 80.0 <= r[j].confidence <= 95.0
  {
    var c := LookupOr0(current, element);
    AdditionsForCount(element, t, c, AlloyMaterials(), us);
    if Abs(t - c) > 0.01 then AdditionsFor(element, t, c, AlloyMaterials(), us) else []
  }

  /** The outer loop: the additions of every target element, in key order. */
  function AllAdditions(target: seq<(string, real)>, current: map<string, real>, draws: seq<seq<real>>)
    : (r: seq<Addition>)
    requires UniformDraws(draws, |target|)
    ensures forall j :: 0 <= j < |r| ==>
      r[j].target - r[j].current > 0.01 && r[j].quantity > 0.0 && 80.0 <= r[j].confidence <= 95.0
  {
    if target == [] then []
    else
      var n := |target| - 1;
      AllAdditions(target[..n], current, draws[..n]) +
      ElementAdditions(target[n].0, target[n].1, current, draws[n])
  }

  /** `recommendations[:3]`. */
  function First3<T>(xs: seq<T>): (r: seq<T>)
    ensures |r| == if |xs| < 3 then |xs| else 3
    ensures r == xs[..|r|]
  {
    if |xs| > 3 then xs[..3] else xs
  }

  /** The inner loop of calculate_alloy_recommendations: append every
      qualifying material's positive addition for one element. */
  method AppendAdditions(recommendations: seq<Addition>, element: string, targetValue: real,
                         currentValue: real, materials: seq<Material>, us: seq<real>)
    returns (result: seq<Addition>)
    requires |us| == |materials| && forall k :: 0 <= k < |us| ==> IsUniform15(us[k])
    ensures result == recommendations + AdditionsFor(element, targetValue, currentValue, materials, us)
  {
    result := recommendations;
    var k := 0;
    while k < |materials|
      invariant 0 <= k <= |materials|
      invariant result == recommendations + AdditionsFor(element, targetValue, currentValue, materials[..k], us[..k])
    {
      var m := materials[k];
      assert materials[..k + 1][..k] == materials[..k];
      assert us[..k + 1][..k] == us[..k];
      if element in m.composition && m.composition[element] > 50.0 {
        var elementNeeded := targetValue - currentValue;
        var materialNeeded := elementNeeded / (m.composition[element] / 100.0);
        if materialNeeded > 0.0 {
          result := result + [Addition(m.name, Abs(materialNeeded), element, currentValue, targetValue,
                                       Confidence(us[k]))];
        }
      }
      k := k + 1;
    }
    assert materials[..k] == materials && us[..k] == us;
  }

  /** calculate_alloy_recommendations: the outer loop over the target
      elements collects every addition, and the first three are returned. */
  method CalculateAlloyRecommendations(target: seq<(string, real)>, current: map<string, real>,
                                       draws: seq<seq<real>>)
    returns (recs: seq<Addition>)
    requires UniformDraws(draws, |target|)
    ensures recs == First3(AllAdditions(target, current, draws))
  {
    var recommendations: seq<Addition> := [];
    var i := 0;
    while i < |target|
      invariant 0 <= i <= |target|
      invariant UniformDraws(draws[..i], i)
      invariant recommendations == AllAdditions(target[..i], current, draws[..i])
    {
      AllAdditionsStep(target, current, draws, i);
      var element := target[i].0;
      var targetValue := target[i].1;
      var currentValue := LookupOr0(current, element);
      if Abs(targetValue - currentValue) > 0.01 {
        recommendations := AppendAdditions(recommendations, element, targetValue, currentValue, AlloyMaterials(), draws[i]);
      }
      i := i + 1;
    }
    assert target[..i] == target && draws[..i] == draws;
    recs := First3(recommendations);
  }

  /** One more target element appends its additions to the outer loop's result. */
  lemma AllAdditionsStep(target: seq<(string, real)>, current: map<string, real>, draws: seq<seq<real>>, i: int)
    requires UniformDraws(draws, |target|) && 0 <= i < |target|
    ensures UniformDraws(draws[..i], i) && UniformDraws(draws[..i + 1], i + 1)
    ensures |draws[i]| == |AlloyMaterials()| && forall k :: 0 <= k < |draws[i]| ==> IsUniform15(draws[i][k])
    ensures var c := LookupOr0(current, target[i].0);
      AllAdditions(target[..i + 1], current, draws[..i + 1]) ==
      AllAdditions(target[..i], current, draws[..i]) +
      (if Abs(target[i].1 - c) > 0.01 then AdditionsFor(target[i].0, target[i].1, c, AlloyMaterials(), draws[i]) else [])
  {
    assert target[..i + 1][..i] == target[..i];
    assert draws[..i + 1][..i] == draws[..i];
  }

  /** Iron is never added: no material holds more than 50% of it. */
  lemma IronNeverAdded(t: real, current: map<string, real>, us: seq<real>)
    requires |us| == |AlloyMaterials()| && forall k :: 0 <= k < |us| ==> IsUniform15(us[k])
    ensures ElementAdditions("Fe", t, current, us) == []
  {
    var flags := QualifyingFlags(AlloyMaterials(), "Fe");
    assert forall k :: 0 <= k < |flags| ==> !flags[k];
    CountTrueNone(flags);
    AdditionsForCount("Fe", t, LookupOr0(current, "Fe"), AlloyMaterials(), us);
  }

  /** Manganese missing from the current composition counts as 0 and is
      offered by two materials, Mn Metal before SiMn 65/15. */
  lemma ManganeseFromNothing(us: seq<real>)
    requires |us| == |AlloyMaterials()| && forall k :: 0 <= k < |us| ==> IsUniform15(us[k])
    ensures var r := ElementAdditions("Mn", 1.0, map[], us);
      |r| == 2 && r[0].material == "Mn Metal" && r[1].material == "SiMn 65/15" &&
      r[0].quantity == 100.0 / 99.0 && r[1].quantity == 100.0 / 65.0 && r[0].current == 0.0
  {
    assert LookupOr0(map[], "Mn") == 0.0;
    var ms := AlloyMaterials();
    ManganeseCarriers();
    assert forall k :: 0 <= k < 4 ==> !Qualifies(ms[k], "Mn");
    TwoLastCarriers("Mn", 1.0, 0.0, ms, us);
    PerUnitQuantity(99.0);
    PerUnitQuantity(65.0);
  }

  /** Walking six materials of which only the last two qualify: each of
      those two yields an addition, in order. */
  lemma TwoLastCarriers(element: string, t: real, c: real, ms: seq<Material>, us: seq<real>)
    requires |us| == |ms| == 6 && forall k :: 0 <= k < |us| ==> IsUniform15(us[k])
    requires t > c
    requires forall k :: 0 <= k < 4 ==> !Qualifies(ms[k], element)
    requires Qualifies(ms[4], element) && Qualifies(ms[5], element)
    ensures var r := AdditionsFor(element, t, c, ms, us);
      |r| == 2 &&
      r[0] == Addition(ms[4].name, Abs((t - c) / (ms[4].composition[element] / 100.0)), element, c, t, Confidence(us[4])) &&
      r[1] == Addition(ms[5].name, Abs((t - c) / (ms[5].composition[element] / 100.0)), element, c, t, Confidence(us[5]))
  {
    AdditionsForCount(element, t, c, ms[..4], us[..4]);
    CountTrueNone(QualifyingFlags(ms[..4], element));
    var p4 := ms[4].composition[element] / 100.0;
    var p5 := ms[5].composition[element] / 100.0;
    NeededSign(t - c, p4, (t - c) / p4, ms[4].composition[element]);
    NeededSign(t - c, p5, (t - c) / p5, ms[5].composition[element]);
    AdditionsForStep(element, t, c, ms, us, 4);
    AdditionsForStep(element, t, c, ms, us, 5);
    TakeAll(ms);
    TakeAll(us);
  }

  /** Raising an element by one point takes 100 / pct of a material holding
      pct percent of it. */
  lemma PerUnitQuantity(pct: real)
    requires pct > 0.0
    ensures (1.0 - 0.0) / (pct / 100.0) == 100.0 / pct > 0.0
    ensures Abs((1.0 - 0.0) / (pct / 100.0)) == 100.0 / pct
  {
    assert (100.0 / pct) * (pct / 100.0) == 1.0;
  }

  lemma TakeAll<T>(s: seq<T>)
    ensures s[..|s|] == s
  {
  }

  /** Only Mn Metal (99%) and SiMn 65/15 (65%) hold more than half manganese. */
  lemma ManganeseCarriers()
    ensures !Qualifies(FeSi75, "Mn") && !Qualifies(FeCr65, "Mn")
    ensures !Qualifies(NiMetal, "Mn") && !Qualifies(FeMo60, "Mn")
    ensures Qualifies(MnMetal, "Mn") && MnMetal.composition["Mn"] == 99.0
    ensures Qualifies(SiMn6515, "Mn") && SiMn6515.composition["Mn"] == 65.0
  {
  }

  /** One more material appends its addition when it qualifies and is needed. */
  lemma AdditionsForStep(element: string, t: real, c: real, materials: seq<Material>, us: seq<real>, k: int)
    requires |us| == |materials| && forall j :: 0 <= j < |us| ==> IsUniform15(us[j])
    requires 0 <= k < |materials|
    ensures var m := materials[k];
      AdditionsFor(element, t, c, materials[..k + 1], us[..k + 1]) ==
      AdditionsFor(element, t, c, materials[..k], us[..k]) +
      (if Qualifies(m, element) && (t - c) / (m.composition[element] / 100.0) > 0.0
       then [Addition(m.name, Abs((t - c) / (m.composition[element] / 100.0)), element, c, t, Confidence(us[k]))]
       else [])
  {
    assert materials[..k + 1][..k] == materials[..k];
    assert us[..k + 1][..k] == us[..k];
  }

  // ---------------------------------------------------------------------
  // QualityAnalyzer.calculate_quality_score

  /** The allowed range of one element in a grade. */
  datatype ElementRange = ElementRange(element: string, lo: real, hi: real)

  predicate WellFormed(spec: seq<ElementRange>) {
    forall k :: 0 <= k < |spec| ==> 0.0 <= spec[k].lo < spec[k].hi
  }

  /** The grades the analyser knows, with their ranges in order. */
  function GradeSpec(grade: string): (spec: Option<seq<ElementRange>>)
    ensures spec.Some? ==> WellFormed(spec.value)
    ensures spec.Some? <==> grade == "316L" || grade == "304"
  {
    if grade == "316L" then
      Some([ ElementRange("Fe", 65.0, 72.0), ElementRange("Cr", 16.0, 18.0), ElementRange("Ni", 10.0, 14.0),
             ElementRange("Mo", 2.0, 3.0), ElementRange("Mn", 0.0, 2.0), ElementRange("Si", 0.0, 1.0) ])
    else if grade == "304" then
      Some([ ElementRange("Fe", 66.0, 74.0), ElementRange("Cr", 18.0, 20.0), ElementRange("Ni", 8.0, 10.5),
             ElementRange("Mn", 0.0, 2.0), ElementRange("Si", 0.0, 1.0), ElementRange("C", 0.0, 0.08) ])
    else None
  }

  predicate InRange(v: real, r: ElementRange) {
    r.lo <= v <= r.hi
  }

  /** One element's score: 100 in range, otherwise 100 less a penalty of the
      relative distance from the centre of the range, capped at 50. */
  function ElementScore(v: real, r: ElementRange): (s: real)
    requires 0.0 <= r.lo < r.hi
    ensures 50.0 <= s <= 100.0
    ensures s == 100.0 <==> InRange(v, r)
  {
    if InRange(v, r) then 100.0
    else
      var center := (r.lo + r.hi) / 2.0;
      var deviation := Abs(v - center) / center;
      OutOfRangeDeviation(v, r, center, deviation);
      var penalty := Min(50.0, deviation * 100.0);
      Max(50.0, 100.0 - penalty)
  }

  /** Outside the range the distance from the centre is positive. */
  lemma OutOfRangeDeviation(v: real, r: ElementRange, center: real, deviation: real)
    requires 0.0 <= r.lo < r.hi && !InRange(v, r)
    requires center == (r.lo + r.hi) / 2.0 && deviation == Abs(v - center) / center
    ensures deviation > 0.0
  {
    assert center > 0.0;
    assert Abs(v - center) > 0.0;
    assert deviation * center == Abs(v - center);
    PositiveScaleSign(deviation, center);
  }

  /** The running total and count after the listed ranges: elements absent
      from the composition are skipped. */
  function ScoreSums(spec: seq<ElementRange>, composition: map<string, real>): (tc: (real, nat))
    requires WellFormed(spec)
    ensures tc.1 <= |spec|
    ensures 50.0 * tc.1 as real <= tc.0 <= 100.0 * tc.1 as real
    decreases |spec|
  {
    if spec == [] then (0.0, 0)
    else
      var n := |spec| - 1;
      var front := ScoreSums(spec[..n], composition);
      var r := spec[n];
      if r.element in composition then
        (front.0 + ElementScore(composition[r.element], r), front.1 + 1)
      else front
  }

  /** The total reaches 100 per checked element exactly when every present
      element is in range. */
  lemma {:induction false} ScoreSumsFull(spec: seq<ElementRange>, composition: map<string, real>)
    requires WellFormed(spec)
    ensures var tc := ScoreSums(spec, composition);
      tc.0 == 100.0 * tc.1 as real <==>
      forall k :: 0 <= k < |spec| && spec[k].element in composition ==>
        InRange(composition[spec[k].element], spec[k])
    decreases |spec|
  {
    if spec != [] {
      var n := |spec| - 1;
      ScoreSumsFull(spec[..n], composition);
      assert forall k :: 0 <= k < n ==> spec[..n][k] == spec[k];
    }
  }

  /** The mean element score against `spec`, or 85 when no listed element
      is present. */
  function SpecScore(spec: seq<ElementRange>, composition: map<string, real>): (s: real)
    requires WellFormed(spec)
    ensures Checked(spec, composition) == 0 ==> s == 85.0
    ensures var tc := ScoreSums(spec, composition); tc.1 > 0 ==> s == Average(tc.0, tc.1)
  {
    var tc := ScoreSums(spec, composition);
    if tc.1 > 0 then Average(tc.0, tc.1) else 85.0
  }

  /** A total shared out over `count` parts. */
  function Average(total: real, count: nat): (m: real)
    requires count > 0
    ensures m * count as real == total
  {
    total / count as real
  }

  /** The score `calculate_quality_score` returns: 85 for an unknown grade,
      otherwise the score against the grade's ranges. */
  function QualityScore(composition: map<string, real>, grade: string): (s: real)
    ensures GradeSpec(grade).None? ==> s == 85.0
  {
    match GradeSpec(grade)
    case None => 85.0
    case Some(spec) => SpecScore(spec, composition)
  }

  /** The count of listed elements present in the composition. */
  function Checked(spec: seq<ElementRange>, composition: map<string, real>): nat
    requires WellFormed(spec)
  {
    ScoreSums(spec, composition).1
  }

  /** Against any ranges the score lies in [50, 100], and once some listed
      element is present it is 100 exactly when every present one is in range. */
  lemma SpecScoreRange(spec: seq<ElementRange>, composition: map<string, real>)
    requires WellFormed(spec)
    ensures 50.0 <= SpecScore(spec, composition) <= 100.0
    ensures Checked(spec, composition) > 0 ==>
      (SpecScore(spec, composition) == 100.0 <==>
       forall k :: 0 <= k < |spec| && spec[k].element in composition ==>
         InRange(composition[spec[k].element], spec[k]))
  {
    var tc := ScoreSums(spec, composition);
    ScoreSumsFull(spec, composition);
    if tc.1 > 0 {
      MeanOfScores(tc.0, tc.1 as real);
    }
  }

  /** A total of per-element scores in [50, 100] averages in [50, 100], and
      to 100 exactly when the total is 100 per element. */
  lemma MeanOfScores(total: real, n: real)
    requires n > 0.0 && 50.0 * n <= total <= 100.0 * n
    ensures 50.0 <= total / n <= 100.0
    ensures total / n == 100.0 <==> total == 100.0 * n
  {
    DivBounds(total, n, 50.0, 100.0);
    var q := total / n;
    assert q * n == total;
    if total == 100.0 * n {
      DivUnique(total, n, 100.0);
    }
  }

  /** The score of any composition against any grade lies in [50, 100]; an
      unknown grade scores 85. */
  lemma QualityScoreRange(composition: map<string, real>, grade: string)
    ensures 50.0 <= QualityScore(composition, grade) <= 100.0
    ensures grade != "316L" && grade != "304" ==> QualityScore(composition, grade) == 85.0
  {
    var spec := GradeSpec(grade);
    if spec.Some? {
      SpecScoreRange(spec.value, composition);
    }
  }

  /** Elements the grade does not list never change the score. */
  lemma {:induction false} UnlistedIgnored(spec: seq<ElementRange>, composition: map<string, real>,
                                           e: string, v: real)
    requires WellFormed(spec)
    requires forall k :: 0 <= k < |spec| ==> spec[k].element != e
    ensures ScoreSums(spec, composition[e := v]) == ScoreSums(spec, composition)
    decreases |spec|
  {
    if spec != [] {
      UnlistedIgnored(spec[..|spec| - 1], composition, e, v);
    }
  }

  /** One more range adds its element's score when the element is present. */
  lemma ScoreSumsStep(spec: seq<ElementRange>, composition: map<string, real>, k: int)
    requires WellFormed(spec) && 0 <= k < |spec|
    ensures WellFormed(spec[..k]) && WellFormed(spec[..k + 1])
    ensures var front, r := ScoreSums(spec[..k], composition), spec[k];
      ScoreSums(spec[..k + 1], composition) ==
        if r.element in composition then (front.0 + ElementScore(composition[r.element], r), front.1 + 1)
        else front
  {
    assert spec[..k + 1][..k] == spec[..k];
  }

  /** The loop of calculate_quality_score over one grade's ranges. */
  method ScoreAgainst(spec: seq<ElementRange>, composition: map<string, real>) returns (score: real)
    requires WellFormed(spec)
    ensures score == SpecScore(spec, composition)
  {
    var totalScore := 0.0;
    var elementsChecked: nat := 0;
    var k := 0;
    while k < |spec|
      invariant 0 <= k <= |spec|
      invariant (totalScore, elementsChecked) == ScoreSums(spec[..k], composition)
    {
      var r := spec[k];
      ScoreSumsStep(spec, composition, k);
      if r.element in composition {
        totalScore := totalScore + ElementScore(composition[r.element], r);
        elementsChecked := elementsChecked + 1;
      }
      k := k + 1;
    }
    TakeAll(spec);
    if elementsChecked > 0 {
      score := totalScore / elementsChecked as real;
    } else {
      score := 85.0;
    }
  }

  /** calculate_quality_score: 85 for an unknown grade, else the loop above. */
  method CalculateQualityScore(composition: map<string, real>, grade: string) returns (score: real)
    ensures score == QualityScore(composition, grade)
  {
    var spec := GradeSpec(grade);
    if spec.None? {
      return 85.0;
    }
    score := ScoreAgainst(spec.value, composition);
  }

  // ---------------------------------------------------------------------
  // ProcessMonitor.detect_anomalies

  /** A stored process reading; times are in milliseconds. */
  datatype ProcessData = ProcessData(
    furnaceId: string,
    timestamp: int,
    temperature: real,
    compositionData: map<string, real>,
    qualityScore: Option<real>)

  datatype AnomalySeverity = Medium | High

  /** A flagged reading; the expected range (mean +/- 2 sigma) is not modelled. */
  datatype TemperatureAnomaly = TemperatureAnomaly(
    furnaceId: string,
    timestamp: int,
    value: real,
    severity: AnomalySeverity)

  function Temperatures(rows: seq<ProcessData>): (ts: seq<real>)
    ensures |ts| == |rows|
    ensures forall i :: 0 <= i < |rows| ==> ts[i] == rows[i].temperature
  {
    seq(|rows|, i requires 0 <= i < |rows| => rows[i].temperature)
  }

  /** `np.mean`. */
  function MeanOf(xs: seq<real>): real
    requires xs != []
  {
    Sum(xs) / |xs| as real
  }

  function Deviations(xs: seq<real>, m: real): seq<real> {
    seq(|xs|, i requires 0 <= i < |xs| => xs[i] - m)
  }

  lemma SquareNonnegative(x: real)
    ensures x * x >= 0.0
  {
    if x < 0.0 {
      assert x * x == (-x) * (-x);
    }
  }

  /** The sum of the squares, folded from the left. */
  function SumSquares(xs: seq<real>): (s: real)
    ensures s >= 0.0
  {
    if xs == [] then 0.0
    else
      SquareNonnegative(xs[|xs| - 1]);
      SumSquares(xs[..|xs| - 1]) + xs[|xs| - 1] * xs[|xs| - 1]
  }

  lemma {:induction false} SumSquaresAppend(a: seq<real>, b: seq<real>)
    ensures SumSquares(a + b) == SumSquares(a) + SumSquares(b)
    decreases |b|
  {
    if b == [] {
      assert a + b == a;
    } else {
      assert (a + b)[..|a + b| - 1] == a + b[..|b| - 1];
      SumSquaresAppend(a, b[..|b| - 1]);
    }
  }

  /** The population variance, `np.std` squared. */
  function Variance(xs: seq<real>): (v: real)
    requires xs != []
    ensures v >= 0.0
  {
    var s := SumSquares(Deviations(xs, MeanOf(xs)));
    DivBounds(s, |xs| as real, 0.0, s);
    s / |xs| as real
  }

  /** `abs(t - mean) > 3 * std`, compared on squares: both sides are nonnegative. */
  predicate Flagged(t: real, mean: real, variance: real) {
    (t - mean) * (t - mean) > 9.0 * variance
  }

  /** With `std` the standard deviation, the test on squares is the
      three-sigma rule on absolute deviations, and the severity test the
      four-sigma rule. */
  lemma FlaggedIsThreeSigma(t: real, mean: real, variance: real, std: real)
    requires std >= 0.0 && std * std == variance
    ensures Flagged(t, mean, variance) <==> Abs(t - mean) > 3.0 * std
    ensures SeverityOf(t, mean, variance) == High <==> Abs(t - mean) > 4.0 * std
  {
    var d := Abs(t - mean);
    assert (t - mean) * (t - mean) == d * d;
    SquaresOrdered(d, 3.0 * std);
    assert (3.0 * std) * (3.0 * std) == 9.0 * variance;
    SquaresOrdered(d, 4.0 * std);
    assert (4.0 * std) * (4.0 * std) == 16.0 * variance;
  }

  /** For nonnegative reals, comparing squares compares the values. */
  lemma SquaresOrdered(d: real, c: real)
    requires d >= 0.0 && c >= 0.0
    ensures d * d > c * c <==> d > c
  {
    var gap, sum := d - c, d + c;
    assert d * d - c * c == gap * sum;
    if d > c {
      ProductPositive(gap, sum);
    } else {
      ProductPositive(-gap, sum);
      assert -gap * sum == -(gap * sum);
    }
  }

  lemma ProductPositive(a: real, b: real)
    requires a >= 0.0 && b >= 0.0
    ensures a * b >= 0.0
    ensures a > 0.0 && b > 0.0 ==> a * b > 0.0
  {
  }

  /** 'high' beyond four standard deviations, else 'medium'. */
  function SeverityOf(t: real, mean: real, variance: real): (s: AnomalySeverity)
    ensures s == High <==> (t - mean) * (t - mean) > 16.0 * variance
  {
    if (t - mean) * (t - mean) > 16.0 * variance then High else Medium
  }

  function AnomalyOf(row: ProcessData, mean: real, variance: real): TemperatureAnomaly {
    TemperatureAnomaly(row.furnaceId, row.timestamp, row.temperature, SeverityOf(row.temperature, mean, variance))
  }

  /** `a` reports some row of `rows` that the three-sigma test flags. */
  predicate FlaggedAmong(rows: seq<ProcessData>, mean: real, variance: real, a: TemperatureAnomaly) {
    exists i :: 0 <= i < |rows| && Flagged(rows[i].temperature, mean, variance) && a == AnomalyOf(rows[i], mean, variance)
  }

  /** The flagged rows among `rows`, in order: every entry reports a
      flagged row, and every flagged row is reported. */
  function FlagRows(rows: seq<ProcessData>, mean: real, variance: real): (r: seq<TemperatureAnomaly>)
    ensures |r| <= |rows|
    ensures forall j :: 0 <= j < |r| ==> FlaggedAmong(rows, mean, variance, r[j])
    ensures forall i :: 0 <= i < |rows| && Flagged(rows[i].temperature, mean, variance) ==>
      AnomalyOf(rows[i], mean, variance) in r
    ensures (forall i :: 0 <= i < |rows| ==> !Flagged(rows[i].temperature, mean, variance)) ==> r == []
  {
    if rows == [] then []
    else
      var n := |rows| - 1;
      var front := FlagRows(rows[..n], mean, variance);
      if Flagged(rows[n].temperature, mean, variance) then front + [AnomalyOf(rows[n], mean, variance)]
      else front
  }

  /** What detect_anomalies returns: nothing for fewer than 10 rows, else
      the flagged rows among the last five, against the mean and variance of
      every row. */
  function Anomalies(rows: seq<ProcessData>): (r: seq<TemperatureAnomaly>)
    ensures |rows| < 10 ==> r == []
    ensures |r| <= 5
    ensures |rows| >= 10 ==>
      var ts, last := Temperatures(rows), rows[|rows| - 5..];
      (forall j :: 0 <= j < |r| ==> FlaggedAmong(last, MeanOf(ts), Variance(ts), r[j])) &&
      (forall i :: 0 <= i < |last| && Flagged(last[i].temperature, MeanOf(ts), Variance(ts)) ==>
         AnomalyOf(last[i], MeanOf(ts), Variance(ts)) in r)
  {
    if |rows| < 10 then []
    else
      var ts := Temperatures(rows);
      FlagRows(rows[|rows| - 5..], MeanOf(ts), Variance(ts))
  }

  /** detect_anomalies as the loop over the last five rows. */
  method DetectAnomalies(rows: seq<ProcessData>) returns (anomalies: seq<TemperatureAnomaly>)
    ensures anomalies == Anomalies(rows)
  {
    anomalies := [];
    if |rows| < 10 {
      return;
    }
    var temperatures := Temperatures(rows);
    var tempMean := MeanOf(temperatures);
    var tempVar := Variance(temperatures);
    var last := rows[|rows| - 5..];
    var j := 0;
    while j < |last|
      invariant 0 <= j <= |last|
      invariant anomalies == FlagRows(last[..j], tempMean, tempVar)
    {
      assert last[..j + 1][..j] == last[..j];
      var row := last[j];
      if Flagged(row.temperature, tempMean, tempVar) {
        anomalies := anomalies + [AnomalyOf(row, tempMean, tempVar)];
      }
      j := j + 1;
    }
    assert last[..j] == last;
  }

  /** The square of a sum is at most the length times the sum of squares
      (Cauchy-Schwarz against the all-ones vector). */
  lemma {:induction false} SquareOfSum(xs: seq<real>)
    ensures Sum(xs) * Sum(xs) <= |xs| as real * SumSquares(xs)
    decreases |xs|
  {
    if xs != [] {
      var front, x := xs[..|xs| - 1], xs[|xs| - 1];
      SquareOfSum(front);
      SquareOfSumStep(Sum(front), SumSquares(front), |front| as real, x,
                      Sum(xs), SumSquares(xs), |xs| as real);
    }
  }

  /** The induction step of SquareOfSum, for S = s + x, Q = q + x^2 and
      N = k + 1:
      (k + 1)(q + x^2) - (s + x)^2 = (k q - s^2) + (q + k x^2 - 2 s x), and
      k (q + k x^2 - 2 s x) >= s^2 + k^2 x^2 - 2 k s x = (s - k x)^2 >= 0. */
  lemma SquareOfSumStep(s: real, q: real, k: real, x: real, S: real, Q: real, N: real)
    requires k >= 0.0 && q >= 0.0
    requires s * s <= k * q
    requires k == 0.0 ==> s == 0.0
    requires S == s + x && Q == q + x * x && N == k + 1.0
    ensures S * S <= N * Q
  {
    var rest := q + k * x * x - 2.0 * s * x;
    if k > 0.0 {
      SquareNonnegative(s - k * x);
      assert k * rest == k * q + k * k * x * x - 2.0 * k * s * x;
      assert (s - k * x) * (s - k * x) == s * s + k * k * x * x - 2.0 * k * s * x;
      assert k * rest >= 0.0;
      PositiveScaleSign(rest, k);
    }
    assert (k + 1.0) * (q + x * x) - (s + x) * (s + x) == (k * q - s * s) + rest;
  }

  /** Shifting every value shifts the sum by the length times the shift. */
  lemma {:induction false} SumOfDeviations(xs: seq<real>, m: real)
    ensures Sum(Deviations(xs, m)) == Sum(xs) - |xs| as real * m
    decreases |xs|
  {
    if xs != [] {
      var n := |xs| - 1;
      assert Deviations(xs, m)[..n] == Deviations(xs[..n], m);
      SumOfDeviations(xs[..n], m);
    }
  }

  /** A list is its prefix, one entry and its suffix. */
  lemma SplitAt(ds: seq<real>, i: int)
    requires 0 <= i < |ds|
    ensures ds == (ds[..i] + [ds[i]]) + ds[i + 1..]
  {
  }

  lemma SumSingleton(x: real)
    ensures Sum([x]) == x
  {
    assert [x][..0] == [];
  }

  /** Taking one entry out of a list takes it out of the sum. */
  lemma RemoveOneSum(ds: seq<real>, i: int)
    requires 0 <= i < |ds|
    ensures Sum(ds) == Sum(ds[..i] + ds[i + 1..]) + ds[i]
  {
    var a, x, b := ds[..i], [ds[i]], ds[i + 1..];
    SplitAt(ds, i);
    SumAppend(a + x, b);
    SumAppend(a, x);
    SumAppend(a, b);
    SumSingleton(ds[i]);
  }

  lemma SumSquaresSingleton(x: real)
    ensures SumSquares([x]) == x * x
  {
    assert [x][..0] == [];
  }

  /** Taking one entry out of a list takes its square out of the sum of squares. */
  lemma RemoveOneSquares(ds: seq<real>, i: int)
    requires 0 <= i < |ds|
    ensures SumSquares(ds) == SumSquares(ds[..i] + ds[i + 1..]) + SumSquares([ds[i]])
  {
    var a, x, b := ds[..i], [ds[i]], ds[i + 1..];
    SplitAt(ds, i);
    SumSquaresAppend(a + x, b);
    SumSquaresAppend(a, x);
    SumSquaresAppend(a, b);
  }

  /** n d^2 <= (n - 1) q when the rest sums to -d with squares summing to
      q - d^2, and the rest's sum squared is at most (n - 1) times those. */
  lemma AddSquareStep(n: real, d: real, q: real, restSum: real, restSquares: real)
    requires restSum == -d && q == restSquares + d * d
    requires restSum * restSum <= (n - 1.0) * restSquares
    ensures n * (d * d) <= (n - 1.0) * q
  {
    assert restSum * restSum == d * d;
    assert (n - 1.0) * q == (n - 1.0) * restSquares + n * (d * d) - d * d;
  }

  /** For deviations that sum to zero, n d_i^2 <= (n - 1) times the sum of
      their squares: the other n - 1 deviations sum to -d_i. */
  lemma DeviationBound(ds: seq<real>, i: int) returns (n: real, d: real, q: real)
    requires 0 <= i < |ds| && Sum(ds) == 0.0
    ensures n == |ds| as real && d == ds[i] && q == SumSquares(ds)
    ensures n * (d * d) <= (n - 1.0) * q
  {
    var rest := ds[..i] + ds[i + 1..];
    RemoveOneSum(ds, i);
    RemoveOneSquares(ds, i);
    SumSquaresSingleton(ds[i]);
    SquareOfSum(rest);
    n, d, q := |ds| as real, ds[i], SumSquares(ds);
    var k := |rest| as real;
    assert k == n - 1.0;
    AddSquareStep(n, d, q, Sum(rest), SumSquares(rest));
  }

  /** The variance times the length is the sum of squared deviations. */
  lemma VarianceTimesLength(xs: seq<real>)
    requires xs != []
    ensures Variance(xs) * |xs| as real == SumSquares(Deviations(xs, MeanOf(xs)))
  {
    var s := SumSquares(Deviations(xs, MeanOf(xs)));
    assert Variance(xs) == s / |xs| as real;
  }

  /** Dividing n d2 <= (n - 1)(v n) by the positive n. */
  lemma DivideByLength(n: real, d2: real, v: real)
    requires n > 0.0
    requires n * d2 <= (n - 1.0) * (v * n)
    ensures d2 <= (n - 1.0) * v
  {
    assert n * (d2 - (n - 1.0) * v) == n * d2 - (n - 1.0) * (v * n);
    PositiveScaleSign(d2 - (n - 1.0) * v, n);
  }

  /** The deviation of the i-th value from the mean, and the sum of the
      squared deviations, with the bound of DeviationBound between them. */
  lemma DeviationFromMean(xs: seq<real>, i: int) returns (n: real, d: real, total: real)
    requires 0 <= i < |xs|
    ensures n == |xs| as real && d == xs[i] - MeanOf(xs)
    ensures total == Variance(xs) * n
    ensures n * (d * d) <= (n - 1.0) * total
  {
    var ds := Deviations(xs, MeanOf(xs));
    DeviationsCentred(xs);
    n, d, total := DeviationBound(ds, i);
    VarianceTimesLength(xs);
  }

  /** The deviations from the mean add up to nothing. */
  lemma DeviationsCentred(xs: seq<real>)
    requires xs != []
    ensures Sum(Deviations(xs, MeanOf(xs))) == 0.0
  {
    var m := MeanOf(xs);
    SumOfDeviations(xs, m);
    MeanCentres(Sum(xs), |xs| as real, m);
  }

  /** Subtracting n copies of the mean s / n from s leaves nothing. */
  lemma MeanCentres(s: real, n: real, m: real)
    requires n > 0.0 && m == s / n
    ensures s - n * m == 0.0
  {
  }

  /** Samuelson's inequality: no value lies further from the mean than
      sqrt(n - 1) population standard deviations. */
  lemma Samuelson(xs: seq<real>, i: int)
    requires 0 <= i < |xs|
    ensures (xs[i] - MeanOf(xs)) * (xs[i] - MeanOf(xs)) <= (|xs| - 1) as real * Variance(xs)
  {
    var n, d, total := DeviationFromMean(xs, i);
    DivideByLength(n, d * d, Variance(xs));
    assert (|xs| - 1) as real == |xs| as real - 1.0;
  }

  /** If d^2 is at most (n - 1) v and above c v for a nonnegative v, then
      n - 1 exceeds c. */
  lemma ThresholdNeedsRows(d2: real, v: real, n: real, c: real)
    requires v >= 0.0 && d2 <= (n - 1.0) * v && d2 > c * v
    ensures n - 1.0 > c
  {
    var gap := n - 1.0 - c;
    assert gap * v == (n - 1.0) * v - c * v;
    assert gap * v > 0.0;
    assert v != 0.0;
    PositiveScaleSign(gap, v);
  }

  /** With at most ten readings the three-sigma test never fires, so
      detect_anomalies on exactly ten rows always returns nothing; a 'high'
      anomaly needs at least eighteen rows. */
  lemma FewRowsFlagNothing(rows: seq<ProcessData>)
    ensures |rows| <= 10 ==> Anomalies(rows) == []
    ensures |rows| < 18 ==> forall j :: 0 <= j < |Anomalies(rows)| ==> Anomalies(rows)[j].severity == Medium
  {
    if |rows| >= 10 {
      var ts := Temperatures(rows);
      var m := MeanOf(ts);
      var v := Variance(ts);
      var last := rows[|rows| - 5..];
      var n := |rows| as real;
      forall i | 0 <= i < |last|
        ensures Flagged(last[i].temperature, m, v) ==> n > 10.0
        ensures SeverityOf(last[i].temperature, m, v) == High ==> n > 17.0
      {
        Samuelson(ts, |rows| - 5 + i);
        var d := last[i].temperature - m;
        assert ts[|rows| - 5 + i] == last[i].temperature;
        if d * d > 9.0 * v {
          ThresholdNeedsRows(d * d, v, n, 9.0);
        }
        if d * d > 16.0 * v {
          ThresholdNeedsRows(d * d, v, n, 16.0);
        }
      }
    }
  }
}
