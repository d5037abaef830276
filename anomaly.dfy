/** The anomaly board: a most-recent-first list of at most ten anomalies fed
    by a 30-second arrival tick, a status lifecycle active -> investigating ->
    resolved driven by the board's buttons, a type filter and the active and
    critical counts. Timestamps are milliseconds since the epoch. */
module AnomalyDetection {
  import opened Common

  datatype AnomalyType = Composition | Process | Model | Equipment
  datatype Severity = SevLow | SevMedium | SevHigh | SevCritical
  datatype AnomalyStatus = Active | Investigating | Resolved

  datatype Anomaly = Anomaly(
    id: string,
    anomalyType: AnomalyType,
    severity: Severity,
    title: string,
    description: string,
    timestamp: int,
    confidence: real,
    suggestedAction: string,
    affectedElements: Option<seq<string>>,
    status: AnomalyStatus)

  const MinuteMs: int := 60 * 1000

  /** Title, description and suggested action of each seeded anomaly. */
  const SiliconVolatilityText := ("Unusual Silicon Volatility",
    "Silicon readings showing abnormal fluctuation pattern (±0.15% in 5 minutes)",
    "Check stirring system and sampling consistency")
  const ConfidenceDriftText := ("AI Confidence Drift",
    "Model confidence has decreased by 12% over last hour for carbon predictions",
    "Review recent training data and recalibrate model")
  const TemperatureSpikeText := ("Temperature Spike Detected",
    "Furnace temperature exceeded normal range by 45°C for 3 minutes",
    "Immediate furnace inspection required - potential refractory issue")
  const SpectrometerDriftText := ("Spectrometer Drift",
    "Minor calibration drift detected in spectrometer readings",
    "Schedule spectrometer recalibration within 24 hours")

  function Seeded(id: string, t: AnomalyType, sev: Severity, text: (string, string, string),
                  time: int, confidence: real, elements: Option<seq<string>>, status: AnomalyStatus): Anomaly {
    Anomaly(id, t, sev, text.0, text.1, time, confidence, text.2, elements, status)
  }

  /** The four seeded anomalies, newest first. */
  function SeedAnomalies(now: int): (s: seq<Anomaly>)
    ensures |s| == 4
    ensures s[0].status == Active && s[1].status == Investigating
    ensures s[2].status == Active && s[3].status == Resolved
    ensures s[0].severity == SevHigh && s[2].severity == SevCritical
  {
    [ Seeded("1", Composition, SevHigh, SiliconVolatilityText, now - 2 * MinuteMs, 94.2, Some(["Si"]), Active),
      Seeded("2", Model, SevMedium, ConfidenceDriftText, now - 15 * MinuteMs, 87.5, Some(["C"]), Investigating),
      Seeded("3", Process, SevCritical, TemperatureSpikeText, now - 8 * MinuteMs, 98.7, None, Active),
      Seeded("4", Equipment, SevLow, SpectrometerDriftText, now - 45 * MinuteMs, 76.3, None, Resolved) ]
  }

  /** `Math.floor(r * n)` for a draw r: an index into a list of n choices. */
  function PickIndex(r: real, n: nat): (k: nat)
    requires IsDraw(r) && n > 0
    ensures k < n
    ensures k as real <= r * n as real < k as real + 1.0
  {
    var x := r * n as real;
    assert 0.0 <= x < n as real by {
      assert n as real - x == (1.0 - r) * n as real;
    }
    x.Floor
  }

  function TypeAt(k: nat): AnomalyType
    requires k < 4
  {
    [Composition, Process, Model, Equipment][k]
  }

  function SeverityAt(k: nat): Severity
    requires k < 3
  {
    [SevLow, SevMedium, SevHigh][k]
  }

  /** The anomaly an arrival creates: type from four choices, severity from
      low / medium / high, confidence 70 + 30 * draw, status active. */
  function NewAnomaly(id: string, now: int, rType: real, rSeverity: real, rConfidence: real): (a: Anomaly)
    requires IsDraw(rType) && IsDraw(rSeverity) && IsDraw(rConfidence)
    ensures a.status == Active
    ensures a.severity != SevCritical
    ensures 70.0 <= a.confidence < 100.0
    ensures a.id == id && a.timestamp == now && a.affectedElements.None?
  {
    Anomaly(id, TypeAt(PickIndex(rType, 4)), SeverityAt(PickIndex(rSeverity, 3)),
      "New Anomaly Detected", "System detected unusual pattern in real-time data",
      now, 70.0 + rConfidence * 30.0, "Investigate immediately", None, Active)
  }

  /** Every one of the four types can be generated. */
  lemma EveryTypeReachable(t: AnomalyType)
    ensures exists r :: IsDraw(r) && TypeAt(PickIndex(r, 4)) == t
  {
    var r := match t
      case Composition => 0.0
      case Process => 0.25
      case Model => 0.5
      case Equipment => 0.75;
    assert TypeAt(PickIndex(r, 4)) == t;
  }

  /** `[newAnomaly, ...prev.slice(0, 9)]`. */
  function PushNewest(prev: seq<Anomaly>, a: Anomaly): (next: seq<Anomaly>)
    ensures |next| <= 10
    ensures |next| == if |prev| < 9 then |prev| + 1 else 10
    ensures next[0] == a
    ensures forall i :: 0 <= i < |prev| && i < 9 ==> next[i + 1] == prev[i]
  {
    var keep := if |prev| < 9 then |prev| else 9;
    [a] + prev[..keep]
  }

  /** One arrival tick: with probability 0.1 a new anomaly is pushed. */
  function Arrive(prev: seq<Anomaly>, id: string, now: int,
                  rArrive: real, rType: real, rSeverity: real, rConfidence: real): (next: seq<Anomaly>)
    requires IsDraw(rArrive) && IsDraw(rType) && IsDraw(rSeverity) && IsDraw(rConfidence)
    ensures rArrive >= 0.1 ==> next == prev
    ensures rArrive < 0.1 ==>
      next == PushNewest(prev, NewAnomaly(id, now, rType, rSeverity, rConfidence))
  {
    if rArrive < 0.1 then PushNewest(prev, NewAnomaly(id, now, rType, rSeverity, rConfidence))
    else prev
  }

  /** Arrivals never raise the number of active critical anomalies: a new
      anomaly is never critical and the dropped tail only loses entries. */
  lemma ArrivalAddsNoCritical(prev: seq<Anomaly>, id: string, now: int,
                              rArrive: real, rType: real, rSeverity: real, rConfidence: real)
    requires IsDraw(rArrive) && IsDraw(rType) && IsDraw(rSeverity) && IsDraw(rConfidence)
    ensures CriticalAnomalies(Arrive(prev, id, now, rArrive, rType, rSeverity, rConfidence))
      <= CriticalAnomalies(prev)
  {
    if rArrive < 0.1 {
      var next := Arrive(prev, id, now, rArrive, rType, rSeverity, rConfidence);
      var keep := |next| - 1;
      var b := IsCriticalActive(prev);
      assert IsCriticalActive(next) == [false] + b[..keep];
      CountTrueAppend([false], b[..keep]);
      assert CountTrue([false]) == 0 by { assert [false][..0] == []; }
      CountTruePrefix(b, keep);
    }
  }

  /** handleStatusChange: every entry with the given id takes the new status;
      nothing else changes. */
  function ChangeStatus(list: seq<Anomaly>, id: string, newStatus: AnomalyStatus): (next: seq<Anomaly>)
    ensures |next| == |list|
    ensures forall i :: 0 <= i < |next| ==>
      next[i] == list[i].(status := next[i].status)
    ensures forall i :: 0 <= i < |next| ==>
      next[i].status == if list[i].id == id then newStatus else list[i].status
  {
    seq(|list|, i requires 0 <= i < |list| =>
      if list[i].id == id then list[i].(status := newStatus) else list[i])
  }

  /** Changing to the same status twice is changing it once, and a change for
      an id that is not on the board leaves the board as it is. */
  lemma ChangeStatusIdempotent(list: seq<Anomaly>, id: string, newStatus: AnomalyStatus)
    ensures ChangeStatus(ChangeStatus(list, id, newStatus), id, newStatus) == ChangeStatus(list, id, newStatus)
    ensures (forall i :: 0 <= i < |list| ==> list[i].id != id) ==> ChangeStatus(list, id, newStatus) == list
  {
  }

  function Rank(s: AnomalyStatus): nat {
    match s
    case Active => 0
    case Investigating => 1
    case Resolved => 2
  }

  /** The status buttons shown for an entry: investigate or resolve while
      active, mark resolved while investigating, nothing once resolved. */
  function OfferedActions(s: AnomalyStatus): (actions: seq<AnomalyStatus>)
    ensures forall k :: 0 <= k < |actions| ==> Rank(actions[k]) > Rank(s)
    ensures actions == [] <==> s == Resolved
    ensures s != Resolved ==> Resolved in actions
  {
    match s
    case Active => [Investigating, Resolved]
    case Investigating => [Resolved]
    case Resolved => []
  }

  predicate UniqueIds(list: seq<Anomaly>) {
    forall i, j :: 0 <= i < j < |list| ==> list[i].id != list[j].id
  }

  /** Pressing a button offered on entry k of a board with distinct ids moves
      that entry forward in the lifecycle and leaves every other entry alone,
      so no entry ever goes back. */
  lemma ButtonMovesForward(list: seq<Anomaly>, k: nat, newStatus: AnomalyStatus)
    requires k < |list| && UniqueIds(list)
    requires newStatus in OfferedActions(list[k].status)
    ensures var next := ChangeStatus(list, list[k].id, newStatus);
      Rank(next[k].status) > Rank(list[k].status) &&
      forall i :: 0 <= i < |list| && i != k ==> next[i] == list[i]
  {
    var next := ChangeStatus(list, list[k].id, newStatus);
    forall i | 0 <= i < |list| && i != k
      ensures next[i] == list[i]
    {
      if i < k {
        assert list[i].id != list[k].id;
      } else {
        assert list[k].id != list[i].id;
      }
    }
  }

  datatype TypeFilter = All | OnlyType(t: AnomalyType)

  /** `anomalies.filter(a => a.type === t)`. */
  function FilterByType(list: seq<Anomaly>, t: AnomalyType): (r: seq<Anomaly>)
    ensures |r| <= |list|
    ensures forall a :: a in r <==> a in list && a.anomalyType == t
  {
    if list == [] then []
    else
      var rest := FilterByType(list[..|list| - 1], t);
      assert list == list[..|list| - 1] + [list[|list| - 1]];
      if list[|list| - 1].anomalyType == t then rest + [list[|list| - 1]] else rest
  }

  /** filteredAnomalies: 'all' shows the whole list, a type only its entries. */
  function FilteredAnomalies(list: seq<Anomaly>, f: TypeFilter): (r: seq<Anomaly>)
    ensures f == All ==> r == list
    ensures f.OnlyType? ==> forall a :: a in r <==> a in list && a.anomalyType == f.t
  {
    match f
    case All => list
    case OnlyType(t) => FilterByType(list, t)
  }

  /** Filtering keeps the original order: filtering a list with one more
      entry at the end filters the list and then appends that entry if it matches. */
  lemma {:induction false} FilterKeepsOrder(list: seq<Anomaly>, a: Anomaly, t: AnomalyType)
    ensures FilterByType(list + [a], t) ==
      FilterByType(list, t) + (if a.anomalyType == t then [a] else [])
  {
    assert (list + [a])[..|list + [a]| - 1] == list;
  }

  lemma ConcatAssociates(x: seq<Anomaly>, y: seq<Anomaly>, z: seq<Anomaly>)
    ensures (x + y) + z == x + (y + z)
  {
  }

  /** Filtering commutes with concatenation: the kept entries of two lists
      are those of the first, followed by those of the second, each in
      their original order. */
  lemma {:induction false} FilterAppend(a: seq<Anomaly>, b: seq<Anomaly>, t: AnomalyType)
    ensures FilterByType(a + b, t) == FilterByType(a, t) + FilterByType(b, t)
    decreases |b|
  {
    if b == [] {
      assert a + b == a;
    } else {
      var b0, x := b[..|b| - 1], b[|b| - 1];
      var tail: seq<Anomaly> := if x.anomalyType == t then [x] else [];
      assert FilterByType(a + b, t) == FilterByType(a + b0, t) + tail by {
        assert a + b == (a + b0) + [x];
        FilterKeepsOrder(a + b0, x, t);
      }
      assert FilterByType(b, t) == FilterByType(b0, t) + tail by {
        assert b == b0 + [x];
        FilterKeepsOrder(b0, x, t);
      }
      FilterAppend(a, b0, t);
      ConcatAssociates(FilterByType(a, t), FilterByType(b0, t), tail);
    }
  }

  /** Filtering keeps every entry of the type as often as the list holds
      it, and no other entry. */
  lemma {:induction false} FilterMultiplicity(list: seq<Anomaly>, t: AnomalyType)
    ensures forall a ::
      multiset(FilterByType(list, t))[a] == if a.anomalyType == t then multiset(list)[a] else 0
    decreases |list|
  {
    if list != [] {
      var l0, x := list[..|list| - 1], list[|list| - 1];
      assert list == l0 + [x];
      FilterMultiplicity(l0, t);
      FilterKeepsOrder(l0, x, t);
    }
  }

  function IsActive(list: seq<Anomaly>): seq<bool> {
    seq(|list|, i requires 0 <= i < |list| => list[i].status == Active)
  }

  function IsCriticalActive(list: seq<Anomaly>): seq<bool> {
    seq(|list|, i requires 0 <= i < |list| =>
      list[i].severity == SevCritical && list[i].status == Active)
  }

  /** The anomalies still active; none exactly when every one is investigating or resolved. */
  function ActiveAnomalies(list: seq<Anomaly>): (n: nat)
    ensures n <= |list|
    ensures n == 0 <==> forall i :: 0 <= i < |list| ==> list[i].status != Active
  {
    var flags := IsActive(list);
    assert forall i :: 0 <= i < |list| ==> (flags[i] <==> list[i].status == Active);
    CountTrueAtMostLength(flags);
    CountTrueNone(flags);
    CountTrue(flags)
  }

  /** Active anomalies of critical severity; none exactly when no active anomaly is critical. */
  function CriticalAnomalies(list: seq<Anomaly>): (n: nat)
    ensures n <= |list|
    ensures n == 0 <==>
      forall i :: 0 <= i < |list| && list[i].status == Active ==> list[i].severity != SevCritical
  {
    var flags := IsCriticalActive(list);
    assert forall i :: 0 <= i < |list| ==>
      (flags[i] <==> list[i].severity == SevCritical && list[i].status == Active);
    CountTrueAtMostLength(flags);
    CountTrueNone(flags);
    CountTrue(flags)
  }

  lemma CountsOrdered(list: seq<Anomaly>)
    ensures CriticalAnomalies(list) <= ActiveAnomalies(list) <= |list|
  {
    CountTrueMonotone(IsCriticalActive(list), IsActive(list));
  }

  /** The seed board: two active anomalies, one of them critical. */
  lemma SeedCounts(now: int)
    ensures ActiveAnomalies(SeedAnomalies(now)) == 2
    ensures CriticalAnomalies(SeedAnomalies(now)) == 1
  {
    var seed := SeedAnomalies(now);
    var a := IsActive(seed);
    assert a == [true, false, true, false];
    assert CountTrue(a[..1]) == 1 by { assert a[..1][..0] == []; }
    assert CountTrue(a[..2]) == 1 by { assert a[..2][..1] == a[..1]; }
    assert CountTrue(a[..3]) == 2 by { assert a[..3][..2] == a[..2]; }
    assert CountTrue(a) == 2 by { assert a[..3] == a[..|a| - 1]; }
    var c := IsCriticalActive(seed);
    assert c == [false, false, true, false];
    assert CountTrue(c[..1]) == 0 by { assert c[..1][..0] == []; }
    assert CountTrue(c[..2]) == 0 by { assert c[..2][..1] == c[..1]; }
    assert CountTrue(c[..3]) == 1 by { assert c[..3][..2] == c[..2]; }
    assert CountTrue(c) == 1 by { assert c[..3] == c[..|c| - 1]; }
  }

  /** The board's state. */
  class Board {
    var anomalies: seq<Anomaly>
    var selectedType: TypeFilter

    /** The list never holds more than ten anomalies. */
    ghost predicate Valid()
      reads this
    {
      |anomalies| <= 10
    }

    constructor (now: int)
      ensures Valid()
      ensures anomalies == SeedAnomalies(now) && selectedType == All
    {
      anomalies := SeedAnomalies(now);
      selectedType := All;
    }

    /** The 30-second arrival tick; `id` is the decimal form of `now`. */
    method ArrivalTick(id: string, now: int, rArrive: real, rType: real, rSeverity: real, rConfidence: real)
      requires Valid()
      requires IsDraw(rArrive) && IsDraw(rType) && IsDraw(rSeverity) && IsDraw(rConfidence)
      modifies this
      ensures Valid()
      ensures anomalies == Arrive(old(anomalies), id, now, rArrive, rType, rSeverity, rConfidence)
      ensures selectedType == old(selectedType)
    {
      anomalies := Arrive(anomalies, id, now, rArrive, rType, rSeverity, rConfidence);
    }

    /** handleStatusChange, reachable only with 'investigating' or 'resolved'. */
    method HandleStatusChange(id: string, newStatus: AnomalyStatus)
      requires Valid()
      requires newStatus != Active
      modifies this
      ensures Valid()
      ensures anomalies == ChangeStatus(old(anomalies), id, newStatus)
      ensures selectedType == old(selectedType)
    {
      anomalies := ChangeStatus(anomalies, id, newStatus);
    }

    /** Choosing a type in the filter bar. */
    method SelectType(f: TypeFilter)
      modifies this
      ensures selectedType == f && anomalies == old(anomalies)
    {
      selectedType := f;
    }
  }
}
