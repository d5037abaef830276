/** The live spectrometer panel: element readings classified against their
    target with the 0.5 ratio, a 0..100 position bar, and a periodic update
    that nudges every reading by at most 0.01 without letting it go below zero. */
module Spectrometer {
  import opened Common
  import Tolerance

  datatype Status = Optimal | Acceptable | Critical

  datatype ElementReading = ElementReading(
    element: string,
    current: real,
    target: real,
    tolerance: real,
    unit: string)

  /** The readings the panel starts with. */
  function SeedReadings(): seq<ElementReading> {
    [ ElementReading("C", 3.45, 3.50, 0.10, "%"),
      ElementReading("Si", 2.12, 2.20, 0.15, "%"),
      ElementReading("Mn", 0.68, 0.70, 0.05, "%"),
      ElementReading("P", 0.035, 0.040, 0.010, "%"),
      ElementReading("S", 0.025, 0.030, 0.010, "%"),
      ElementReading("Cr", 0.18, 0.20, 0.05, "%") ]
  }

  /** getStatus: optimal within half the tolerance, acceptable within the
      tolerance, critical beyond it. */
  function GetStatus(r: ElementReading): (s: Status)
    ensures s == Optimal <==> Tolerance.Deviation(r.current, r.target) <= r.tolerance * 0.5
    ensures s == Acceptable <==>
      r.tolerance * 0.5 < Tolerance.Deviation(r.current, r.target) <= r.tolerance
    ensures r.tolerance >= 0.0 ==>
      (s == Critical <==> Tolerance.Deviation(r.current, r.target) > r.tolerance)
  {
    Tolerance.BandsPartition(Tolerance.Deviation(r.current, r.target), r.tolerance, 0.5);
    match Tolerance.Classify(Tolerance.Deviation(r.current, r.target), r.tolerance, 0.5)
    case Best => Optimal
    case Middle => Acceptable
    case Worst => Critical
  }

  /** With a zero tolerance only an exact reading is optimal; every other
      reading is critical and none is acceptable. */
  lemma ZeroToleranceStatus(r: ElementReading)
    requires r.tolerance == 0.0
    ensures GetStatus(r) == (if r.current == r.target then Optimal else Critical)
  {
    Tolerance.ZeroTolerance(Tolerance.Deviation(r.current, r.target), 0.5);
  }

  /** getProgressValue: the reading's place in [target - tol, target + tol]
      as a clamped percentage. The division by 2*tolerance needs a positive
      tolerance. */
  function GetProgressValue(r: ElementReading): (p: real)
    requires r.tolerance > 0.0
    ensures 0.0 <= p <= 100.0
    ensures r.current == r.target ==> p == 50.0
    ensures r.current <= r.target - r.tolerance ==> p == 0.0
    ensures r.current >= r.target + r.tolerance ==> p == 100.0
  {
    Tolerance.PositionShape(r.current, r.target, r.tolerance);
    Tolerance.Position(r.current, r.target, r.tolerance)
  }

  /** A higher reading never shows a shorter bar. */
  lemma ProgressMonotone(r: ElementReading, higher: real)
    requires r.tolerance > 0.0
    requires r.current <= higher
    ensures GetProgressValue(r) <= GetProgressValue(r.(current := higher))
  {
    Tolerance.PositionMonotone(r.current, higher, r.target, r.tolerance);
  }

  /** The carbon seed reading 3.45 against 3.50 +/- 0.10 is optimal and sits
      at a quarter of the bar. */
  lemma CarbonSeedReading()
    ensures GetStatus(SeedReadings()[0]) == Optimal
    ensures GetProgressValue(SeedReadings()[0]) == 25.0
  {
    var c := SeedReadings()[0];
    assert Tolerance.Deviation(c.current, c.target) == 0.05;
    Tolerance.PositionShape(c.current, c.target, c.tolerance);
  }

  /** One reading after a tick: moved by (draw - 0.5) * 0.02, floored at 0. */
  function Jitter(r: ElementReading, draw: real): ElementReading {
    r.(current := Max(0.0, r.current + (draw - 0.5) * 0.02))
  }

  /** The readings after one 3-second tick, one draw per reading. */
  function TickReadings(prev: seq<ElementReading>, draws: seq<real>): (next: seq<ElementReading>)
    requires |draws| == |prev| && AllDraws(draws)
    ensures |next| == |prev|
    ensures forall i :: 0 <= i < |next| ==> next[i].current >= 0.0
    ensures forall i :: 0 <= i < |next| && prev[i].current >= 0.0 ==>
      Abs(next[i].current - prev[i].current) <= 0.01
    ensures forall i :: 0 <= i < |next| ==>
      next[i] == prev[i].(current := next[i].current)
  {
    seq(|prev|, i requires 0 <= i < |prev| => Jitter(prev[i], draws[i]))
  }

  /** The panel's state: its readings and the time of the last update. */
  class Panel {
    var readings: seq<ElementReading>
    var lastUpdated: int

    /** Every concentration shown is nonnegative. */
    ghost predicate Valid()
      reads this
    {
      forall i :: 0 <= i < |readings| ==> readings[i].current >= 0.0
    }

    constructor (now: int)
      ensures Valid()
      ensures readings == SeedReadings() && lastUpdated == now
    {
      readings := SeedReadings();
      lastUpdated := now;
    }

    /** The interval callback: replace the readings by their jittered copies
        and stamp the update time. */
    method Tick(draws: seq<real>, now: int)
      requires Valid()
      requires |draws| == |readings| && AllDraws(draws)
      modifies this
      ensures Valid()
      ensures readings == TickReadings(old(readings), draws)
      ensures lastUpdated == now
    {
      readings := TickReadings(readings, draws);
      lastUpdated := now;
    }
  }
}
