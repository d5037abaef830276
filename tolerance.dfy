/** The tolerance-band evaluator shared by the spectrometer, quality-control
    and furnace views: a reading's deviation |current - target| is compared
    with a fraction (`ratio`) of its tolerance and with the tolerance itself,
    and the reading's place inside [target - tolerance, target + tolerance]
    drives a 0..100 progress bar. The views differ only in the ratio (0.5 or
    0.7), in the order the comparisons are written, and in the names of the
    three bands. */
module Tolerance {
  import opened Common

  /** The three bands, best to worst. */
  datatype Band = Best | Middle | Worst

  function Rank(b: Band): nat {
    match b
    case Best => 0
    case Middle => 1
    case Worst => 2
  }

  function Deviation(current: real, target: real): (d: real)
    ensures d >= 0.0
    ensures d == 0.0 <==> current == target
  {
    Abs(current - target)
  }

  /** Best-first classification: best when the deviation is within
      ratio*tolerance, middle when it is within the tolerance, worst beyond. */
  function Classify(dev: real, tolerance: real, ratio: real): (b: Band)
    ensures b == Best <==> dev <= tolerance * ratio
    ensures b == Middle <==> tolerance * ratio < dev <= tolerance
    ensures b == Worst <==> tolerance * ratio < dev && tolerance < dev
  {
    if dev <= tolerance * ratio then Best
    else if dev <= tolerance then Middle
    else Worst
  }

  /** Worst-first classification, the order of the periodic update callbacks:
      worst beyond the tolerance, middle beyond ratio*tolerance, best otherwise. */
  function ClassifyWorstFirst(dev: real, tolerance: real, ratio: real): (b: Band)
    ensures b == Worst <==> dev > tolerance
    ensures b == Middle <==> tolerance * ratio < dev <= tolerance
    ensures b == Best <==> dev <= tolerance && dev <= tolerance * ratio
  {
    if dev > tolerance then Worst
    else if dev > tolerance * ratio then Middle
    else Best
  }

  /** For a ratio in (0, 1] and a nonnegative deviation the two orders give the
      same band, whatever the sign of the tolerance. */
  lemma OrdersAgree(dev: real, tolerance: real, ratio: real)
    requires dev >= 0.0
    requires 0.0 < ratio <= 1.0
    ensures Classify(dev, tolerance, ratio) == ClassifyWorstFirst(dev, tolerance, ratio)
  {
    if tolerance >= 0.0 {
      assert tolerance * ratio <= tolerance;
    } else {
      assert tolerance * ratio < 0.0;
    }
  }

  /** With a ratio of at most 1 and a nonnegative tolerance the bands
      partition the deviations at ratio*tolerance and tolerance. */
  lemma BandsPartition(dev: real, tolerance: real, ratio: real)
    requires 0.0 <= ratio <= 1.0
    ensures tolerance >= 0.0 ==> (Classify(dev, tolerance, ratio) == Worst <==> dev > tolerance)
    ensures tolerance >= 0.0 ==> (Classify(dev, tolerance, ratio) == Best ==> dev <= tolerance)
  {
    if tolerance >= 0.0 {
      assert tolerance * ratio <= tolerance * 1.0;
    }
  }

  /** A zero tolerance degenerates to exact match: best iff the deviation is
      zero, worst otherwise; no middle band exists. */
  lemma ZeroTolerance(dev: real, ratio: real)
    requires dev >= 0.0
    ensures Classify(dev, 0.0, ratio) == (if dev == 0.0 then Best else Worst)
  {
  }

  /** A larger deviation never gets a better band. */
  lemma ClassifyMonotone(dev1: real, dev2: real, tolerance: real, ratio: real)
    requires dev1 <= dev2
    ensures Rank(Classify(dev1, tolerance, ratio)) <= Rank(Classify(dev2, tolerance, ratio))
  {
  }

  /** Place of `current` inside [target - tolerance, target + tolerance] as a
      percentage, clamped to [0, 100]. */
  function Position(current: real, target: real, tolerance: real): (p: real)
    requires tolerance > 0.0
    ensures 0.0 <= p <= 100.0
  {
    Clamp(0.0, 100.0, (current - (target - tolerance)) / (tolerance * 2.0) * 100.0)
  }

  /** Inside the band the position is linear: 50 at the target, 0 at the
      lower edge, 100 at the upper edge; outside it saturates. */
  lemma PositionShape(current: real, target: real, tolerance: real)
    requires tolerance > 0.0
    ensures current == target ==> Position(current, target, tolerance) == 50.0
    ensures current <= target - tolerance ==> Position(current, target, tolerance) == 0.0
    ensures current >= target + tolerance ==> Position(current, target, tolerance) == 100.0
    ensures target - tolerance <= current <= target + tolerance ==>
      Position(current, target, tolerance) == 50.0 + (current - target) / tolerance * 50.0
  {
    var q := (current - target) / tolerance;
    assert q * tolerance == current - target;
    var raw := (current - (target - tolerance)) / (tolerance * 2.0) * 100.0;
    assert raw == 50.0 + q * 50.0 by {
      assert current - (target - tolerance) == (q + 1.0) * tolerance;
      DivUnique((q + 1.0) * tolerance, tolerance * 2.0, (q + 1.0) / 2.0);
    }
    if current >= target + tolerance {
      DivAtLeast(current - target, tolerance, 1.0);
    }
    if current <= target - tolerance {
      DivAtMost(current - target, tolerance, -1.0);
    }
    if target - tolerance <= current <= target + tolerance {
      DivAtLeast(current - target, tolerance, -1.0);
      DivAtMost(current - target, tolerance, 1.0);
    }
  }

  /** The position never decreases as the reading rises. */
  lemma PositionMonotone(c1: real, c2: real, target: real, tolerance: real)
    requires tolerance > 0.0
    requires c1 <= c2
    ensures Position(c1, target, tolerance) <= Position(c2, target, tolerance)
  {
    var d := tolerance * 2.0;
    assert (c1 - (target - tolerance)) / d <= (c2 - (target - tolerance)) / d by {
      assert (c2 - (target - tolerance)) / d - (c1 - (target - tolerance)) / d == (c2 - c1) / d;
    }
  }
}
