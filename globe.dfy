/** The live metrics card of the globe view: six plant-wide figures nudged
    every 3 seconds, each clamped into its own band except the production
    total, which only has a floor. */
module LiveMetricsGlobe {
  import opened Common

  /** `Math.floor((r - 0.5) * 2)`: the furnace count never rises by itself. */
  function FurnaceStep(r: real): (s: int)
    requires IsDraw(r)
    ensures s == -1 || s == 0
    ensures s == 0 <==> r >= 0.5
  {
    ((r - 0.5) * 2.0).Floor
  }

  /** `Math.floor((r - 0.5) * 100)`: an integer in [-50, 49]. */
  function ProductionStep(r: real): (s: int)
    requires IsDraw(r)
    ensures -50 <= s <= 49
  {
    ((r - 0.5) * 100.0).Floor
  }

  function NextEfficiency(prev: real, r: real): (v: real)
    requires IsDraw(r)
    ensures 85.0 <= v <= 98.0
    ensures 85.0 <= prev <= 98.0 ==> Abs(v - prev) <= 0.25
  {
    Clamp(85.0, 98.0, prev + (r - 0.5) * 0.5)
  }

  function NextFurnaces(prev: int, r: real): (n: int)
    requires IsDraw(r)
    ensures 40 <= n <= 55
    ensures 40 <= prev <= 55 ==> prev - 1 <= n <= prev
  {
    ClampInt(40, 55, prev + FurnaceStep(r))
  }

  function NextProduction(prev: int, r: real): (n: int)
    requires IsDraw(r)
    ensures n >= 10000
    ensures prev >= 10050 ==> prev - 50 <= n <= prev + 49
  {
    if prev + ProductionStep(r) < 10000 then 10000 else prev + ProductionStep(r)
  }

  function NextQuality(prev: real, r: real): (v: real)
    requires IsDraw(r)
    ensures 90.0 <= v <= 99.0
    ensures 90.0 <= prev <= 99.0 ==> Abs(v - prev) <= 0.15
  {
    Clamp(90.0, 99.0, prev + (r - 0.5) * 0.3)
  }

  function NextTransfer(prev: real, r: real): (v: real)
    requires IsDraw(r)
    ensures 1.0 <= v <= 5.0
    ensures 1.0 <= prev <= 5.0 ==> Abs(v - prev) <= 0.1
  {
    Clamp(1.0, 5.0, prev + (r - 0.5) * 0.2)
  }

  function NextUptime(prev: real, r: real): (v: real)
    requires IsDraw(r)
    ensures 99.5 <= v <= 100.0
    ensures 99.5 <= prev <= 100.0 ==> Abs(v - prev) <= 0.005
  {
    Clamp(99.5, 100.0, prev + (r - 0.5) * 0.01)
  }

  /** The metrics card's state. */
  class Globe {
    var globalEfficiency: real
    var activeFurnaces: int
    var totalProduction: int
    var qualityScore: real
    var dataTransfer: real
    var uptime: real

    /** Every figure inside the band its tick clamps it to. */
    ghost predicate Valid()
      reads this
    {
      85.0 <= globalEfficiency <= 98.0 &&
      40 <= activeFurnaces <= 55 &&
      totalProduction >= 10000 &&
      90.0 <= qualityScore <= 99.0 &&
      1.0 <= dataTransfer <= 5.0 &&
      99.5 <= uptime <= 100.0
    }

    /** The seed figures already lie in their bands. */
    constructor ()
      ensures Valid()
      ensures globalEfficiency == 91.2 && activeFurnaces == 47 && totalProduction == 12847
      ensures qualityScore == 94.8 && dataTransfer == 2.4 && uptime == 99.97
    {
      globalEfficiency := 91.2;
      activeFurnaces := 47;
      totalProduction := 12847;
      qualityScore := 94.8;
      dataTransfer := 2.4;
      uptime := 99.97;
    }

    /** The 3-second interval callback, one draw per figure. */
    method Tick(rEfficiency: real, rFurnaces: real, rProduction: real,
                rQuality: real, rTransfer: real, rUptime: real)
      requires IsDraw(rEfficiency) && IsDraw(rFurnaces) && IsDraw(rProduction)
      requires IsDraw(rQuality) && IsDraw(rTransfer) && IsDraw(rUptime)
      modifies this
      ensures Valid()
      ensures globalEfficiency == NextEfficiency(old(globalEfficiency), rEfficiency)
      ensures activeFurnaces == NextFurnaces(old(activeFurnaces), rFurnaces)
      ensures totalProduction == NextProduction(old(totalProduction), rProduction)
      ensures qualityScore == NextQuality(old(qualityScore), rQuality)
      ensures dataTransfer == NextTransfer(old(dataTransfer), rTransfer)
      ensures uptime == NextUptime(old(uptime), rUptime)
      ensures old(Valid()) ==> activeFurnaces <= old(activeFurnaces)
    {
      globalEfficiency := NextEfficiency(globalEfficiency, rEfficiency);
      activeFurnaces := NextFurnaces(activeFurnaces, rFurnaces);
      totalProduction := NextProduction(totalProduction, rProduction);
      qualityScore := NextQuality(qualityScore, rQuality);
      dataTransfer := NextTransfer(dataTransfer, rTransfer);
      uptime := NextUptime(uptime, rUptime);
    }
  }
}
