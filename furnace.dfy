/** The furnace monitor: four temperature zones re-classified with the 0.7
    ratio on every 5-second tick, the power meter whose efficiency is held in
    [80, 95], and the gas flows, whose shown total is never recomputed. */
module Furnace {
  import opened Common
  import Tolerance

  datatype ZoneStatus = Optimal | Warning | Critical

  datatype FurnaceZone = FurnaceZone(
    id: string,
    name: string,
    temperature: real,
    targetTemp: real,
    tolerance: real,
    status: ZoneStatus)

  datatype PowerMetrics = PowerMetrics(current: real, average: real, peak: real, efficiency: real)

  datatype GasFlow = GasFlow(oxygen: real, argon: real, nitrogen: real, totalFlow: real)

  function SeedZones(): seq<FurnaceZone> {
    [ FurnaceZone("1", "Arc Zone", 1650.0, 1650.0, 25.0, Optimal),
      FurnaceZone("2", "Ladle Zone", 1580.0, 1590.0, 20.0, Warning),
      FurnaceZone("3", "Tapping Zone", 1620.0, 1615.0, 15.0, Optimal),
      FurnaceZone("4", "Slag Zone", 1480.0, 1500.0, 30.0, Warning) ]
  }

  function SeedPower(): PowerMetrics {
    PowerMetrics(45.8, 43.2, 52.1, 87.4)
  }

  function SeedGas(): GasFlow {
    GasFlow(125.6, 45.2, 18.9, 189.7)
  }

  /** The zone rule, worst first: critical beyond the tolerance, warning
      beyond 0.7 of it, optimal otherwise. */
  function ZoneStatusOf(temperature: real, targetTemp: real, tolerance: real): (s: ZoneStatus)
    ensures s == Critical <==> Tolerance.Deviation(temperature, targetTemp) > tolerance
    ensures s == Warning <==>
      tolerance * 0.7 < Tolerance.Deviation(temperature, targetTemp) <= tolerance
    ensures s == Optimal <==>
      Tolerance.Deviation(temperature, targetTemp) <= tolerance &&
      Tolerance.Deviation(temperature, targetTemp) <= tolerance * 0.7
  {
    match Tolerance.ClassifyWorstFirst(Tolerance.Deviation(temperature, targetTemp), tolerance, 0.7)
    case Best => Optimal
    case Middle => Warning
    case Worst => Critical
  }

  predicate Consistent(z: FurnaceZone) {
    z.status == ZoneStatusOf(z.temperature, z.targetTemp, z.tolerance)
  }

  function TickZone(z: FurnaceZone, draw: real): FurnaceZone {
    var newTemp := z.temperature + (draw - 0.5) * 10.0;
    z.(temperature := newTemp, status := ZoneStatusOf(newTemp, z.targetTemp, z.tolerance))
  }

  /** The zones after one tick: each temperature moves by less than 5 degrees
      and every status follows the rule. */
  function TickZones(prev: seq<FurnaceZone>, draws: seq<real>): (next: seq<FurnaceZone>)
    requires |draws| == |prev| && AllDraws(draws)
    ensures |next| == |prev|
    ensures forall i :: 0 <= i < |next| ==>
      -5.0 <= next[i].temperature - prev[i].temperature < 5.0
    ensures forall i :: 0 <= i < |next| ==> Consistent(next[i])
    ensures forall i :: 0 <= i < |next| ==>
      next[i] == prev[i].(temperature := next[i].temperature, status := next[i].status)
  {
    seq(|prev|, i requires 0 <= i < |prev| => TickZone(prev[i], draws[i]))
  }

  /** The ladle zone (10 degrees off, 0.7 * 20 = 14) and the slag zone (20 off,
      0.7 * 30 = 21) are seeded as warnings, though the rule makes them optimal. */
  lemma SeedZoneStatuses()
    ensures SeedZones()[1].status == Warning && ZoneStatusOf(1580.0, 1590.0, 20.0) == Optimal
    ensures SeedZones()[3].status == Warning && ZoneStatusOf(1480.0, 1500.0, 30.0) == Optimal
    ensures Consistent(SeedZones()[0]) && Consistent(SeedZones()[2])
  {
    assert Tolerance.Deviation(1580.0, 1590.0) == 10.0;
    assert Tolerance.Deviation(1480.0, 1500.0) == 20.0;
    assert Tolerance.Deviation(1650.0, 1650.0) == 0.0;
    assert Tolerance.Deviation(1620.0, 1615.0) == 5.0;
  }

  /** Efficiency in the band the tick clamps it to. */
  predicate EfficiencyInBand(p: PowerMetrics) {
    80.0 <= p.efficiency <= 95.0
  }

  /** The power meter after a tick: the current moves by less than 1, the
      efficiency is clamped into [80, 95]; average and peak are never updated. */
  function TickPower(prev: PowerMetrics, drawCurrent: real, drawEfficiency: real): (next: PowerMetrics)
    requires IsDraw(drawCurrent) && IsDraw(drawEfficiency)
    ensures -1.0 <= next.current - prev.current < 1.0
    ensures EfficiencyInBand(next)
    ensures EfficiencyInBand(prev) ==> Abs(next.efficiency - prev.efficiency) <= 0.5
    ensures next.average == prev.average && next.peak == prev.peak
  {
    prev.(current := prev.current + (drawCurrent - 0.5) * 2.0,
          efficiency := Clamp(80.0, 95.0, prev.efficiency + (drawEfficiency - 0.5) * 1.0))
  }

  /** The peak is not a running maximum: one tick can lift the current above it. */
  lemma PeakNotTracked()
    ensures var p := TickPower(PowerMetrics(52.0, 43.2, 52.1, 87.4), 0.9, 0.5);
      p.current > p.peak
  {
  }

  /** The gas flows after a tick: oxygen, argon and nitrogen move by less than
      2.5, 1 and 0.5; the total flow keeps its old value. */
  function TickGas(prev: GasFlow, drawOxygen: real, drawArgon: real, drawNitrogen: real): (next: GasFlow)
    requires IsDraw(drawOxygen) && IsDraw(drawArgon) && IsDraw(drawNitrogen)
    ensures -2.5 <= next.oxygen - prev.oxygen < 2.5
    ensures -1.0 <= next.argon - prev.argon < 1.0
    ensures -0.5 <= next.nitrogen - prev.nitrogen < 0.5
    ensures next.totalFlow == prev.totalFlow
  {
    prev.(oxygen := prev.oxygen + (drawOxygen - 0.5) * 5.0,
          argon := prev.argon + (drawArgon - 0.5) * 2.0,
          nitrogen := prev.nitrogen + (drawNitrogen - 0.5) * 1.0)
  }

  predicate TotalMatches(g: GasFlow) {
    g.oxygen + g.argon + g.nitrogen == g.totalFlow
  }

  /** The seed total is the sum of the three flows, but a tick that moves any
      flow breaks that: the shown total goes stale. */
  lemma GasTotalGoesStale()
    ensures TotalMatches(SeedGas())
    ensures !TotalMatches(TickGas(SeedGas(), 0.6, 0.5, 0.5))
  {
  }

  /** getEfficiencyColor. */
  datatype EfficiencyColor = Green | Yellow | Red

  function GetEfficiencyColor(efficiency: real): (c: EfficiencyColor)
    ensures c == Green <==> efficiency >= 85.0
    ensures c == Yellow <==> 80.0 <= efficiency < 85.0
    ensures c == Red <==> efficiency < 80.0
  {
    if efficiency >= 85.0 then Green
    else if efficiency >= 80.0 then Yellow
    else Red
  }

  /** Once the meter is in its band the efficiency is never shown red. */
  lemma EfficiencyNeverRed(p: PowerMetrics)
    requires EfficiencyInBand(p)
    ensures GetEfficiencyColor(p.efficiency) != Red
  {
  }

  function IsCritical(zones: seq<FurnaceZone>): seq<bool> {
    seq(|zones|, i requires 0 <= i < |zones| => zones[i].status == Critical)
  }

  function IsWarning(zones: seq<FurnaceZone>): seq<bool> {
    seq(|zones|, i requires 0 <= i < |zones| => zones[i].status == Warning)
  }

  /** The zones in critical status; none exactly when no zone is. */
  function CriticalZones(zones: seq<FurnaceZone>): (n: nat)
    ensures n <= |zones|
    ensures n == 0 <==> forall i :: 0 <= i < |zones| ==> zones[i].status != Critical
  {
    var flags := IsCritical(zones);
    assert forall i :: 0 <= i < |zones| ==> (flags[i] <==> zones[i].status == Critical);
    CountTrueAtMostLength(flags);
    CountTrueNone(flags);
    CountTrue(flags)
  }

  /** The zones in warning status; none exactly when no zone is. */
  function WarningZones(zones: seq<FurnaceZone>): (n: nat)
    ensures n <= |zones|
    ensures n == 0 <==> forall i :: 0 <= i < |zones| ==> zones[i].status != Warning
  {
    var flags := IsWarning(zones);
    assert forall i :: 0 <= i < |zones| ==> (flags[i] <==> zones[i].status == Warning);
    CountTrueAtMostLength(flags);
    CountTrueNone(flags);
    CountTrue(flags)
  }

  /** No zone is counted both critical and warning. */
  lemma ZoneCountsBounded(zones: seq<FurnaceZone>)
    ensures CriticalZones(zones) + WarningZones(zones) <= |zones|
    ensures CriticalZones(zones) == 0 <==>
      forall i :: 0 <= i < |zones| ==> zones[i].status != Critical
  {
    CountTrueDisjoint(IsCritical(zones), IsWarning(zones));
  }

  function Temperatures(zones: seq<FurnaceZone>): seq<real> {
    seq(|zones|, i requires 0 <= i < |zones| => zones[i].temperature)
  }

  /** avgTemperature: the mean zone temperature; no zones gives NaN (None). */
  function AvgTemperature(zones: seq<FurnaceZone>): (avg: Option<real>)
    ensures avg.None? <==> zones == []
  {
    Mean(Temperatures(zones))
  }

  /** The average lies between the coldest and the hottest zone. */
  lemma AvgTemperatureBounds(zones: seq<FurnaceZone>, lo: real, hi: real)
    requires zones != []
    requires forall i :: 0 <= i < |zones| ==> lo <= zones[i].temperature <= hi
    ensures lo <= AvgTemperature(zones).value <= hi
  {
    MeanBounds(Temperatures(zones), lo, hi);
  }

  /** The zone's bar: the temperature's place in its tolerance band. */
  function ZoneProgress(z: FurnaceZone): (p: real)
    requires z.tolerance > 0.0
    ensures 0.0 <= p <= 100.0
    ensures z.temperature == z.targetTemp ==> p == 50.0
    ensures z.temperature <= z.targetTemp - z.tolerance ==> p == 0.0
    ensures z.temperature >= z.targetTemp + z.tolerance ==> p == 100.0
  {
    Tolerance.PositionShape(z.temperature, z.targetTemp, z.tolerance);
    Tolerance.Position(z.temperature, z.targetTemp, z.tolerance)
  }

  /** The monitor's state. */
  class Monitor {
    var zones: seq<FurnaceZone>
    var power: PowerMetrics
    var gas: GasFlow
    var lastUpdated: int

    /** The efficiency stays in the band the tick clamps it to. */
    ghost predicate Valid()
      reads this
    {
      EfficiencyInBand(power)
    }

    constructor (now: int)
      ensures Valid()
      ensures zones == SeedZones() && power == SeedPower() && gas == SeedGas()
      ensures lastUpdated == now
    {
      zones := SeedZones();
      power := SeedPower();
      gas := SeedGas();
      lastUpdated := now;
    }

    /** The 5-second interval callback: zones, power and gas move, one draw each. */
    method Tick(zoneDraws: seq<real>, drawCurrent: real, drawEfficiency: real,
                drawOxygen: real, drawArgon: real, drawNitrogen: real, now: int)
      requires Valid()
      requires |zoneDraws| == |zones| && AllDraws(zoneDraws)
      requires IsDraw(drawCurrent) && IsDraw(drawEfficiency)
      requires IsDraw(drawOxygen) && IsDraw(drawArgon) && IsDraw(drawNitrogen)
      modifies this
      ensures Valid()
      ensures zones == TickZones(old(zones), zoneDraws)
      ensures power == TickPower(old(power), drawCurrent, drawEfficiency)
      ensures gas == TickGas(old(gas), drawOxygen, drawArgon, drawNitrogen)
      ensures lastUpdated == now
    {
      zones := TickZones(zones, zoneDraws);
      power := TickPower(power, drawCurrent, drawEfficiency);
      gas := TickGas(gas, drawOxygen, drawArgon, drawNitrogen);
      lastUpdated := now;
    }
  }
}
