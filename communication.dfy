/** The industrial communication hub: live data points and device
    connections refreshed every 2 seconds, a network scan whose progress
    counter stops at 100, and the device and latency figures shown above
    the connection list. */
module IndustrialCommunication {
  import opened Common

  datatype Protocol = OpcUa | ModbusTcp | EthernetIp

  datatype ConnectionStatus = Connected | Disconnected | ConnectionError

  /** A device connection; `lastUpdate` is a time in milliseconds. */
  datatype DeviceConnection = DeviceConnection(
    id: string,
    name: string,
    protocol: Protocol,
    address: string,
    status: ConnectionStatus,
    dataPoints: int,
    lastUpdate: int,
    latency: int)

  /** A data point's value is either a number or a string. */
  datatype Value = Num(x: real) | Text(s: string)

  datatype Quality = Good | Uncertain | Bad

  datatype DataPoint = DataPoint(
    tag: string,
    value: Value,
    quality: Quality,
    timestamp: int,
    unit: Option<string>)

  /** The four devices the hub starts with; the temperature sensors have been
      in error for five minutes. */
  function SeedConnections(now: int): seq<DeviceConnection> {
    [ DeviceConnection("1", "Spectrometer Unit A", OpcUa, "192.168.1.100:4840", Connected, 24, now, 45),
      DeviceConnection("2", "Alloy Feeder System", ModbusTcp, "192.168.1.101:502", Connected, 18, now, 32),
      DeviceConnection("3", "Furnace Controller", EthernetIp, "192.168.1.102:44818", Connected, 36, now, 28),
      DeviceConnection("4", "Temperature Sensors", ModbusTcp, "192.168.1.103:502", ConnectionError, 12, now - 300000, 0) ]
  }

  function SeedLiveData(now: int): seq<DataPoint> {
    [ DataPoint("SPEC_C_CONTENT", Num(3.45), Good, now, Some("%")),
      DataPoint("SPEC_SI_CONTENT", Num(2.12), Good, now, Some("%")),
      DataPoint("FURNACE_TEMP", Num(1547.0), Good, now, Some("°C")),
      DataPoint("FEEDER_FLOW_RATE", Num(8.5), Good, now, Some("kg/min")),
      DataPoint("OXYGEN_LEVEL", Num(21.2), Uncertain, now, Some("%")),
      DataPoint("PRESSURE_VESSEL", Num(2.8), Good, now, Some("bar")) ]
  }

  /** A numeric value moves by (r - 0.5) * 0.1 and is floored at 0; a string
      value is left as it is. */
  function NextValue(v: Value, r: real): (w: Value)
    requires IsDraw(r)
    ensures w.Num? <==> v.Num?
    ensures v.Text? ==> w == v
    ensures v.Num? ==> w.x >= 0.0
    ensures v.Num? && v.x >= 0.0 ==> Abs(w.x - v.x) <= 0.05
  {
    match v
    case Num(x) => Num(Max(0.0, x + (r - 0.5) * 0.1))
    case Text(_) => v
  }

  /** `Math.random() > 0.1 ? 'good' : 'uncertain'`: the tick never reports a
      bad reading. */
  function NextQuality(r: real): (q: Quality)
    requires IsDraw(r)
    ensures q != Bad
    ensures q == Good <==> r > 0.1
  {
    if r > 0.1 then Good else Uncertain
  }

  function NextDataPoint(p: DataPoint, rValue: real, rQuality: real, now: int): DataPoint
    requires IsDraw(rValue) && IsDraw(rQuality)
  {
    p.(value := NextValue(p.value, rValue), timestamp := now, quality := NextQuality(rQuality))
  }

  /** The live data after one tick: one value draw and one quality draw per point. */
  function TickLiveData(prev: seq<DataPoint>, valueDraws: seq<real>, qualityDraws: seq<real>, now: int)
    : (next: seq<DataPoint>)
    requires |valueDraws| == |prev| && AllDraws(valueDraws)
    requires |qualityDraws| == |prev| && AllDraws(qualityDraws)
    ensures |next| == |prev|
    ensures forall i :: 0 <= i < |next| ==>
      next[i].tag == prev[i].tag && next[i].unit == prev[i].unit &&
      next[i].timestamp == now && next[i].quality != Bad &&
      (next[i].value.Num? <==> prev[i].value.Num?)
    ensures forall i :: 0 <= i < |next| && prev[i].value.Text? ==> next[i].value == prev[i].value
    ensures forall i :: 0 <= i < |next| && prev[i].value.Num? ==> next[i].value.x >= 0.0
    ensures forall i :: 0 <= i < |next| && prev[i].value.Num? && prev[i].value.x >= 0.0 ==>
      Abs(next[i].value.x - prev[i].value.x) <= 0.05
  {
    seq(|prev|, i requires 0 <= i < |prev| => NextDataPoint(prev[i], valueDraws[i], qualityDraws[i], now))
  }

  /** `Math.floor(20 + Math.random() * 30)`. */
  function LatencyFromDraw(r: real): (l: int)
    requires IsDraw(r)
    ensures 20 <= l <= 49
  {
    (20.0 + r * 30.0).Floor
  }

  function NextConnection(c: DeviceConnection, r: real, now: int): DeviceConnection
    requires IsDraw(r)
  {
    if c.status == Connected then c.(lastUpdate := now, latency := LatencyFromDraw(r))
    else c.(latency := 0)
  }

  /** The connections after one tick: no status ever changes; a connected
      device gets a fresh timestamp and a latency in [20, 49], any other
      device keeps its timestamp and reports latency 0. */
  function TickConnections(prev: seq<DeviceConnection>, draws: seq<real>, now: int)
    : (next: seq<DeviceConnection>)
    requires |draws| == |prev| && AllDraws(draws)
    ensures |next| == |prev|
    ensures forall i :: 0 <= i < |next| ==>
      next[i] == prev[i].(lastUpdate := next[i].lastUpdate, latency := next[i].latency)
    ensures forall i :: 0 <= i < |next| && prev[i].status == Connected ==>
      next[i].lastUpdate == now && 20 <= next[i].latency <= 49
    ensures forall i :: 0 <= i < |next| && prev[i].status != Connected ==>
      next[i].lastUpdate == prev[i].lastUpdate && next[i].latency == 0
  {
    seq(|prev|, i requires 0 <= i < |prev| => NextConnection(prev[i], draws[i], now))
  }

  function IsConnected(conns: seq<DeviceConnection>): seq<bool> {
    seq(|conns|, i requires 0 <= i < |conns| => conns[i].status == Connected)
  }

  /** connectedDevices: the number of connected devices. */
  function ConnectedDevices(conns: seq<DeviceConnection>): (n: nat)
    ensures n <= |conns|
  {
    CountTrueAtMostLength(IsConnected(conns));
    CountTrue(IsConnected(conns))
  }

  /** totalDataPoints: the data points of every device, connected or not. */
  function TotalDataPoints(conns: seq<DeviceConnection>): (total: int)
    ensures (forall i :: 0 <= i < |conns| ==> conns[i].dataPoints >= 0) ==>
      total >= 0 && forall i :: 0 <= i < |conns| ==> conns[i].dataPoints <= total
    decreases |conns|
  {
    if conns == [] then 0
    else TotalDataPoints(conns[..|conns| - 1]) + conns[|conns| - 1].dataPoints
  }

  /** The latencies of the connected devices, in list order. */
  function ConnectedLatencies(conns: seq<DeviceConnection>): (ls: seq<real>)
    ensures |ls| == ConnectedDevices(conns)
  {
    if conns == [] then []
    else
      var front := conns[..|conns| - 1];
      var last := conns[|conns| - 1];
      assert IsConnected(conns)[..|conns| - 1] == IsConnected(front);
      if last.status == Connected then ConnectedLatencies(front) + [last.latency as real]
      else ConnectedLatencies(front)
  }

  /** Every latency in the filtered list is one of a connected device. */
  lemma {:induction false} ConnectedLatenciesFrom(conns: seq<DeviceConnection>, lo: real, hi: real)
    requires forall i :: 0 <= i < |conns| && conns[i].status == Connected ==>
      lo <= conns[i].latency as real <= hi
    ensures forall k :: 0 <= k < |ConnectedLatencies(conns)| ==> lo <= ConnectedLatencies(conns)[k] <= hi
    decreases |conns|
  {
    if conns != [] {
      ConnectedLatenciesFrom(conns[..|conns| - 1], lo, hi);
    }
  }

  /** `Math.round(x)`: the nearest integer, halves rounded up. */
  function Round(x: real): (n: int)
    ensures x - 0.5 < n as real <= x + 0.5
  {
    (x + 0.5).Floor
  }

  /** avgLatency: the rounded mean latency of the connected devices; with no
      device connected JavaScript computes NaN, which is `None` here. */
  function AvgLatency(conns: seq<DeviceConnection>): (avg: Option<int>)
    ensures avg.None? <==> ConnectedDevices(conns) == 0
  {
    match Mean(ConnectedLatencies(conns))
    case None => None
    case Some(m) => Some(Round(m))
  }

  /** After any tick the average latency shown is within [20, 49], or NaN
      when nothing is connected. */
  lemma AvgLatencyAfterTick(prev: seq<DeviceConnection>, draws: seq<real>, now: int)
    requires |draws| == |prev| && AllDraws(draws)
    ensures var next := TickConnections(prev, draws, now);
      match AvgLatency(next)
      case None => ConnectedDevices(next) == 0
      case Some(a) => 20 <= a <= 49
  {
    var next := TickConnections(prev, draws, now);
    var ls := ConnectedLatencies(next);
    ConnectedLatenciesFrom(next, 20.0, 49.0);
    if ls != [] {
      MeanBounds(ls, 20.0, 49.0);
    }
  }

  /** The tick keeps the number of connected devices. */
  lemma TickKeepsConnectedDevices(prev: seq<DeviceConnection>, draws: seq<real>, now: int)
    requires |draws| == |prev| && AllDraws(draws)
    ensures ConnectedDevices(TickConnections(prev, draws, now)) == ConnectedDevices(prev)
  {
    assert IsConnected(TickConnections(prev, draws, now)) == IsConnected(prev);
  }

  /** The seed: 90 data points over four devices. */
  lemma SeedDataPoints(now: int)
    ensures TotalDataPoints(SeedConnections(now)) == 90
  {
    var c := SeedConnections(now);
    assert TotalDataPoints(c[..1]) == 24 by { assert c[..1][..0] == []; }
    assert TotalDataPoints(c[..2]) == 42 by { assert c[..2][..1] == c[..1]; }
    assert TotalDataPoints(c[..3]) == 78 by { assert c[..3][..2] == c[..2]; }
    assert c[..|c| - 1] == c[..3];
  }

  /** The seed: three of four devices connected, with latencies 45, 32, 28. */
  lemma SeedConnectedLatencies(now: int)
    ensures ConnectedLatencies(SeedConnections(now)) == [45.0, 32.0, 28.0]
  {
    var c := SeedConnections(now);
    assert ConnectedLatencies(c[..1]) == [45.0] by { assert c[..1][..0] == []; }
    assert ConnectedLatencies(c[..2]) == [45.0, 32.0] by { assert c[..2][..1] == c[..1]; }
    assert ConnectedLatencies(c[..3]) == [45.0, 32.0, 28.0] by { assert c[..3][..2] == c[..2]; }
    assert c[..|c| - 1] == c[..3];
  }

  /** The seed's average latency is round(105 / 3) = 35. */
  lemma SeedAvgLatency(now: int)
    ensures ConnectedDevices(SeedConnections(now)) == 3
    ensures AvgLatency(SeedConnections(now)) == Some(35)
  {
    SeedConnectedLatencies(now);
    var ls := [45.0, 32.0, 28.0];
    assert Sum(ls[..1]) == 45.0 by { assert ls[..1][..0] == []; }
    assert Sum(ls[..2]) == 77.0 by { assert ls[..2][..1] == ls[..1]; }
    assert Sum(ls) == 105.0 by { assert ls[..|ls| - 1] == ls[..2]; }
    assert Mean(ls) == Some(35.0);
  }

  /** One step of the scan counter: a value that has reached 100 is set to
      exactly 100 and scanning stops; otherwise it grows by Math.random() * 20. */
  function NextScan(prev: real, r: real): (next: (real, bool))
    requires IsDraw(r)
    ensures prev >= 100.0 ==> next == (100.0, false)
    ensures prev < 100.0 ==> next.1 && prev <= next.0 < prev + 20.0
  {
    if prev >= 100.0 then (100.0, false) else (prev + r * 20.0, true)
  }

  /** The counter can be shown above 100 for one tick before it is reset to 100. */
  lemma ScanOvershoots()
    ensures NextScan(95.0, 0.5) == (105.0, true)
    ensures NextScan(105.0, 0.5) == (100.0, false)
  {
  }

  /** The hub's state. */
  class Hub {
    var connections: seq<DeviceConnection>
    var liveData: seq<DataPoint>
    var isScanning: bool
    var scanProgress: real

    /** The scan counter stays below 120, and at most 100 once the scan has stopped. */
    ghost predicate Valid()
      reads this
    {
      0.0 <= scanProgress < 120.0 &&
      (!isScanning ==> scanProgress <= 100.0)
    }

    constructor (now: int)
      ensures Valid()
      ensures connections == SeedConnections(now) && liveData == SeedLiveData(now)
      ensures !isScanning && scanProgress == 0.0
    {
      connections := SeedConnections(now);
      liveData := SeedLiveData(now);
      isScanning := false;
      scanProgress := 0.0;
    }

    /** The 2-second refresh of the data points and connections. */
    method Refresh(valueDraws: seq<real>, qualityDraws: seq<real>, latencyDraws: seq<real>, now: int)
      requires |valueDraws| == |liveData| && AllDraws(valueDraws)
      requires |qualityDraws| == |liveData| && AllDraws(qualityDraws)
      requires |latencyDraws| == |connections| && AllDraws(latencyDraws)
      modifies this
      ensures liveData == TickLiveData(old(liveData), valueDraws, qualityDraws, now)
      ensures connections == TickConnections(old(connections), latencyDraws, now)
      ensures isScanning == old(isScanning) && scanProgress == old(scanProgress)
    {
      liveData := TickLiveData(liveData, valueDraws, qualityDraws, now);
      connections := TickConnections(connections, latencyDraws, now);
    }

    /** startNetworkScan: scanning from 0; the button is disabled while a
        scan runs. */
    method StartNetworkScan()
      requires !isScanning
      modifies this
      ensures Valid()
      ensures isScanning && scanProgress == 0.0
      ensures connections == old(connections) && liveData == old(liveData)
    {
      isScanning := true;
      scanProgress := 0.0;
    }

    /** One 300 ms step of the scan interval, which runs only while scanning. */
    method ScanTick(r: real)
      requires Valid() && isScanning && IsDraw(r)
      modifies this
      ensures Valid()
      ensures (scanProgress, isScanning) == NextScan(old(scanProgress), r)
      ensures old(scanProgress) <= scanProgress || scanProgress == 100.0
      ensures connections == old(connections) && liveData == old(liveData)
    {
      var next := NextScan(scanProgress, r);
      scanProgress, isScanning := next.0, next.1;
    }
  }
}
