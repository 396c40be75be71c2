/**
 * The mock telemetry service: fixed catalogue tables (facilities, systems,
 * devices, metrics) and the synthetic series generator. Network delays are not
 * modelled; the sine/cosine patterns and `Math.random` jitter of each value are
 * an input, `sample(metricId, i)`, the raw value of point `i` before clamping.
 */
module Telemetry {
  import opened Wrappers
  import opened Models

  datatype Entry = Entry(id: string, name: string)
  datatype Device = Device(id: string, name: string, kind: string)
  datatype Metric = Metric(id: string, name: string, unit: string)

  /** One point per five minutes. */
  const MsPerPoint: int := 1000 * 60 * 5

  function Facilities(): (r: seq<Entry>)
    ensures |r| == 3
  {
    [Entry("facility-1", "Headquarters"),
     Entry("facility-2", "Production Plant"),
     Entry("facility-3", "Distribution Center")]
  }

  /** `systems[facilityId] || []` */
  function Systems(facilityId: string): seq<Entry> {
    if facilityId == "facility-1" then
      [Entry("system-1", "HVAC System"), Entry("system-2", "Water Supply System")]
    else if facilityId == "facility-2" then
      [Entry("system-3", "Cooling System"), Entry("system-4", "Process Water System")]
    else if facilityId == "facility-3" then
      [Entry("system-5", "Utility System")]
    else []
  }

  /** `devices[systemId] || []` */
  function Devices(systemId: string): seq<Device> {
    if systemId == "system-1" then
      [Device("device-1", "CR95 Pump", "pump"), Device("device-2", "CR45 Pump", "pump")]
    else if systemId == "system-2" then
      [Device("device-3", "CR15 Pump", "pump"), Device("device-4", "CR20 Pump", "pump")]
    else if systemId == "system-3" then
      [Device("device-5", "CR30 Pump", "pump")]
    else if systemId == "system-4" then
      [Device("device-6", "CR10 Pump", "pump")]
    else if systemId == "system-5" then
      [Device("device-7", "CR5 Pump", "pump")]
    else []
  }

  /** The same six metrics whatever the device. */
  function Metrics(deviceId: string): seq<Metric> {
    [Metric("flow", "Flow Rate", "m³/h"),
     Metric("pressure", "Pressure", "bar"),
     Metric("temperature", "Temperature", "°C"),
     Metric("power", "Power Consumption", "kW"),
     Metric("efficiency", "Efficiency", "%"),
     Metric("runtime", "Runtime", "h")]
  }

  /** `metricNames[metricId] || metricId` */
  function MetricName(metricId: string): string {
    if metricId == "flow" then "Flow Rate"
    else if metricId == "pressure" then "Pressure"
    else if metricId == "temperature" then "Temperature"
    else if metricId == "power" then "Power Consumption"
    else if metricId == "efficiency" then "Efficiency"
    else if metricId == "runtime" then "Runtime"
    else metricId
  }

  /**
   * `Math.min(100, Math.max(10, Math.floor(duration / 300000)))`. The divisor is
   * positive, so Dafny's Euclidean `/` is JavaScript's floor of the quotient.
   */
  function PointCount(durationMs: int): (n: int)
    ensures 10 <= n <= 100
    ensures 10 <= durationMs / MsPerPoint <= 100 ==> n == durationMs / MsPerPoint
    ensures durationMs / MsPerPoint < 10 ==> n == 10
    ensures durationMs / MsPerPoint > 100 ==> n == 100
  {
    var raw := durationMs / MsPerPoint;
    if raw < 10 then 10 else if raw > 100 then 100 else raw
  }

  /** Time stamp of point `i` of `n`, spread evenly from the start to the end. */
  function PointTime(startMs: int, durationMs: int, n: int, i: nat): real
    requires n >= 2
  {
    startMs as real + i as real * (durationMs as real / (n - 1) as real)
  }

  /**
   * The number of points per metric for a request whose ends are `startMs`
   * and `endMs` in milliseconds, `None` standing for an Invalid Date. An
   * invalid end makes the duration and `pointCount` NaN, and `i < NaN` never
   * holds, so no point is generated.
   */
  function PointsFor(startMs: Option<int>, endMs: Option<int>): (n: nat)
    ensures n == 0 <==> startMs.None? || endMs.None?
    ensures startMs.Some? && endMs.Some? ==> n == PointCount(endMs.value - startMs.value)
  {
    if startMs.Some? && endMs.Some? then PointCount(endMs.value - startMs.value) else 0
  }

  /** The series generated for one metric: named by the metric, with `PointsFor` points. */
  function MetricSeries(metricId: string, startMs: Option<int>, endMs: Option<int>, sample: (string, nat) -> real): DataItem {
    if startMs.Some? && endMs.Some? then
      var d := endMs.value - startMs.value;
      var n := PointCount(d);
      DataItem(MetricName(metricId), None,
               Some(seq(n, (i: nat) => Point(PointTime(startMs.value, d, n, i), Max0(sample(metricId, i))))))
    else DataItem(MetricName(metricId), None, Some([]))
  }

  /**
   * `getTelemetryData(deviceId, metrics, {from, to})`, with both ends already
   * converted to milliseconds (`None` for an Invalid Date). The device id
   * does not influence the data.
   */
  method GetTelemetryData(deviceId: string, metrics: seq<string>, startMs: Option<int>, endMs: Option<int>,
                          sample: (string, nat) -> real)
    returns (series: seq<DataItem>)
    ensures |series| == |metrics|
    ensures forall k :: 0 <= k < |series| ==>
      series[k] == MetricSeries(metrics[k], startMs, endMs, sample)
    ensures forall k :: 0 <= k < |series| ==>
      series[k].name == MetricName(metrics[k]) && series[k].value == None && series[k].series.Some?
    ensures forall k :: 0 <= k < |series| ==>
      |series[k].series.value| == PointsFor(startMs, endMs)
    ensures forall k, i :: 0 <= k < |series| && 0 <= i < |series[k].series.value| ==>
      series[k].series.value[i].value >= 0.0
  {
    var valid := startMs.Some? && endMs.Some?;
    var start := startMs.GetOr(0);
    var duration := if valid then endMs.value - startMs.value else 0;
    // A NaN `pointCount` runs the point loop zero times.
    var pointCount := if valid then PointCount(duration) else 0;
    series := [];
    var m := 0;
    while m < |metrics|
      invariant 0 <= m <= |metrics|
      invariant |series| == m
      invariant forall k :: 0 <= k < m ==> series[k] == MetricSeries(metrics[k], startMs, endMs, sample)
    {
      var metricId := metrics[m];
      var data: seq<Point> := [];
      var i := 0;
      while i < pointCount
        invariant 0 <= i <= pointCount
        invariant |data| == i
        invariant i > 0 ==> valid
        invariant forall j :: 0 <= j < i ==>
          data[j] == Point(PointTime(start, duration, pointCount, j), Max0(sample(metricId, j)))
      {
        data := data + [Point(PointTime(start, duration, pointCount, i), Max0(sample(metricId, i)))];
        i := i + 1;
      }
      assert data == MetricSeries(metricId, startMs, endMs, sample).series.value;
      series := series + [DataItem(MetricName(metricId), None, Some(data))];
      m := m + 1;
    }
    forall k, i | 0 <= k < |series| && 0 <= i < |series[k].series.value|
      ensures series[k].series.value[i].value >= 0.0
    {
      assert series[k].series.value[i].value == Max0(sample(metrics[k], i));
    }
  }

  /** The six known metric ids have display names; any other id is its own name. */
  lemma MetricNames(metricId: string)
    ensures metricId in {"flow", "pressure", "temperature", "power", "efficiency", "runtime"}
      <==> MetricName(metricId) != metricId
    ensures MetricName(metricId) in {"Flow Rate", "Pressure", "Temperature", "Power Consumption",
                                     "Efficiency", "Runtime", metricId}
  {
  }

  /**
   * The catalogue is a proper cascade: an unknown facility has no systems, an
   * unknown system no devices, and every listed system has at least one device.
   */
  lemma CatalogueCascade(facilityId: string, systemId: string)
    ensures facilityId !in {"facility-1", "facility-2", "facility-3"} ==> Systems(facilityId) == []
    ensures systemId !in {"system-1", "system-2", "system-3", "system-4", "system-5"} ==> Devices(systemId) == []
    ensures forall f, k :: f in {"facility-1", "facility-2", "facility-3"} && 0 <= k < |Systems(f)| ==>
      |Devices(Systems(f)[k].id)| > 0
  {
  }

  /** Every device, known or not, offers the same six metrics. */
  lemma MetricsIndependentOfDevice(d1: string, d2: string)
    ensures Metrics(d1) == Metrics(d2) && |Metrics(d1)| == 6
    ensures forall m :: m in Metrics(d1) ==> MetricName(m.id) == m.name
  {
  }
}
