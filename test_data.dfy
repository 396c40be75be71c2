/**
 * The simulated data streams a widget without a configured data source
 * shows: per widget id, a current data array, created on first request
 * from the widget type and replaced on every timer tick.
 *
 * `Math.random()` is the parameter `rand`: `rand(k)` is the k-th draw of
 * one generate or update call, in the order the calls happen.
 * `Math.sin` is the parameter `sine`; the clock is `nowMs`.
 */
module TestData {
  import opened Wrappers
  import opened Models

  /** Milliseconds between two updates of a stream. */
  const UpdateIntervalMs: int := 2000

  /** Milliseconds between two generated history points. */
  const PointSpacingMs: int := 60000

  /** Every draw lies in [0, 1), as `Math.random()` promises. */
  ghost predicate RandomUnit(rand: nat -> real) {
    forall k: nat :: 0.0 <= rand(k) < 1.0
  }

  datatype SeriesConfig = SeriesConfig(name: string, baseValue: real, amplitude: real, frequency: real, noise: real)

  /** The three simulated line series, in order. */
  function LineConfigs(): (r: seq<SeriesConfig>)
    ensures |r| == 3
  {
    [ SeriesConfig("Flow Rate", 50.0, 10.0, 0.2, 5.0),
      SeriesConfig("Pressure", 4.0, 1.0, 0.1, 0.5),
      SeriesConfig("Temperature", 25.0, 5.0, 0.15, 1.0) ]
  }

  function LineNames(): seq<string> {
    ["Flow Rate", "Pressure", "Temperature"]
  }

  /** The configuration an update uses for a series: its own by name, else the default wave. */
  function ConfigFor(name: string): (s: SeriesConfig)
    ensures name !in LineNames() ==> s == SeriesConfig(name, 50.0, 10.0, 0.2, 5.0)
    ensures forall k :: 0 <= k < 3 && LineConfigs()[k].name == name ==> s == LineConfigs()[k]
  {
    if name == "Flow Rate" then LineConfigs()[0]
    else if name == "Pressure" then LineConfigs()[1]
    else if name == "Temperature" then LineConfigs()[2]
    else SeriesConfig(name, 50.0, 10.0, 0.2, 5.0)
  }

  /** The timestamp of point `i` of `n` history points ending at `endMs`, one per minute. */
  function HistoryTime(endMs: int, n: nat, i: nat): real {
    (endMs - (n - i - 1) * PointSpacingMs) as real
  }

  /** Point `i` of series `k` of the generated line data. */
  function WavePoint(s: SeriesConfig, k: nat, endMs: int, n: nat, i: nat, rand: nat -> real, sine: real -> real): Point {
    Point(HistoryTime(endMs, n, i),
          Max0(s.baseValue + s.amplitude * sine(i as real * s.frequency) + (rand(k * n + i) - 0.5) * s.noise))
  }

  /** The generated line data: the three series with `n` points each. */
  function MultiSeries(endMs: int, n: nat, rand: nat -> real, sine: real -> real): seq<DataItem> {
    seq(3, k requires 0 <= k < 3 =>
      DataItem(LineConfigs()[k].name, None,
               Some(seq(n, i requires 0 <= i < n => WavePoint(LineConfigs()[k], k, endMs, n, i, rand, sine)))))
  }

  /** One generated card point. */
  function CardPoint(endMs: int, n: nat, i: nat, rand: nat -> real): Point {
    Point(HistoryTime(endMs, n, i), Max0(75.0 + (rand(i) - 0.5) * 10.0))
  }

  /** The generated card data: one series named Efficiency with `n` points around 75. */
  function CardSeries(endMs: int, n: nat, rand: nat -> real): seq<DataItem> {
    [DataItem("Efficiency", None, Some(seq(n, i requires 0 <= i < n => CardPoint(endMs, n, i, rand))))]
  }

  function Scalar(name: string, v: real): DataItem {
    DataItem(name, Some(v), None)
  }

  /** The generated bar data: five systems around their base values. */
  function CategoryData(rand: nat -> real): seq<DataItem> {
    [ Scalar("System A", 65.0 + rand(0) * 10.0),
      Scalar("System B", 48.0 + rand(1) * 10.0),
      Scalar("System C", 72.0 + rand(2) * 10.0),
      Scalar("System D", 53.0 + rand(3) * 10.0),
      Scalar("System E", 39.0 + rand(4) * 10.0) ]
  }

  /** The generated pie data: five consumers around their base shares. */
  function DistributionData(rand: nat -> real): seq<DataItem> {
    [ Scalar("Heating", 35.0 + rand(0) * 5.0),
      Scalar("Cooling", 25.0 + rand(1) * 5.0),
      Scalar("Ventilation", 15.0 + rand(2) * 5.0),
      Scalar("Water", 20.0 + rand(3) * 5.0),
      Scalar("Other", 5.0 + rand(4) * 5.0) ]
  }

  /** The generated gauge data: one value between 65 and 75. */
  function GaugeData(rand: nat -> real): seq<DataItem> {
    [Scalar("Value", 65.0 + rand(0) * 10.0)]
  }

  /** The first data array of a stream, by widget type; an unknown type gets line data. */
  function InitialData(t: WidgetType, nowMs: int, rand: nat -> real, sine: real -> real): seq<DataItem> {
    match t
    case LineChart => MultiSeries(nowMs, 30, rand, sine)
    case BarChart => CategoryData(rand)
    case PieChart => DistributionData(rand)
    case Gauge => GaugeData(rand)
    case Card => CardSeries(nowMs, 10, rand)
    case Other(_) => MultiSeries(nowMs, 30, rand, sine)
  }

  /** `generateMultiSeriesData` */
  method GenerateMultiSeriesData(endMs: int, n: nat, rand: nat -> real, sine: real -> real) returns (data: seq<DataItem>)
    ensures data == MultiSeries(endMs, n, rand, sine)
  {
    var configs := LineConfigs();
    data := [];
    var k := 0;
    while k < 3
      invariant 0 <= k <= 3
      invariant |data| == k
      invariant forall j :: 0 <= j < k ==> data[j] == MultiSeries(endMs, n, rand, sine)[j]
    {
      var s := configs[k];
      var points: seq<Point> := [];
      var i := 0;
      while i < n
        invariant 0 <= i <= n
        invariant |points| == i
        invariant forall j :: 0 <= j < i ==> points[j] == WavePoint(s, k, endMs, n, j, rand, sine)
      {
        var value := s.baseValue + s.amplitude * sine(i as real * s.frequency) + (rand(k * n + i) - 0.5) * s.noise;
        points := points + [Point(HistoryTime(endMs, n, i), Max0(value))];
        i := i + 1;
      }
      assert points == seq(n, i requires 0 <= i < n => WavePoint(LineConfigs()[k], k, endMs, n, i, rand, sine));
      data := data + [DataItem(s.name, None, Some(points))];
      k := k + 1;
    }
  }

  /** `generateCardData` */
  method GenerateCardData(endMs: int, n: nat, rand: nat -> real) returns (data: seq<DataItem>)
    ensures data == CardSeries(endMs, n, rand)
  {
    var points: seq<Point> := [];
    var i := 0;
    while i < n
      invariant 0 <= i <= n
      invariant |points| == i
      invariant forall j :: 0 <= j < i ==> points[j] == CardPoint(endMs, n, j, rand)
    {
      var value := 75.0 + (rand(i) - 0.5) * 10.0;
      points := points + [Point(HistoryTime(endMs, n, i), Max0(value))];
      i := i + 1;
    }
    assert points == seq(n, i requires 0 <= i < n => CardPoint(endMs, n, i, rand));
    data := [DataItem("Efficiency", None, Some(points))];
  }

  /** `generateInitialData` */
  method GenerateInitialData(t: WidgetType, nowMs: int, rand: nat -> real, sine: real -> real) returns (data: seq<DataItem>)
    ensures data == InitialData(t, nowMs, rand, sine)
  {
    match t {
      case LineChart => data := GenerateMultiSeriesData(nowMs, 30, rand, sine);
      case BarChart => data := CategoryData(rand);
      case PieChart => data := DistributionData(rand);
      case Gauge => data := GaugeData(rand);
      case Card => data := GenerateCardData(nowMs, 10, rand);
      case Other(_) => data := GenerateMultiSeriesData(nowMs, 30, rand, sine);
    }
  }

  // ---- updates ----

  /**
   * One line series after a tick: the oldest point drops out and a new one,
   * 70% the last value and 30% the wave with noise, joins at `nowMs`.
   */
  function SlideSeries(item: DataItem, k: nat, nowMs: int, rand: nat -> real, sine: real -> real): DataItem
    requires HasPoints(item)
  {
    var s := ConfigFor(item.name);
    var points := item.series.value;
    var theoretical := s.baseValue + s.amplitude * sine(|points| as real * s.frequency);
    var next := 0.7 * LastValue(points) + 0.3 * (theoretical + (rand(k) - 0.5) * s.noise);
    item.(series := Some(points[1..] + [Point(nowMs as real, Max0(next))]))
  }

  predicate AllHavePoints(data: seq<DataItem>) {
    forall k :: 0 <= k < |data| ==> HasPoints(data[k])
  }

  predicate AllHaveValues(data: seq<DataItem>) {
    forall k :: 0 <= k < |data| ==> data[k].value.Some?
  }

  /** `updateMultiSeriesData` */
  function UpdateMultiSeries(data: seq<DataItem>, nowMs: int, rand: nat -> real, sine: real -> real): seq<DataItem>
    requires AllHavePoints(data)
  {
    seq(|data|, k requires 0 <= k < |data| => SlideSeries(data[k], k, nowMs, rand, sine))
  }

  /** Every value moves by a draw scaled to `step`, around zero, and stays non-negative (bar and pie updates). */
  function Nudge(data: seq<DataItem>, step: real, rand: nat -> real): seq<DataItem>
    requires AllHaveValues(data)
  {
    seq(|data|, k requires 0 <= k < |data| =>
      data[k].(value := Some(Max0(data[k].value.value + (rand(k) - 0.5) * step))))
  }

  /** `Math.max(0, Math.min(100, v))` */
  function Clamp100(v: real): (r: real)
    ensures 0.0 <= r <= 100.0
    ensures 0.0 <= v <= 100.0 ==> r == v
  {
    if v < 0.0 then 0.0 else if v > 100.0 then 100.0 else v
  }

  /** The gauge value after a tick: a tenth of the way toward 75, plus noise, within [0, 100]. */
  function GaugeStep(current: real, draw: real): real {
    Clamp100(current + (75.0 - current) * 0.1 + (draw - 0.5) * 5.0)
  }

  /** `updateGaugeData` */
  function UpdateGauge(data: seq<DataItem>, rand: nat -> real): seq<DataItem>
    requires |data| > 0 && data[0].value.Some?
  {
    [Scalar("Value", GaugeStep(data[0].value.value, rand(0)))]
  }

  /**
   * `updateCardData`: data without a first series is regenerated; otherwise
   * the series slides by one point that drifts from the last value (75 when
   * that value is zero).
   */
  function UpdateCard(data: seq<DataItem>, nowMs: int, rand: nat -> real): seq<DataItem> {
    if |data| == 0 || !HasPoints(data[0]) then CardSeries(nowMs, 10, rand)
    else
      var points := data[0].series.value;
      var last := if LastValue(points) != 0.0 then LastValue(points) else 75.0;
      [DataItem(data[0].name, None, Some(points[1..] + [Point(nowMs as real, Max0(last + (rand(0) - 0.5) * 3.0))]))]
  }

  /** What an update needs of the current data array for the widget type. */
  predicate Updatable(t: WidgetType, data: seq<DataItem>) {
    match t
    case LineChart => AllHavePoints(data)
    case BarChart => AllHaveValues(data)
    case PieChart => AllHaveValues(data)
    case Gauge => |data| > 0 && data[0].value.Some?
    case Card => true
    case Other(_) => true
  }

  /** `updateTestData`: the next data array of a stream; an unknown type keeps its data. */
  function Updated(t: WidgetType, data: seq<DataItem>, nowMs: int, rand: nat -> real, sine: real -> real): seq<DataItem>
    requires Updatable(t, data)
  {
    match t
    case LineChart => UpdateMultiSeries(data, nowMs, rand, sine)
    case BarChart => Nudge(data, 5.0, rand)
    case PieChart => Nudge(data, 2.0, rand)
    case Gauge => UpdateGauge(data, rand)
    case Card => UpdateCard(data, nowMs, rand)
    case Other(_) => data
  }

  /** `updateTestData`, which regenerates card data with the looping generator. */
  method UpdateTestData(t: WidgetType, data: seq<DataItem>, nowMs: int, rand: nat -> real, sine: real -> real)
    returns (next: seq<DataItem>)
    requires Updatable(t, data)
    ensures next == Updated(t, data, nowMs, rand, sine)
  {
    if t == Card && (|data| == 0 || !HasPoints(data[0])) {
      next := GenerateCardData(nowMs, 10, rand);
    } else {
      next := Updated(t, data, nowMs, rand, sine);
    }
  }

  // ---- the shapes a stream keeps ----

  predicate SeriesOfLength(item: DataItem, n: nat) {
    item.series.Some? && |item.series.value| == n
  }

  function Names(data: seq<DataItem>): (r: seq<string>)
    ensures |r| == |data| && forall k :: 0 <= k < |data| ==> r[k] == data[k].name
  {
    seq(|data|, k requires 0 <= k < |data| => data[k].name)
  }

  predicate NonNegative(data: seq<DataItem>) {
    && (forall k :: 0 <= k < |data| && data[k].value.Some? ==> data[k].value.value >= 0.0)
    && (forall k :: 0 <= k < |data| && data[k].series.Some? ==>
          forall j :: 0 <= j < |data[k].series.value| ==> data[k].series.value[j].value >= 0.0)
  }

  /**
   * The shape of a stream's data for its type: the series names and lengths
   * or the category names it was generated with, non-negative values, and a
   * gauge value within [0, 100].
   */
  predicate WellFormed(t: WidgetType, data: seq<DataItem>) {
    && NonNegative(data)
    && match t
       case LineChart => Names(data) == LineNames() && forall k :: 0 <= k < 3 ==> SeriesOfLength(data[k], 30)
       case Other(_) => Names(data) == LineNames() && forall k :: 0 <= k < 3 ==> SeriesOfLength(data[k], 30)
       case BarChart => Names(data) == ["System A", "System B", "System C", "System D", "System E"] && AllHaveValues(data)
       case PieChart => Names(data) == ["Heating", "Cooling", "Ventilation", "Water", "Other"] && AllHaveValues(data)
       case Gauge => |data| == 1 && data[0].value.Some? && data[0].series.None? && data[0].value.value <= 100.0
       case Card => |data| == 1 && data[0].name == "Efficiency" && SeriesOfLength(data[0], 10)
  }

  lemma WellFormedIsUpdatable(t: WidgetType, data: seq<DataItem>)
    requires WellFormed(t, data)
    ensures Updatable(t, data)
  {
    if t.LineChart? {
      forall k | 0 <= k < |data| ensures HasPoints(data[k]) {
        assert Names(data)[k] == data[k].name;
      }
    }
  }

  /** A new stream has the shape of its type. */
  lemma {:induction false} InitialWellFormed(t: WidgetType, nowMs: int, rand: nat -> real, sine: real -> real)
    requires RandomUnit(rand)
    ensures WellFormed(t, InitialData(t, nowMs, rand, sine))
  {
    var data := InitialData(t, nowMs, rand, sine);
    match t {
      case LineChart => assert Names(data) == LineNames();
      case Other(_) => assert Names(data) == LineNames();
      case BarChart =>
        assert NonNegative(data) by { assert rand(0) >= 0.0 && rand(1) >= 0.0 && rand(2) >= 0.0 && rand(3) >= 0.0 && rand(4) >= 0.0; }
      case PieChart =>
        assert NonNegative(data) by { assert rand(0) >= 0.0 && rand(1) >= 0.0 && rand(2) >= 0.0 && rand(3) >= 0.0 && rand(4) >= 0.0; }
      case Gauge => assert 0.0 <= rand(0) < 1.0;
      case Card =>
    }
  }

  lemma SlidePreservesShape(item: DataItem, k: nat, nowMs: int, rand: nat -> real, sine: real -> real)
    requires HasPoints(item) && NonNegative([item])
    ensures SlideSeries(item, k, nowMs, rand, sine).name == item.name
    ensures |SlideSeries(item, k, nowMs, rand, sine).series.value| == |item.series.value|
    ensures NonNegative([SlideSeries(item, k, nowMs, rand, sine)])
    ensures SlideSeries(item, k, nowMs, rand, sine).value == item.value
  {
    var r := SlideSeries(item, k, nowMs, rand, sine);
    assert [r][0] == r;
    assert [item][0] == item;
    forall j | 0 <= j < |r.series.value| ensures r.series.value[j].value >= 0.0 {
      if j < |item.series.value| - 1 {
        assert r.series.value[j] == item.series.value[j + 1];
      }
    }
  }

  lemma NudgeKeepsShape(data: seq<DataItem>, step: real, rand: nat -> real)
    requires AllHaveValues(data) && NonNegative(data)
    ensures Names(Nudge(data, step, rand)) == Names(data)
    ensures AllHaveValues(Nudge(data, step, rand)) && NonNegative(Nudge(data, step, rand))
  {
    var next := Nudge(data, step, rand);
    assert |next| == |data|;
    assert Names(next) == Names(data);
    forall k | 0 <= k < |next| ensures next[k].series == data[k].series && next[k].value.value >= 0.0 {
      var f := k requires 0 <= k < |data| => data[k].(value := Some(Max0(data[k].value.value + (rand(k) - 0.5) * step)));
      assert next == seq(|data|, f);
      assert next[k] == f(k);
    }
  }

  /** Every tick keeps the shape of the stream's type. */
  lemma {:induction false} UpdateKeepsWellFormed(t: WidgetType, data: seq<DataItem>, nowMs: int, rand: nat -> real, sine: real -> real)
    requires WellFormed(t, data)
    ensures Updatable(t, data)
    ensures WellFormed(t, Updated(t, data, nowMs, rand, sine))
  {
    WellFormedIsUpdatable(t, data);
    var next := Updated(t, data, nowMs, rand, sine);
    match t {
      case LineChart =>
        forall k | 0 <= k < 3
          ensures next[k].name == data[k].name && SeriesOfLength(next[k], 30) && NonNegative([next[k]])
        {
          assert [data[k]][0] == data[k];
          SlidePreservesShape(data[k], k, nowMs, rand, sine);
        }
        assert Names(next) == Names(data);
        assert NonNegative(next) by {
          forall k | 0 <= k < |next| && next[k].series.Some?
            ensures forall j :: 0 <= j < |next[k].series.value| ==> next[k].series.value[j].value >= 0.0
          {
            assert [next[k]][0] == next[k];
          }
        }
      case Other(_) =>
      case BarChart =>
        NudgeKeepsShape(data, 5.0, rand);
      case PieChart =>
        NudgeKeepsShape(data, 2.0, rand);
      case Gauge =>
      case Card =>
        var points := data[0].series.value;
        var r := next[0].series.value;
        forall j | 0 <= j < |r| ensures r[j].value >= 0.0 {
          if j < |points| - 1 {
            assert r[j] == points[j + 1];
          }
        }
    }
  }

  /** With a central draw the gauge closes a tenth of its distance to 75. */
  lemma GaugeConverges(current: real)
    requires 0.0 <= current <= 100.0
    ensures GaugeStep(current, 0.5) - 75.0 == 0.9 * (current - 75.0)
  {
  }

  /** A gauge tick moves the value by at most a tenth of its distance to 75 plus 2.5. */
  lemma GaugeStepBound(current: real, draw: real)
    requires 0.0 <= current <= 100.0 && 0.0 <= draw < 1.0
    ensures -2.5 - 0.1 * (current - 75.0) <= GaugeStep(current, draw) - current <= 2.5 - 0.1 * (current - 75.0)
  {
  }

  /** Current data of a stream, with the widget type it was created for. */
  datatype Stream = Stream(widgetType: WidgetType, data: seq<DataItem>)

  /** The registry after a stream is asked for: an unknown id gets a new stream, a known one keeps its own. */
  function AfterRequest(streams: map<string, Stream>, widgetId: string, t: WidgetType,
                        nowMs: int, rand: nat -> real, sine: real -> real): (r: map<string, Stream>)
    ensures widgetId in r && r.Keys == streams.Keys + {widgetId}
    ensures forall id :: id in streams ==> r[id] == streams[id]
    ensures widgetId !in streams ==> r[widgetId] == Stream(t, InitialData(t, nowMs, rand, sine))
  {
    if widgetId in streams then streams else streams[widgetId := Stream(t, InitialData(t, nowMs, rand, sine))]
  }

  /** The test data service: the registry of active streams, by widget id. */
  class TestDataService {
    var streams: map<string, Stream>

    ghost predicate Valid()
      reads this
    {
      forall id :: id in streams ==> WellFormed(streams[id].widgetType, streams[id].data)
    }

    constructor ()
      ensures streams == map[] && Valid()
    {
      streams := map[];
    }

    /**
     * `getTestDataStream`: an unknown id gets a new stream from the type;
     * a known id keeps its stream, whatever type is asked for. The result is
     * the stream's current data, which a subscriber receives at once.
     */
    method GetTestDataStream(widgetId: string, t: WidgetType, nowMs: int, rand: nat -> real, sine: real -> real)
      returns (current: seq<DataItem>)
      requires Valid() && RandomUnit(rand)
      modifies this
      ensures Valid()
      ensures streams == AfterRequest(old(streams), widgetId, t, nowMs, rand, sine)
      ensures widgetId in streams && current == streams[widgetId].data
    {
      if widgetId !in streams {
        var initial := GenerateInitialData(t, nowMs, rand, sine);
        InitialWellFormed(t, nowMs, rand, sine);
        streams := streams[widgetId := Stream(t, initial)];
      }
      current := streams[widgetId].data;
    }

    /** One timer tick of a registered stream: its data becomes the update of its current data. */
    method Tick(widgetId: string, nowMs: int, rand: nat -> real, sine: real -> real)
      requires Valid() && widgetId in streams
      modifies this
      ensures Valid()
      ensures streams == old(streams)[widgetId := Stream(old(streams)[widgetId].widgetType,
                  Updated(old(streams)[widgetId].widgetType, old(streams)[widgetId].data, nowMs, rand, sine))]
    {
      var s := streams[widgetId];
      UpdateKeepsWellFormed(s.widgetType, s.data, nowMs, rand, sine);
      var next := UpdateTestData(s.widgetType, s.data, nowMs, rand, sine);
      streams := streams[widgetId := Stream(s.widgetType, next)];
    }

    /** `stopTestData`: the stream is forgotten. */
    method StopTestData(widgetId: string)
      requires Valid()
      modifies this
      ensures Valid()
      ensures streams == old(streams) - {widgetId}
    {
      if widgetId in streams {
        streams := streams - {widgetId};
      }
    }
  }
}
