/**
 * What every widget renderer shares: where its data comes from (the test
 * stream for a widget without a bound device and metrics, the telemetry
 * service otherwise), the time range it asks for, the loading flags, and
 * the chart size.
 *
 * The renderers are composed with a `WidgetBase` instead of inheriting from
 * it: the base hands the data it receives back to the renderer, the renderer
 * runs its own `handleData` and then reports the outcome to the base.
 */
module WidgetBase {
  import opened Wrappers
  import opened Models
  import FormSync
  import TestData
  import Telemetry
  import DashboardStore

  /** The span of the default time range: the last 24 hours. */
  const DayMs: int := 24 * 60 * 60 * 1000

  /** No bound device, or no metric: the widget shows the test stream. */
  predicate UsesTestStream(w: Widget) {
    || w.dataSource.None?
    || !FormSync.Given(w.dataSource.value.entityMapping.device)
    || |w.dataSource.value.metrics| == 0
  }

  /** The widget sets its own time range: an override that does not follow the global time and carries a range. */
  predicate HasOwnRange(w: Widget) {
    w.timeContext.Some? && !w.timeContext.value.useGlobalTime && w.timeContext.value.timeRange.Some?
  }

  /** `getTimeRange`: the widget's own range, or the 24 hours up to `nowMs`. */
  function TimeRangeFor(w: Widget, nowMs: int): TimeRange {
    if HasOwnRange(w) then w.timeContext.value.timeRange.value
    else TimeRange(At(nowMs - DayMs), At(nowMs), None)
  }

  /**
   * An end of a range in milliseconds: a `Date` as it is, a text through
   * `new Date(text)`, which is the parameter `parse` and gives `None` for an
   * Invalid Date (such as `new Date('')`).
   */
  function InstantMs(i: Instant, parse: string -> Option<int>): Option<int> {
    match i
    case At(ms) => Some(ms)
    case Text(s) => parse(s)
  }

  /** Both ends of the widget's range are valid dates. */
  predicate ValidRange(w: Widget, nowMs: int, parse: string -> Option<int>) {
    var range := TimeRangeFor(w, nowMs);
    InstantMs(range.from, parse).Some? && InstantMs(range.to, parse).Some?
  }

  /** The data the telemetry service answers for a widget with a bound device. */
  function TelemetryResponse(w: Widget, nowMs: int, parse: string -> Option<int>, sample: (string, nat) -> real): seq<DataItem>
    requires !UsesTestStream(w)
  {
    var ds := w.dataSource.value;
    var range := TimeRangeFor(w, nowMs);
    var startMs := InstantMs(range.from, parse);
    var endMs := InstantMs(range.to, parse);
    seq(|ds.metrics|, k requires 0 <= k < |ds.metrics| =>
      Telemetry.MetricSeries(ds.metrics[k], startMs, endMs, sample))
  }

  /** The stream registry after `loadData`: only a widget on the test stream asks for one. */
  function StreamsAfterLoad(streams: map<string, TestData.Stream>, w: Widget, nowMs: int,
                            rand: nat -> real, sine: real -> real): map<string, TestData.Stream>
  {
    if UsesTestStream(w) then TestData.AfterRequest(streams, w.id, w.widgetType, nowMs, rand, sine) else streams
  }

  /** The telemetry answers in flight after `loadData`: only a widget with a bound device adds one. */
  function InFlightAfterLoad(inFlight: seq<seq<DataItem>>, w: Widget, nowMs: int, parse: string -> Option<int>,
                             sample: (string, nat) -> real): seq<seq<DataItem>>
  {
    if UsesTestStream(w) then inFlight else inFlight + [TelemetryResponse(w, nowMs, parse, sample)]
  }

  /** `Math.max(1, Math.floor(x))`: a chart side is at least one pixel and the whole part of the measured one. */
  function ChartSide(x: real): (d: int)
    ensures d >= 1
    ensures x >= 1.0 ==> d as real <= x < d as real + 1.0
    ensures x < 2.0 ==> d == 1
  {
    if x.Floor < 1 then 1 else x.Floor
  }

  /** `getDefaultColorScheme` */
  function DefaultColorScheme(): Value {
    Obj(map["domain" := Arr([Str("#5AA454"), Str("#A10A28"), Str("#C7B42C"), Str("#AAAAAA")])])
  }

  /** The error texts of the two sources. */
  function LoadError(fromTestStream: bool): string {
    if fromTestStream then "Failed to load test data" else "Failed to load data"
  }

  /** A measured container. */
  datatype Rect = Rect(width: real, height: real)

  class WidgetBase {
    /** The input widget; a changed widget object gets a new renderer. */
    const widget: Widget
    var chartWidth: int
    var chartHeight: int
    var loading: bool
    var error: Option<string>
    var noData: bool
    var usingTestData: bool
    /** `destroy$` has fired: no subscription delivers any more. */
    var destroyed: bool
    /** Telemetry answers computed at request time and not yet delivered, oldest first. */
    var inFlight: seq<seq<DataItem>>
    const testData: TestData.TestDataService

    constructor (widget: Widget, testData: TestData.TestDataService)
      ensures this.widget == widget && this.testData == testData
      ensures chartWidth == 0 && chartHeight == 0
      ensures !loading && error == None && !noData && !usingTestData
      ensures !destroyed && inFlight == []
    {
      this.widget := widget;
      this.testData := testData;
      chartWidth, chartHeight := 0, 0;
      loading, error, noData, usingTestData := false, None, false, false;
      destroyed := false;
      inFlight := [];
    }

    /**
     * `loadData`: the flags restart; a widget without a bound device and
     * metrics subscribes to its test stream, whose current data comes back
     * at once in `first`; any other widget asks the telemetry service, whose
     * answer joins `inFlight`.
     */
    method LoadData(nowMs: int, parse: string -> Option<int>, sample: (string, nat) -> real,
                    rand: nat -> real, sine: real -> real)
      returns (first: Option<seq<DataItem>>)
      requires testData.Valid() && TestData.RandomUnit(rand)
      modifies this`loading, this`error, this`noData, this`usingTestData, this`inFlight, testData
      ensures testData.Valid()
      ensures loading && error == None && !noData
      ensures usingTestData == UsesTestStream(widget)
      ensures testData.streams == StreamsAfterLoad(old(testData.streams), widget, nowMs, rand, sine)
      ensures inFlight == InFlightAfterLoad(old(inFlight), widget, nowMs, parse, sample)
      ensures UsesTestStream(widget) ==> first == Some(testData.streams[widget.id].data)
      ensures !UsesTestStream(widget) ==> first == None
    {
      loading, error, noData, usingTestData := true, None, false, false;
      if UsesTestStream(widget) {
        usingTestData := true;
        var data := testData.GetTestDataStream(widget.id, widget.widgetType, nowMs, rand, sine);
        first := Some(data);
        return;
      }
      var ds := widget.dataSource.value;
      var range := TimeRangeFor(widget, nowMs);
      var startMs := InstantMs(range.from, parse);
      var endMs := InstantMs(range.to, parse);
      var series := Telemetry.GetTelemetryData(ds.entityMapping.device.value, ds.metrics, startMs, endMs, sample);
      assert series == TelemetryResponse(widget, nowMs, parse, sample);
      inFlight := inFlight + [series];
      first := None;
    }

    /** What the oldest telemetry answer hands to the renderer when it arrives: nothing after `destroy$`. */
    function NextResponse(): Option<seq<DataItem>>
      reads this
    {
      if |inFlight| > 0 && !destroyed then Some(inFlight[0]) else None
    }

    /** The current value of the test stream this widget is subscribed to, if it still is. */
    function StreamValue(): Option<seq<DataItem>>
      reads this, testData
    {
      if usingTestData && !destroyed && widget.id in testData.streams then Some(testData.streams[widget.id].data) else None
    }

    /** The oldest telemetry answer arrives; after `destroy$` it is dropped. */
    method TakeResponse() returns (data: Option<seq<DataItem>>)
      modifies this`inFlight
      ensures data == old(NextResponse())
      ensures inFlight == if |old(inFlight)| > 0 then old(inFlight)[1..] else []
    {
      if |inFlight| == 0 {
        return None;
      }
      data := if destroyed then None else Some(inFlight[0]);
      inFlight := inFlight[1..];
    }

    /** The `next` callback after the renderer's `handleData` returned; only telemetry can report "no data". */
    method DataArrived(data: seq<DataItem>, fromTestStream: bool)
      modifies this`loading, this`noData
      ensures !loading
      ensures noData <==> !fromTestStream && |data| == 0
    {
      loading := false;
      noData := !fromTestStream && |data| == 0;
    }

    /** The `error` callback of either subscription. */
    method LoadFailed(fromTestStream: bool)
      modifies this`loading, this`error
      ensures !loading && error == Some(LoadError(fromTestStream))
    {
      error := Some(LoadError(fromTestStream));
      loading := false;
    }

    /** `updateChartDimensions`: nothing without a container, else the floored size, at least one pixel. */
    method UpdateChartDimensions(container: Option<Rect>)
      modifies this`chartWidth, this`chartHeight
      ensures container.None? ==> chartWidth == old(chartWidth) && chartHeight == old(chartHeight)
      ensures container.Some? ==>
        chartWidth == ChartSide(container.value.width) && chartHeight == ChartSide(container.value.height)
    {
      if container.Some? {
        chartWidth := ChartSide(container.value.width);
        chartHeight := ChartSide(container.value.height);
      }
    }

    /** `ngOnDestroy`: a widget on the test stream stops it; every subscription ends. */
    method NgOnDestroy()
      requires testData.Valid()
      modifies this`destroyed, testData
      ensures testData.Valid() && destroyed
      ensures usingTestData ==> testData.streams == old(testData.streams) - {widget.id}
      ensures !usingTestData ==> testData.streams == old(testData.streams)
    {
      if usingTestData {
        testData.StopTestData(widget.id);
      }
      destroyed := true;
    }
  }

  /**
   * The state `initWidget` leaves behind in the base: the flags restarted,
   * the stream asked for or the telemetry answer in flight, and `loading`
   * cleared exactly when the test stream's first value was handled without
   * an exception.
   */
  twostate predicate Loaded(b: WidgetBase, handled: bool, nowMs: int, parse: string -> Option<int>,
                            sample: (string, nat) -> real, rand: nat -> real, sine: real -> real)
    reads b, b.testData
  {
    && b.testData.streams == StreamsAfterLoad(old(b.testData.streams), b.widget, nowMs, rand, sine)
    && b.inFlight == InFlightAfterLoad(old(b.inFlight), b.widget, nowMs, parse, sample)
    && b.usingTestData == UsesTestStream(b.widget) && b.error == None && !b.noData
    && b.loading == !(UsesTestStream(b.widget) && handled)
  }

  /** A widget fresh from the factory has no device and metrics yet, so it shows the test stream. */
  lemma NewWidgetsUseTestStream(widgetType: string, freshId: string)
    ensures UsesTestStream(DashboardStore.CreateWidget(widgetType, freshId))
    ensures TimeRangeFor(DashboardStore.CreateWidget(widgetType, freshId), 0) == TimeRange(At(-DayMs), At(0), None)
  {
  }

  /** A widget saved from the properties form reads telemetry exactly when the form chose a device and a metric. */
  lemma SavedWidgetSource(w: Widget, f: FormSync.Form)
    ensures !UsesTestStream(FormSync.ApplyForm(w, f)) <==> f.dataSource.deviceId != "" && |f.dataSource.metrics| > 0
  {
  }

  /**
   * A widget saved from the properties form asks for the form's custom range
   * exactly when it does not follow the global time, and for the last day otherwise.
   */
  lemma SavedWidgetRange(w: Widget, f: FormSync.Form, nowMs: int)
    ensures var r := f.timeSettings.customTimeRange;
      TimeRangeFor(FormSync.ApplyForm(w, f), nowMs) ==
        if f.timeSettings.useGlobalTime then TimeRange(At(nowMs - DayMs), At(nowMs), None)
        else TimeRange(r.from, r.to, r.relativeRange)
  {
  }

  /** The default range is long enough that every metric comes back with the maximum of 100 points. */
  lemma {:induction false} DefaultRangeFullSeries(w: Widget, nowMs: int, parse: string -> Option<int>, sample: (string, nat) -> real)
    requires !UsesTestStream(w) && !HasOwnRange(w)
    ensures var data := TelemetryResponse(w, nowMs, parse, sample);
      && |data| == |w.dataSource.value.metrics|
      && forall k :: 0 <= k < |data| ==> data[k].series.Some? && |data[k].series.value| == 100
  {
    assert DayMs / Telemetry.MsPerPoint == 288;
  }

  /**
   * A widget saved with the global time off and the custom range left as the
   * form starts it (empty ends) asks telemetry for a range whose ends are
   * Invalid Dates: every chosen metric comes back, named, with no points.
   */
  lemma {:induction false} UnsetCustomRangeNoPoints(w: Widget, f: FormSync.Form, nowMs: int,
                                                    parse: string -> Option<int>, sample: (string, nat) -> real)
    requires parse("") == None
    requires !f.timeSettings.useGlobalTime && f.timeSettings.customTimeRange.from == Text("")
    requires f.dataSource.deviceId != "" && |f.dataSource.metrics| > 0
    ensures var saved := FormSync.ApplyForm(w, f);
      && !UsesTestStream(saved) && !ValidRange(saved, nowMs, parse)
      && var data := TelemetryResponse(saved, nowMs, parse, sample);
      && |data| == |f.dataSource.metrics|
      && forall k :: 0 <= k < |data| ==>
           data[k] == DataItem(Telemetry.MetricName(f.dataSource.metrics[k]), None, Some([]))
  {
    var saved := FormSync.ApplyForm(w, f);
    SavedWidgetRange(w, f, nowMs);
    assert TimeRangeFor(saved, nowMs).from == Text("");
  }
}
