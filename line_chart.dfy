/**
 * The line chart renderer: its chart options read from the widget's config,
 * and the per-series summary it shows: a colour, the latest value and a
 * trend arrow.
 */
module LineChart {
  import opened Wrappers
  import opened Models
  import FormSync
  import WidgetBase
  import TestData
  import ChartWidget

  datatype LineOptions = LineOptions(
    curve: Value, animations: Value, xAxis: Value, yAxis: Value,
    showXAxisLabel: Value, showYAxisLabel: Value, xAxisLabel: Value, yAxisLabel: Value,
    timeline: Value, autoScale: Value, gradient: Value, showGridLines: Value, roundDomains: Value)

  function DefaultLineOptions(): LineOptions {
    LineOptions(Str("linear"), Bool(true), Bool(true), Bool(true), Bool(true), Bool(true),
                Str("Time"), Str("Value"), Bool(false), Bool(true), Bool(false), Bool(true), Bool(false))
  }

  /**
   * `updateChartOptions`: without a config nothing changes; otherwise the
   * curve and the axis labels fall back on falsy values and every other
   * option on missing ones.
   */
  function LineOptionsFrom(config: Option<Config>, current: LineOptions): LineOptions {
    if config.None? then current
    else
      var c := config.value;
      LineOptions(
        OrElse(Lookup(c, "curve"), Str("linear")),
        IfDefined(Lookup(c, "animations"), Bool(true)),
        IfDefined(Lookup(c, "xAxis"), Bool(true)),
        IfDefined(Lookup(c, "yAxis"), Bool(true)),
        IfDefined(Lookup(c, "showXAxisLabel"), Bool(true)),
        IfDefined(Lookup(c, "showYAxisLabel"), Bool(true)),
        OrElse(Lookup(c, "xAxisLabel"), Str("Time")),
        OrElse(Lookup(c, "yAxisLabel"), Str("Value")),
        IfDefined(Lookup(c, "timeline"), Bool(false)),
        IfDefined(Lookup(c, "autoScale"), Bool(true)),
        IfDefined(Lookup(c, "gradient"), Bool(false)),
        IfDefined(Lookup(c, "showGridLines"), Bool(true)),
        IfDefined(Lookup(c, "roundDomains"), Bool(false)))
  }

  /** The eight series colours, in order. */
  function SeriesPalette(): (p: seq<string>)
    ensures |p| == 8
  {
    ["#5AA454", "#A10A28", "#C7B42C", "#AAAAAA", "#4D8FB8", "#7D51A1", "#FB8281", "#F4D25A"]
  }

  /** `getSeriesColor(index)` for the index of a rendered series. */
  function SeriesColor(index: nat): (c: string)
    ensures c in SeriesPalette()
    ensures index < 8 ==> c == SeriesPalette()[index]
  {
    SeriesPalette()[index % 8]
  }

  /** `getLatestValue`: the value of the last point, or 0 without points. */
  function LatestValue(item: DataItem): (r: real)
    ensures HasPoints(item) ==> r == LastValue(item.series.value)
    ensures !HasPoints(item) ==> r == 0.0
  {
    if HasPoints(item) then LastValue(item.series.value) else 0.0
  }

  /** At least two points, so that a previous value exists. */
  predicate HasTwoPoints(item: DataItem) {
    item.series.Some? && |item.series.value| >= 2
  }

  function Previous(item: DataItem): real
    requires HasTwoPoints(item)
  {
    item.series.value[|item.series.value| - 2].value
  }

  /** `getTrend`: the relative change of the last point over the one before, 0 when undefined. */
  function Trend(item: DataItem): real {
    if !HasTwoPoints(item) then 0.0
    else
      var last := LastValue(item.series.value);
      var previous := Previous(item);
      if previous == 0.0 then 0.0 else (last - previous) / previous
  }

  /** The template's indicator for a series. */
  function TrendArrow(item: DataItem): string {
    if Trend(item) > 0.0 then "↑" else if Trend(item) < 0.0 then "↓" else "→"
  }

  /**
   * The relative change `(last - previous) / previous` is positive. For a
   * positive previous value that is a rise; for a negative one it is a fall
   * (-10 then -20 gives +1 and shows the up arrow), because the source
   * divides by the signed previous value rather than its magnitude.
   */
  predicate PositiveTrend(item: DataItem) {
    HasTwoPoints(item) && Previous(item) != 0.0 &&
      ((Previous(item) > 0.0 && LastValue(item.series.value) > Previous(item)) ||
       (Previous(item) < 0.0 && LastValue(item.series.value) < Previous(item)))
  }

  /** The relative change is negative: a fall after a positive previous value, a rise after a negative one. */
  predicate NegativeTrend(item: DataItem) {
    HasTwoPoints(item) && Previous(item) != 0.0 &&
      ((Previous(item) > 0.0 && LastValue(item.series.value) < Previous(item)) ||
       (Previous(item) < 0.0 && LastValue(item.series.value) > Previous(item)))
  }

  lemma QuotientSign(a: real, p: real)
    requires p != 0.0
    ensures a / p > 0.0 <==> (a > 0.0 && p > 0.0) || (a < 0.0 && p < 0.0)
    ensures a / p < 0.0 <==> (a > 0.0 && p < 0.0) || (a < 0.0 && p > 0.0)
  {
    var q := a / p;
    assert q * p == a;
    if q > 0.0 && p > 0.0 { assert q * p > 0.0; }
    if q > 0.0 && p < 0.0 { assert q * p < 0.0; }
    if q < 0.0 && p > 0.0 { assert q * p < 0.0; }
    if q < 0.0 && p < 0.0 { assert q * p > 0.0; }
  }

  /**
   * The arrow points up exactly for a positive relative change and down
   * exactly for a negative one; it is flat for fewer than two points or a
   * zero previous value.
   */
  lemma {:induction false} TrendArrowMeaning(item: DataItem)
    ensures TrendArrow(item) == "↑" <==> PositiveTrend(item)
    ensures TrendArrow(item) == "↓" <==> NegativeTrend(item)
    ensures TrendArrow(item) == "→" <==> !PositiveTrend(item) && !NegativeTrend(item)
  {
    if HasTwoPoints(item) && Previous(item) != 0.0 {
      QuotientSign(LastValue(item.series.value) - Previous(item), Previous(item));
    }
  }

  /** Colours repeat every eight series, and eight consecutive series never share one. */
  lemma {:induction false} SeriesColorsCycle(i: nat, j: nat)
    ensures SeriesColor(i + 8) == SeriesColor(i)
    ensures i < j < i + 8 ==> SeriesColor(i) != SeriesColor(j)
  {
    assert (i + 8) % 8 == i % 8;
    if i < j < i + 8 {
      assert i % 8 != j % 8;
    }
  }

  /** The config a line widget's fold writes, on an abstract earlier config. */
  function WrittenLineConfig(c0: Config, v: FormSync.Vis): Config {
    Spread(Spread(c0, FormSync.BaseVisConfig(v)), FormSync.TypeVisConfig(v, LineChart))
  }

  lemma {:induction false} WrittenLineOptions(c0: Config, v: FormSync.Vis, current: LineOptions)
    ensures var o := LineOptionsFrom(Some(WrittenLineConfig(c0, v)), current);
      && o.curve == OrElse(Some(v.curve), Str("linear"))
      && o.animations == v.animations
      && o.showXAxisLabel == v.showXAxisLabel && o.showYAxisLabel == v.showYAxisLabel
      && o.xAxisLabel == OrElse(Some(v.xAxisLabel), Str("Time"))
      && o.yAxisLabel == OrElse(Some(v.yAxisLabel), Str("Value"))
      && o.autoScale == v.autoScale && o.gradient == v.gradient
      && o.showGridLines == v.showGridLines && o.roundDomains == v.roundDomains
      && o.xAxis == IfDefined(Lookup(c0, "xAxis"), Bool(true))
      && o.yAxis == IfDefined(Lookup(c0, "yAxis"), Bool(true))
      && o.timeline == IfDefined(Lookup(c0, "timeline"), Bool(false))
  {
    var base := FormSync.BaseVisConfig(v);
    var typed := FormSync.TypeVisConfig(v, LineChart);
    var c := WrittenLineConfig(c0, v);
    FormSync.BaseTypeDisjoint(v, LineChart);
    FormSync.TypedLookup(Spread(c0, base), typed, "curve");
    FormSync.TypedLookup(Spread(c0, base), typed, "autoScale");
    FormSync.WrittenLookup(c0, base, typed, "animations");
    FormSync.WrittenLookup(c0, base, typed, "showXAxisLabel");
    FormSync.WrittenLookup(c0, base, typed, "showYAxisLabel");
    FormSync.WrittenLookup(c0, base, typed, "xAxisLabel");
    FormSync.WrittenLookup(c0, base, typed, "yAxisLabel");
    FormSync.WrittenLookup(c0, base, typed, "gradient");
    FormSync.WrittenLookup(c0, base, typed, "showGridLines");
    FormSync.WrittenLookup(c0, base, typed, "roundDomains");
    FormSync.UnwrittenLookup(c0, base, typed, "xAxis");
    FormSync.UnwrittenLookup(c0, base, typed, "yAxis");
    FormSync.UnwrittenLookup(c0, base, typed, "timeline");
  }

  /**
   * A line widget saved from the properties form shows the form's curve,
   * animation, axis-label, scale and grid settings; axes and timeline stay
   * as the widget's own config had them.
   */
  lemma {:induction false} SavedLineOptions(w: Widget, f: FormSync.Form, current: LineOptions)
    requires w.widgetType == LineChart
    ensures var v := f.visualization;
      var c0 := w.config.GetOr(map[]);
      var o := LineOptionsFrom(FormSync.ApplyForm(w, f).config, current);
      && o.curve == OrElse(Some(v.curve), Str("linear"))
      && o.animations == v.animations
      && o.showXAxisLabel == v.showXAxisLabel && o.showYAxisLabel == v.showYAxisLabel
      && o.xAxisLabel == OrElse(Some(v.xAxisLabel), Str("Time"))
      && o.yAxisLabel == OrElse(Some(v.yAxisLabel), Str("Value"))
      && o.autoScale == v.autoScale && o.gradient == v.gradient
      && o.showGridLines == v.showGridLines && o.roundDomains == v.roundDomains
      && o.xAxis == IfDefined(Lookup(c0, "xAxis"), Bool(true))
      && o.yAxis == IfDefined(Lookup(c0, "yAxis"), Bool(true))
      && o.timeline == IfDefined(Lookup(c0, "timeline"), Bool(false))
  {
    assert FormSync.ApplyForm(w, f).config == Some(WrittenLineConfig(w.config.GetOr(map[]), f.visualization));
    WrittenLineOptions(w.config.GetOr(map[]), f.visualization, current);
  }

  /** The line chart renderer, composed with the shared chart part. */
  class LineChartWidget {
    var options: LineOptions
    const chart: ChartWidget.ChartWidget

    constructor (chart: ChartWidget.ChartWidget)
      ensures this.chart == chart && options == DefaultLineOptions()
    {
      this.chart := chart;
      options := DefaultLineOptions();
    }

    method UpdateChartOptions()
      modifies this`options
      ensures options == LineOptionsFrom(chart.base.widget.config, old(options))
    {
      var config := chart.base.widget.config;
      if config.None? {
        return;
      }
      var c := config.value;
      options := LineOptions(
        OrElse(Lookup(c, "curve"), Str("linear")),
        IfDefined(Lookup(c, "animations"), Bool(true)),
        IfDefined(Lookup(c, "xAxis"), Bool(true)),
        IfDefined(Lookup(c, "yAxis"), Bool(true)),
        IfDefined(Lookup(c, "showXAxisLabel"), Bool(true)),
        IfDefined(Lookup(c, "showYAxisLabel"), Bool(true)),
        OrElse(Lookup(c, "xAxisLabel"), Str("Time")),
        OrElse(Lookup(c, "yAxisLabel"), Str("Value")),
        IfDefined(Lookup(c, "timeline"), Bool(false)),
        IfDefined(Lookup(c, "autoScale"), Bool(true)),
        IfDefined(Lookup(c, "gradient"), Bool(false)),
        IfDefined(Lookup(c, "showGridLines"), Bool(true)),
        IfDefined(Lookup(c, "roundDomains"), Bool(false)));
    }

    /**
     * `initWidget`: the scheme, then the load (a test stream's first value
     * is shown at once), then the options.
     */
    method Init(nowMs: int, parse: string -> Option<int>, sample: (string, nat) -> real, rand: nat -> real, sine: real -> real)
      requires chart.base.testData.Valid() && TestData.RandomUnit(rand)
      modifies this`options, chart`colorScheme, chart`chartData, chart.base`loading, chart.base`error,
               chart.base`noData, chart.base`usingTestData, chart.base`inFlight, chart.base.testData
      ensures chart.base.testData.Valid()
      ensures chart.colorScheme == ChartWidget.ChartScheme(chart.base.widget.config, old(chart.colorScheme))
      ensures options == LineOptionsFrom(chart.base.widget.config, old(options))
      ensures WidgetBase.Loaded(chart.base, true, nowMs, parse, sample, rand, sine)
      ensures chart.chartData ==
        if WidgetBase.UsesTestStream(chart.base.widget) then chart.base.testData.streams[chart.base.widget.id].data
        else old(chart.chartData)
    {
      chart.UpdateColorScheme();
      var first := chart.base.LoadData(nowMs, parse, sample, rand, sine);
      if first.Some? {
        chart.ShowData(first.value);
        chart.base.DataArrived(first.value, true);
      }
      UpdateChartOptions();
    }

    /** The oldest telemetry answer arrives and is shown. */
    method ReceiveTelemetry()
      modifies chart`chartData, chart.base`inFlight, chart.base`loading, chart.base`noData
      ensures chart.base.inFlight == if |old(chart.base.inFlight)| > 0 then old(chart.base.inFlight)[1..] else []
      ensures var r := old(chart.base.NextResponse());
        if r.Some? then chart.chartData == r.value && !chart.base.loading && (chart.base.noData <==> |r.value| == 0)
        else chart.chartData == old(chart.chartData) && chart.base.loading == old(chart.base.loading)
             && chart.base.noData == old(chart.base.noData)
    {
      var r := chart.base.TakeResponse();
      if r.Some? {
        chart.ShowData(r.value);
        chart.base.DataArrived(r.value, false);
      }
    }

    /** The test stream emits its current value to a subscribed widget. */
    method ReceiveStreamValue()
      modifies chart`chartData, chart.base`loading, chart.base`noData
      ensures var s := old(chart.base.StreamValue());
        if s.Some? then chart.chartData == s.value && !chart.base.loading && !chart.base.noData
        else chart.chartData == old(chart.chartData) && chart.base.loading == old(chart.base.loading)
             && chart.base.noData == old(chart.base.noData)
    {
      var s := chart.base.StreamValue();
      if s.Some? {
        chart.ShowData(s.value);
        chart.base.DataArrived(s.value, true);
      }
    }
  }
}
