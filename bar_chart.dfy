/**
 * The bar chart renderer: series reduced to their latest values, chart
 * options read from the widget's config, and the scale maximum it shows.
 */
module BarChart {
  import opened Wrappers
  import opened Models
  import FormSync
  import WidgetBase
  import TestData
  import ChartWidget

  datatype BarOptions = BarOptions(
    animations: Value, xAxis: Value, yAxis: Value, showXAxisLabel: Value, showYAxisLabel: Value,
    xAxisLabel: Value, yAxisLabel: Value, barPadding: Value, groupPadding: Value, showDataLabel: Value,
    showGridLines: Value, roundDomains: Value, gradient: Value, noBarWhenZero: Value)

  function DefaultBarOptions(): BarOptions {
    BarOptions(Bool(true), Bool(true), Bool(true), Bool(true), Bool(true), Str("Category"), Str("Value"),
               Num(8.0), Num(16.0), Bool(false), Bool(true), Bool(false), Bool(false), Bool(true))
  }

  /**
   * `updateChartOptions`: without a config nothing changes; otherwise the
   * axis labels fall back on falsy values and the other options on missing
   * ones. `groupPadding` is not read from the config.
   */
  function BarOptionsFrom(config: Option<Config>, current: BarOptions): BarOptions {
    if config.None? then current
    else
      var c := config.value;
      BarOptions(
        IfDefined(Lookup(c, "animations"), Bool(true)),
        IfDefined(Lookup(c, "xAxis"), Bool(true)),
        IfDefined(Lookup(c, "yAxis"), Bool(true)),
        IfDefined(Lookup(c, "showXAxisLabel"), Bool(true)),
        IfDefined(Lookup(c, "showYAxisLabel"), Bool(true)),
        OrElse(Lookup(c, "xAxisLabel"), Str("Category")),
        OrElse(Lookup(c, "yAxisLabel"), Str("Value")),
        IfDefined(Lookup(c, "barPadding"), Num(8.0)),
        current.groupPadding,
        IfDefined(Lookup(c, "showDataLabel"), Bool(false)),
        IfDefined(Lookup(c, "showGridLines"), Bool(true)),
        IfDefined(Lookup(c, "roundDomains"), Bool(false)),
        IfDefined(Lookup(c, "gradient"), Bool(false)),
        IfDefined(Lookup(c, "noBarWhenZero"), Bool(true)))
  }

  /** The largest value of a non-empty array of scalars. */
  function MaxOf(data: seq<DataItem>): (m: real)
    requires |data| > 0 && TestData.AllHaveValues(data)
    ensures forall k :: 0 <= k < |data| ==> data[k].value.value <= m
    ensures exists k :: 0 <= k < |data| && data[k].value.value == m
  {
    if |data| == 1 then data[0].value.value
    else
      var rest := MaxOf(data[1..]);
      assert forall k :: 1 <= k < |data| ==> data[k] == data[1..][k - 1];
      if data[0].value.value >= rest then data[0].value.value else rest
  }

  /**
   * `getMaxValue`: the largest value, or 100 when there is no data, when a
   * value is missing (the maximum is NaN) or when the largest value is 0.
   */
  function MaxValue(data: seq<DataItem>): (r: real)
    ensures |data| == 0 || !TestData.AllHaveValues(data) ==> r == 100.0
    ensures |data| > 0 && TestData.AllHaveValues(data) ==>
      if MaxOf(data) == 0.0 then r == 100.0 else r == MaxOf(data)
    ensures r != 100.0 ==> r != 0.0 && forall k :: 0 <= k < |data| ==> data[k].value.Some? && data[k].value.value <= r
  {
    if |data| == 0 || !TestData.AllHaveValues(data) then 100.0
    else if MaxOf(data) == 0.0 then 100.0
    else MaxOf(data)
  }

  /** A bar widget's scale fits every bar of its test stream. */
  lemma {:induction false} TestStreamScale(data: seq<DataItem>)
    requires TestData.WellFormed(BarChart, data)
    ensures MaxValue(data) == 100.0 || forall k :: 0 <= k < |data| ==> data[k].value.value <= MaxValue(data)
    ensures MaxValue(data) > 0.0
  {
    assert TestData.Names(data)[0] == data[0].name;
    assert |data| == 5;
  }

  /** The config a bar widget's fold writes, on an abstract earlier config. */
  function WrittenBarConfig(c0: Config, v: FormSync.Vis): Config {
    Spread(Spread(c0, FormSync.BaseVisConfig(v)), FormSync.TypeVisConfig(v, BarChart))
  }

  lemma {:induction false} WrittenBarOptions(c0: Config, v: FormSync.Vis, current: BarOptions)
    ensures var o := BarOptionsFrom(Some(WrittenBarConfig(c0, v)), current);
      && o.animations == v.animations
      && o.showXAxisLabel == v.showXAxisLabel && o.showYAxisLabel == v.showYAxisLabel
      && o.xAxisLabel == OrElse(Some(v.xAxisLabel), Str("Category"))
      && o.yAxisLabel == OrElse(Some(v.yAxisLabel), Str("Value"))
      && o.barPadding == v.barPadding && o.showDataLabel == v.showDataLabel
      && o.showGridLines == v.showGridLines && o.roundDomains == v.roundDomains && o.gradient == v.gradient
      && o.groupPadding == current.groupPadding
      && o.xAxis == IfDefined(Lookup(c0, "xAxis"), Bool(true))
      && o.yAxis == IfDefined(Lookup(c0, "yAxis"), Bool(true))
      && o.noBarWhenZero == IfDefined(Lookup(c0, "noBarWhenZero"), Bool(true))
  {
    var base := FormSync.BaseVisConfig(v);
    var typed := FormSync.TypeVisConfig(v, BarChart);
    FormSync.BaseTypeDisjoint(v, BarChart);
    FormSync.TypedLookup(Spread(c0, base), typed, "barPadding");
    FormSync.TypedLookup(Spread(c0, base), typed, "showDataLabel");
    FormSync.WrittenLookup(c0, base, typed, "animations");
    FormSync.WrittenLookup(c0, base, typed, "showXAxisLabel");
    FormSync.WrittenLookup(c0, base, typed, "showYAxisLabel");
    FormSync.WrittenLookup(c0, base, typed, "xAxisLabel");
    FormSync.WrittenLookup(c0, base, typed, "yAxisLabel");
    FormSync.WrittenLookup(c0, base, typed, "gradient");
    FormSync.WrittenLookup(c0, base, typed, "showGridLines");
    FormSync.WrittenLookup(c0, base, typed, "roundDomains");
    FormSync.UnwrittenLookup(c0, base, typed, "xAxis");
    FormSync.UnwrittenLookup(c0, base, typed, "yAxis");
    FormSync.UnwrittenLookup(c0, base, typed, "noBarWhenZero");
  }

  /**
   * A bar widget saved from the properties form shows the form's settings,
   * except the group padding: the form writes it to the config but the
   * renderer keeps its own.
   */
  lemma {:induction false} SavedBarOptions(w: Widget, f: FormSync.Form, current: BarOptions)
    requires w.widgetType == BarChart
    ensures var v := f.visualization;
      var c0 := w.config.GetOr(map[]);
      var o := BarOptionsFrom(FormSync.ApplyForm(w, f).config, current);
      && o.animations == v.animations
      && o.showXAxisLabel == v.showXAxisLabel && o.showYAxisLabel == v.showYAxisLabel
      && o.xAxisLabel == OrElse(Some(v.xAxisLabel), Str("Category"))
      && o.yAxisLabel == OrElse(Some(v.yAxisLabel), Str("Value"))
      && o.barPadding == v.barPadding && o.showDataLabel == v.showDataLabel
      && o.showGridLines == v.showGridLines && o.roundDomains == v.roundDomains && o.gradient == v.gradient
      && o.groupPadding == current.groupPadding
      && o.xAxis == IfDefined(Lookup(c0, "xAxis"), Bool(true))
      && o.yAxis == IfDefined(Lookup(c0, "yAxis"), Bool(true))
      && o.noBarWhenZero == IfDefined(Lookup(c0, "noBarWhenZero"), Bool(true))
  {
    assert FormSync.ApplyForm(w, f).config == Some(WrittenBarConfig(w.config.GetOr(map[]), f.visualization));
    WrittenBarOptions(w.config.GetOr(map[]), f.visualization, current);
  }

  /** The bar chart renderer, composed with the shared chart part. */
  class BarChartWidget {
    var options: BarOptions
    const chart: ChartWidget.ChartWidget

    constructor (chart: ChartWidget.ChartWidget)
      ensures this.chart == chart && options == DefaultBarOptions()
    {
      this.chart := chart;
      options := DefaultBarOptions();
    }

    /** Whether `handleData` gets through the first value of the test stream without throwing. */
    predicate FirstValueHandled()
      reads chart, chart.base, chart.base.testData
    {
      chart.base.widget.id in chart.base.testData.streams ==>
        ChartWidget.LatestPerSeries(chart.base.testData.streams[chart.base.widget.id].data).Some?
    }

    /** `handleData`: the transformed data is shown; `ok` is false when the transform threw and nothing changed. */
    method HandleData(data: seq<DataItem>) returns (ok: bool)
      modifies chart`chartData
      ensures ok <==> ChartWidget.LatestPerSeries(data).Some?
      ensures ok ==> chart.chartData == ChartWidget.LatestPerSeries(data).value
      ensures !ok ==> chart.chartData == old(chart.chartData)
    {
      var shown := ChartWidget.LatestPerSeries(data);
      if shown.None? {
        return false;
      }
      chart.ShowData(shown.value);
      ok := true;
    }

    method UpdateChartOptions()
      modifies this`options
      ensures options == BarOptionsFrom(chart.base.widget.config, old(options))
    {
      var config := chart.base.widget.config;
      if config.None? {
        return;
      }
      var c := config.value;
      options := BarOptions(
        IfDefined(Lookup(c, "animations"), Bool(true)),
        IfDefined(Lookup(c, "xAxis"), Bool(true)),
        IfDefined(Lookup(c, "yAxis"), Bool(true)),
        IfDefined(Lookup(c, "showXAxisLabel"), Bool(true)),
        IfDefined(Lookup(c, "showYAxisLabel"), Bool(true)),
        OrElse(Lookup(c, "xAxisLabel"), Str("Category")),
        OrElse(Lookup(c, "yAxisLabel"), Str("Value")),
        IfDefined(Lookup(c, "barPadding"), Num(8.0)),
        options.groupPadding,
        IfDefined(Lookup(c, "showDataLabel"), Bool(false)),
        IfDefined(Lookup(c, "showGridLines"), Bool(true)),
        IfDefined(Lookup(c, "roundDomains"), Bool(false)),
        IfDefined(Lookup(c, "gradient"), Bool(false)),
        IfDefined(Lookup(c, "noBarWhenZero"), Bool(true)));
    }

    /** `initWidget`: the scheme, then the load (a test stream's first value is handled at once), then the options. */
    method Init(nowMs: int, parse: string -> Option<int>, sample: (string, nat) -> real, rand: nat -> real, sine: real -> real)
      requires chart.base.testData.Valid() && TestData.RandomUnit(rand)
      modifies this`options, chart`colorScheme, chart`chartData, chart.base`loading, chart.base`error,
               chart.base`noData, chart.base`usingTestData, chart.base`inFlight, chart.base.testData
      ensures chart.base.testData.Valid()
      ensures chart.colorScheme == ChartWidget.ChartScheme(chart.base.widget.config, old(chart.colorScheme))
      ensures options == BarOptionsFrom(chart.base.widget.config, old(options))
      ensures WidgetBase.Loaded(chart.base, FirstValueHandled(), nowMs, parse, sample, rand, sine)
      ensures WidgetBase.UsesTestStream(chart.base.widget) && FirstValueHandled() ==>
        chart.chartData == ChartWidget.LatestPerSeries(chart.base.testData.streams[chart.base.widget.id].data).value
      ensures !(WidgetBase.UsesTestStream(chart.base.widget) && FirstValueHandled()) ==>
        chart.chartData == old(chart.chartData)
    {
      chart.UpdateColorScheme();
      var first := chart.base.LoadData(nowMs, parse, sample, rand, sine);
      if first.Some? {
        var ok := HandleData(first.value);
        if ok {
          chart.base.DataArrived(first.value, true);
        }
      }
      UpdateChartOptions();
    }

    /** The oldest telemetry answer arrives and is handled. */
    method ReceiveTelemetry()
      modifies chart`chartData, chart.base`inFlight, chart.base`loading, chart.base`noData
      ensures chart.base.inFlight == if |old(chart.base.inFlight)| > 0 then old(chart.base.inFlight)[1..] else []
      ensures var r := old(chart.base.NextResponse());
        if r.Some? && ChartWidget.LatestPerSeries(r.value).Some? then
          chart.chartData == ChartWidget.LatestPerSeries(r.value).value && !chart.base.loading
          && (chart.base.noData <==> |r.value| == 0)
        else chart.chartData == old(chart.chartData) && chart.base.loading == old(chart.base.loading)
             && chart.base.noData == old(chart.base.noData)
    {
      var r := chart.base.TakeResponse();
      if r.Some? {
        var ok := HandleData(r.value);
        if ok {
          chart.base.DataArrived(r.value, false);
        }
      }
    }

    /** The test stream emits its current value to a subscribed widget. */
    method ReceiveStreamValue()
      modifies chart`chartData, chart.base`loading, chart.base`noData
      ensures var s := old(chart.base.StreamValue());
        if s.Some? && ChartWidget.LatestPerSeries(s.value).Some? then
          chart.chartData == ChartWidget.LatestPerSeries(s.value).value && !chart.base.loading && !chart.base.noData
        else chart.chartData == old(chart.chartData) && chart.base.loading == old(chart.base.loading)
             && chart.base.noData == old(chart.base.noData)
    {
      var s := chart.base.StreamValue();
      if s.Some? {
        var ok := HandleData(s.value);
        if ok {
          chart.base.DataArrived(s.value, true);
        }
      }
    }
  }
}
