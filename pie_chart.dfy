/**
 * The pie chart renderer: series reduced to their latest values, and the
 * chart options read from the widget's config.
 */
module PieChart {
  import opened Wrappers
  import opened Models
  import FormSync
  import WidgetBase
  import TestData
  import ChartWidget

  datatype PieOptions = PieOptions(animations: Value, labels: Value, doughnut: Value, explodeSlices: Value, gradient: Value)

  function DefaultPieOptions(): PieOptions {
    PieOptions(Bool(true), Bool(true), Bool(false), Bool(false), Bool(false))
  }

  /** `updateChartOptions`: without a config nothing changes; otherwise each option falls back on a missing value. */
  function PieOptionsFrom(config: Option<Config>, current: PieOptions): PieOptions {
    if config.None? then current
    else
      var c := config.value;
      PieOptions(
        IfDefined(Lookup(c, "animations"), Bool(true)),
        IfDefined(Lookup(c, "labels"), Bool(true)),
        IfDefined(Lookup(c, "doughnut"), Bool(false)),
        IfDefined(Lookup(c, "explodeSlices"), Bool(false)),
        IfDefined(Lookup(c, "gradient"), Bool(false)))
  }

  /** A pie widget saved from the properties form shows exactly the form's pie settings. */
  lemma {:induction false} SavedPieOptions(w: Widget, f: FormSync.Form, current: PieOptions)
    requires w.widgetType == PieChart
    ensures var v := f.visualization;
      PieOptionsFrom(FormSync.ApplyForm(w, f).config, current) ==
        PieOptions(v.animations, v.labels, v.doughnut, v.explodeSlices, v.gradient)
  {
    var v := f.visualization;
    var c0 := w.config.GetOr(map[]);
    var base := FormSync.BaseVisConfig(v);
    var typed := FormSync.TypeVisConfig(v, PieChart);
    assert FormSync.ApplyForm(w, f).config == Some(Spread(Spread(c0, base), typed));
    FormSync.BaseTypeDisjoint(v, PieChart);
    FormSync.TypedLookup(Spread(c0, base), typed, "labels");
    FormSync.TypedLookup(Spread(c0, base), typed, "doughnut");
    FormSync.TypedLookup(Spread(c0, base), typed, "explodeSlices");
    FormSync.WrittenLookup(c0, base, typed, "animations");
    FormSync.WrittenLookup(c0, base, typed, "gradient");
  }

  /** The pie chart renderer, composed with the shared chart part. */
  class PieChartWidget {
    var options: PieOptions
    const chart: ChartWidget.ChartWidget

    constructor (chart: ChartWidget.ChartWidget)
      ensures this.chart == chart && options == DefaultPieOptions()
    {
      this.chart := chart;
      options := DefaultPieOptions();
    }

    /** Whether `handleData` gets through the first value of the test stream without throwing. */
    predicate FirstValueHandled()
      reads chart, chart.base, chart.base.testData
    {
      chart.base.widget.id in chart.base.testData.streams ==>
        ChartWidget.LatestPerSeries(chart.base.testData.streams[chart.base.widget.id].data).Some?
    }

    /** `handleData`: the transformed data is shown; `ok` is false when the transform threw and nothing changed. */
    method HandleData(data: seq<DataItem>) returns (ok: bool)
      modifies chart`chartData
      ensures ok <==> ChartWidget.LatestPerSeries(data).Some?
      ensures ok ==> chart.chartData == ChartWidget.LatestPerSeries(data).value
      ensures !ok ==> chart.chartData == old(chart.chartData)
    {
      var shown := ChartWidget.LatestPerSeries(data);
      if shown.None? {
        return false;
      }
      chart.ShowData(shown.value);
      ok := true;
    }

    method UpdateChartOptions()
      modifies this`options
      ensures options == PieOptionsFrom(chart.base.widget.config, old(options))
    {
      var config := chart.base.widget.config;
      if config.None? {
        return;
      }
      var c := config.value;
      options := PieOptions(
        IfDefined(Lookup(c, "animations"), Bool(true)),
        IfDefined(Lookup(c, "labels"), Bool(true)),
        IfDefined(Lookup(c, "doughnut"), Bool(false)),
        IfDefined(Lookup(c, "explodeSlices"), Bool(false)),
        IfDefined(Lookup(c, "gradient"), Bool(false)));
    }

    /** `initWidget`: the scheme, then the load (a test stream's first value is handled at once), then the options. */
    method Init(nowMs: int, parse: string -> Option<int>, sample: (string, nat) -> real, rand: nat -> real, sine: real -> real)
      requires chart.base.testData.Valid() && TestData.RandomUnit(rand)
      modifies this`options, chart`colorScheme, chart`chartData, chart.base`loading, chart.base`error,
               chart.base`noData, chart.base`usingTestData, chart.base`inFlight, chart.base.testData
      ensures chart.base.testData.Valid()
      ensures chart.colorScheme == ChartWidget.ChartScheme(chart.base.widget.config, old(chart.colorScheme))
      ensures options == PieOptionsFrom(chart.base.widget.config, old(options))
      ensures WidgetBase.Loaded(chart.base, FirstValueHandled(), nowMs, parse, sample, rand, sine)
      ensures WidgetBase.UsesTestStream(chart.base.widget) && FirstValueHandled() ==>
        chart.chartData == ChartWidget.LatestPerSeries(chart.base.testData.streams[chart.base.widget.id].data).value
      ensures !(WidgetBase.UsesTestStream(chart.base.widget) && FirstValueHandled()) ==>
        chart.chartData == old(chart.chartData)
    {
      chart.UpdateColorScheme();
      var first := chart.base.LoadData(nowMs, parse, sample, rand, sine);
      if first.Some? {
        var ok := HandleData(first.value);
        if ok {
          chart.base.DataArrived(first.value, true);
        }
      }
      UpdateChartOptions();
    }

    /** The oldest telemetry answer arrives and is handled. */
    method ReceiveTelemetry()
      modifies chart`chartData, chart.base`inFlight, chart.base`loading, chart.base`noData
      ensures chart.base.inFlight == if |old(chart.base.inFlight)| > 0 then old(chart.base.inFlight)[1..] else []
      ensures var r := old(chart.base.NextResponse());
        if r.Some? && ChartWidget.LatestPerSeries(r.value).Some? then
          chart.chartData == ChartWidget.LatestPerSeries(r.value).value && !chart.base.loading
          && (chart.base.noData <==> |r.value| == 0)
        else chart.chartData == old(chart.chartData) && chart.base.loading == old(chart.base.loading)
             && chart.base.noData == old(chart.base.noData)
    {
      var r := chart.base.TakeResponse();
      if r.Some? {
        var ok := HandleData(r.value);
        if ok {
          chart.base.DataArrived(r.value, false);
        }
      }
    }

    /** The test stream emits its current value to a subscribed widget. */
    method ReceiveStreamValue()
      modifies chart`chartData, chart.base`loading, chart.base`noData
      ensures var s := old(chart.base.StreamValue());
        if s.Some? && ChartWidget.LatestPerSeries(s.value).Some? then
          chart.chartData == ChartWidget.LatestPerSeries(s.value).value && !chart.base.loading && !chart.base.noData
        else chart.chartData == old(chart.chartData) && chart.base.loading == old(chart.base.loading)
             && chart.base.noData == old(chart.base.noData)
    {
      var s := chart.base.StreamValue();
      if s.Some? {
        var ok := HandleData(s.value);
        if ok {
          chart.base.DataArrived(s.value, true);
        }
      }
    }
  }
}
