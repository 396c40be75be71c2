/**
 * What the line, bar and pie renderers share: the data they show, the
 * colour scheme picked from the widget's config, the legend position, and
 * the reduction of time series to their latest values that the bar and pie
 * renderers apply.
 */
module ChartWidget {
  import opened Wrappers
  import opened Models
  import FormSync
  import WidgetBase
  import TestData
  import Telemetry

  /** `{name: scheme, selectable: true}`: a scheme chosen by name. */
  function NamedScheme(name: Value): Value {
    Obj(map["name" := name, "selectable" := Bool(true)])
  }

  /** An object scheme that carries its own colours. */
  predicate HasDomain(scheme: Value) {
    scheme.Obj? && "domain" in scheme.fields && Truthy(scheme.fields["domain"])
  }

  /**
   * A truthy configured scheme: a string names a predefined scheme, an
   * object with a domain is used as it is, anything else leaves the current
   * scheme in place.
   */
  function SchemeFrom(scheme: Value, current: Value): (r: Value)
    requires Truthy(scheme)
    ensures scheme.Str? ==> r == NamedScheme(scheme)
    ensures HasDomain(scheme) ==> r == scheme
    ensures r == current || r == scheme || r == NamedScheme(scheme)
  {
    if scheme.Str? then NamedScheme(scheme)
    else if HasDomain(scheme) then scheme
    else current
  }

  /** `updateColorScheme`: a truthy `config.scheme` goes through `SchemeFrom`, otherwise the default scheme. */
  function ChartScheme(config: Option<Config>, current: Value): Value {
    if config.Some? && "scheme" in config.value && Truthy(config.value["scheme"])
    then SchemeFrom(config.value["scheme"], current)
    else WidgetBase.DefaultColorScheme()
  }

  /** `getLegendPosition`: `config.legendPosition`, or `'right'` when it is missing or falsy. */
  function LegendPosition(config: Option<Config>): Value {
    if config.Some? then OrElse(Lookup(config.value, "legendPosition"), Str("right")) else Str("right")
  }

  function Latest(item: DataItem): DataItem
    requires HasPoints(item)
  {
    DataItem(item.name, Some(LastValue(item.series.value)), None)
  }

  /**
   * The bar and pie `handleData` transform: when the first item is a
   * non-empty series, every item becomes `{name, value}` with its latest
   * value, which throws (`None`) as soon as a later item has no point;
   * otherwise the data is shown as it is.
   */
  function LatestPerSeries(data: seq<DataItem>): (r: Option<seq<DataItem>>)
    ensures r.None? <==> |data| > 0 && HasPoints(data[0]) && exists k :: 0 <= k < |data| && !HasPoints(data[k])
    ensures (|data| == 0 || !HasPoints(data[0])) ==> r == Some(data)
    ensures r.Some? && |data| > 0 && HasPoints(data[0]) ==>
      && |r.value| == |data|
      && forall k :: 0 <= k < |data| ==>
           HasPoints(data[k]) && r.value[k] == DataItem(data[k].name, Some(LastValue(data[k].series.value)), None)
  {
    if |data| > 0 && HasPoints(data[0]) then
      if forall k :: 0 <= k < |data| ==> HasPoints(data[k])
      then Some(seq(|data|, k requires 0 <= k < |data| => Latest(data[k])))
      else None
    else Some(data)
  }

  /** The part of a chart renderer that the line, bar and pie renderers share. */
  class ChartWidget {
    var chartData: seq<DataItem>
    var colorScheme: Value
    const base: WidgetBase.WidgetBase

    constructor (base: WidgetBase.WidgetBase)
      ensures this.base == base && chartData == [] && colorScheme == WidgetBase.DefaultColorScheme()
    {
      this.base := base;
      chartData := [];
      colorScheme := WidgetBase.DefaultColorScheme();
    }

    method UpdateColorScheme()
      modifies this`colorScheme
      ensures colorScheme == ChartScheme(base.widget.config, old(colorScheme))
    {
      var config := base.widget.config;
      if config.Some? && "scheme" in config.value && Truthy(config.value["scheme"]) {
        var scheme := config.value["scheme"];
        if scheme.Str? {
          colorScheme := NamedScheme(scheme);
        } else if HasDomain(scheme) {
          colorScheme := scheme;
        }
      } else {
        colorScheme := WidgetBase.DefaultColorScheme();
      }
    }

    /** The chart `handleData`: the data is shown as it arrives. */
    method ShowData(data: seq<DataItem>)
      modifies this`chartData
      ensures chartData == data
    {
      chartData := data;
    }
  }

  /** Re-applying the same config leaves the scheme where the first application put it. */
  lemma ChartSchemeIdempotent(config: Option<Config>, current: Value)
    ensures ChartScheme(config, ChartScheme(config, current)) == ChartScheme(config, current)
  {
  }

  /**
   * A widget saved from the properties form shows the form's scheme when it
   * is truthy, and the default scheme otherwise.
   */
  lemma {:induction false} SavedWidgetScheme(w: Widget, f: FormSync.Form, current: Value)
    ensures var scheme := f.visualization.scheme;
      ChartScheme(FormSync.ApplyForm(w, f).config, current) ==
        if Truthy(scheme) then SchemeFrom(scheme, current) else WidgetBase.DefaultColorScheme()
  {
    FormSync.ApplyFormConfig(w, f, "scheme");
  }

  /** The form never writes `legendPosition`, so saving a form leaves the legend where it was. */
  lemma {:induction false} SavingKeepsLegendPosition(w: Widget, f: FormSync.Form)
    ensures LegendPosition(FormSync.ApplyForm(w, f).config) == LegendPosition(Some(w.config.GetOr(map[])))
  {
    FormSync.ApplyFormConfig(w, f, "legendPosition");
    FormSync.BaseTypeDisjoint(f.visualization, w.widgetType);
  }

  /**
   * A telemetry answer over a valid range survives the transform with one
   * latest value per metric. Over a range with an Invalid Date end every
   * metric comes back without points, so the first item has no point and
   * the answer is shown as it is.
   */
  lemma {:induction false} TelemetryTransforms(w: Widget, nowMs: int, parse: string -> Option<int>, sample: (string, nat) -> real)
    requires !WidgetBase.UsesTestStream(w)
    ensures var data := WidgetBase.TelemetryResponse(w, nowMs, parse, sample);
      WidgetBase.ValidRange(w, nowMs, parse) ==>
        && LatestPerSeries(data).Some?
        && |LatestPerSeries(data).value| == |w.dataSource.value.metrics|
        && forall k :: 0 <= k < |data| ==> LatestPerSeries(data).value[k].name == Telemetry.MetricName(w.dataSource.value.metrics[k])
    ensures var data := WidgetBase.TelemetryResponse(w, nowMs, parse, sample);
      !WidgetBase.ValidRange(w, nowMs, parse) ==>
        && LatestPerSeries(data) == Some(data)
        && forall k :: 0 <= k < |data| ==> data[k].series == Some([])
  {
    var data := WidgetBase.TelemetryResponse(w, nowMs, parse, sample);
    if WidgetBase.ValidRange(w, nowMs, parse) {
      forall k | 0 <= k < |data| ensures HasPoints(data[k]) && data[k].name == Telemetry.MetricName(w.dataSource.value.metrics[k]) {
        assert data[k] == Telemetry.MetricSeries(w.dataSource.value.metrics[k],
          WidgetBase.InstantMs(WidgetBase.TimeRangeFor(w, nowMs).from, parse),
          WidgetBase.InstantMs(WidgetBase.TimeRangeFor(w, nowMs).to, parse), sample);
      }
    }
  }

  /** The bar and pie test streams are scalar already and pass through unchanged. */
  lemma ScalarStreamsPassThrough(rand: nat -> real)
    ensures LatestPerSeries(TestData.CategoryData(rand)) == Some(TestData.CategoryData(rand))
    ensures LatestPerSeries(TestData.DistributionData(rand)) == Some(TestData.DistributionData(rand))
  {
  }
}
