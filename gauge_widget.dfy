/**
 * The gauge renderer: a single value taken from the first data item, the
 * gauge options read from the widget's config, and the fill angle its
 * template draws.
 */
module GaugeWidget {
  import opened Wrappers
  import opened Models
  import FormSync
  import WidgetBase
  import TestData
  import ChartWidget

  datatype GaugeOptions = GaugeOptions(
    min: Value, max: Value, units: Value, angleSpan: Value, startAngle: Value,
    showAxis: Value, bigSegments: Value, smallSegments: Value, animations: Value)

  function DefaultGaugeOptions(): GaugeOptions {
    GaugeOptions(Num(0.0), Num(100.0), Str(""), Num(240.0), Num(-120.0), Bool(true), Num(10.0), Num(5.0), Bool(true))
  }

  /** `updateGaugeOptions` without the scheme: nothing without a config, else fallbacks for missing values (a falsy unit). */
  function GaugeOptionsFrom(config: Option<Config>, current: GaugeOptions): GaugeOptions {
    if config.None? then current
    else
      var c := config.value;
      GaugeOptions(
        IfDefined(Lookup(c, "min"), Num(0.0)),
        IfDefined(Lookup(c, "max"), Num(100.0)),
        OrElse(Lookup(c, "units"), Str("")),
        IfDefined(Lookup(c, "angleSpan"), Num(240.0)),
        IfDefined(Lookup(c, "startAngle"), Num(-120.0)),
        IfDefined(Lookup(c, "showAxis"), Bool(true)),
        IfDefined(Lookup(c, "bigSegments"), Num(10.0)),
        IfDefined(Lookup(c, "smallSegments"), Num(5.0)),
        IfDefined(Lookup(c, "animations"), Bool(true)))
  }

  /**
   * The scheme part of `updateGaugeOptions`: unlike the charts, a gauge
   * without a truthy scheme keeps the scheme it has.
   */
  function GaugeScheme(config: Option<Config>, current: Value): (r: Value)
    ensures config.None? || "scheme" !in config.value || !Truthy(config.value["scheme"]) ==> r == current
  {
    if config.Some? && "scheme" in config.value && Truthy(config.value["scheme"])
    then ChartWidget.SchemeFrom(config.value["scheme"], current)
    else current
  }

  /**
   * `handleData`: the latest point of the first item, else its scalar value
   * when it has one, else the value stays; no data shows 0.
   */
  function GaugeValueAfter(data: seq<DataItem>, current: real): (r: real)
    ensures |data| == 0 ==> r == 0.0
    ensures |data| > 0 && HasPoints(data[0]) ==> r == LastValue(data[0].series.value)
    ensures |data| > 0 && !HasPoints(data[0]) && data[0].value.Some? ==> r == data[0].value.value
    ensures |data| > 0 && !HasPoints(data[0]) && data[0].value.None? ==> r == current
  {
    if |data| == 0 then 0.0
    else if HasPoints(data[0]) then LastValue(data[0].series.value)
    else if data[0].value.Some? then data[0].value.value
    else current
  }

  /**
   * The rotation of the gauge fill, in degrees: the value's share of the
   * range scaled to the span and centred on zero. No angle when the range
   * is empty (the template divides by zero).
   */
  function FillAngle(value: real, min: real, max: real, angleSpan: real): Option<real> {
    if max == min then None
    else Some((value - min) / (max - min) * angleSpan - angleSpan / 2.0)
  }

  lemma NonNegativeProduct(a: real, b: real)
    requires a >= 0.0 && b >= 0.0
    ensures a * b >= 0.0
  {
  }

  /** The share of the range a value within it covers lies in [0, 1]. */
  lemma {:induction false} ShareInUnit(value: real, min: real, max: real)
    requires min < max && min <= value <= max
    ensures 0.0 <= (value - min) / (max - min) <= 1.0
  {
    var d := max - min;
    var share := (value - min) / d;
    assert share * d == value - min;
    if share < 0.0 {
      NonNegativeProduct(-share, d);
    }
    if share > 1.0 {
      NonNegativeProduct(share - 1.0, d);
      assert share * d - d >= 0.0;
    }
  }

  /** A value within the range turns the fill within half the span either way, and the ends reach the two edges. */
  lemma {:induction false} FillAngleBounds(value: real, min: real, max: real, angleSpan: real)
    requires min < max && min <= value <= max && angleSpan >= 0.0
    ensures FillAngle(value, min, max, angleSpan).Some?
    ensures -angleSpan / 2.0 <= FillAngle(value, min, max, angleSpan).value <= angleSpan / 2.0
    ensures FillAngle(min, min, max, angleSpan) == Some(-angleSpan / 2.0)
    ensures FillAngle(max, min, max, angleSpan) == Some(angleSpan / 2.0)
  {
    var share := (value - min) / (max - min);
    ShareInUnit(value, min, max);
    NonNegativeProduct(share, angleSpan);
    NonNegativeProduct(1.0 - share, angleSpan);
    assert (max - min) / (max - min) == 1.0;
  }

  /** On its test stream a gauge shows the stream's value, which lies within the default range [0, 100]. */
  lemma TestStreamValue(data: seq<DataItem>, current: real)
    requires TestData.WellFormed(Gauge, data)
    ensures GaugeValueAfter(data, current) == data[0].value.value
    ensures 0.0 <= GaugeValueAfter(data, current) <= 100.0
  {
  }

  /** The config a gauge's fold writes, on an abstract earlier config. */
  function WrittenGaugeConfig(c0: Config, v: FormSync.Vis): Config {
    Spread(Spread(c0, FormSync.BaseVisConfig(v)), FormSync.TypeVisConfig(v, Gauge))
  }

  lemma {:induction false} WrittenGaugeOptions(c0: Config, v: FormSync.Vis, current: GaugeOptions)
    ensures var o := GaugeOptionsFrom(Some(WrittenGaugeConfig(c0, v)), current);
      && o.min == v.min && o.max == v.max && o.units == OrElse(Some(v.units), Str(""))
      && o.angleSpan == v.angleSpan && o.startAngle == v.startAngle && o.animations == v.animations
      && o.showAxis == IfDefined(Lookup(c0, "showAxis"), Bool(true))
      && o.bigSegments == IfDefined(Lookup(c0, "bigSegments"), Num(10.0))
      && o.smallSegments == IfDefined(Lookup(c0, "smallSegments"), Num(5.0))
  {
    var base := FormSync.BaseVisConfig(v);
    var typed := FormSync.TypeVisConfig(v, Gauge);
    FormSync.BaseTypeDisjoint(v, Gauge);
    FormSync.TypedLookup(Spread(c0, base), typed, "min");
    FormSync.TypedLookup(Spread(c0, base), typed, "max");
    FormSync.TypedLookup(Spread(c0, base), typed, "units");
    FormSync.TypedLookup(Spread(c0, base), typed, "angleSpan");
    FormSync.TypedLookup(Spread(c0, base), typed, "startAngle");
    FormSync.WrittenLookup(c0, base, typed, "animations");
    FormSync.UnwrittenLookup(c0, base, typed, "showAxis");
    FormSync.UnwrittenLookup(c0, base, typed, "bigSegments");
    FormSync.UnwrittenLookup(c0, base, typed, "smallSegments");
  }

  /**
   * A gauge saved from the properties form shows the form's range, units,
   * angles and animation setting, and the form's scheme when it is truthy;
   * axis and segments stay as the widget's own config had them.
   */
  lemma {:induction false} SavedGaugeOptions(w: Widget, f: FormSync.Form, current: GaugeOptions, scheme: Value)
    requires w.widgetType == Gauge
    ensures var v := f.visualization;
      var c0 := w.config.GetOr(map[]);
      var o := GaugeOptionsFrom(FormSync.ApplyForm(w, f).config, current);
      && o.min == v.min && o.max == v.max && o.units == OrElse(Some(v.units), Str(""))
      && o.angleSpan == v.angleSpan && o.startAngle == v.startAngle && o.animations == v.animations
      && o.showAxis == IfDefined(Lookup(c0, "showAxis"), Bool(true))
      && o.bigSegments == IfDefined(Lookup(c0, "bigSegments"), Num(10.0))
      && o.smallSegments == IfDefined(Lookup(c0, "smallSegments"), Num(5.0))
      && GaugeScheme(FormSync.ApplyForm(w, f).config, scheme) ==
           if Truthy(v.scheme) then ChartWidget.SchemeFrom(v.scheme, scheme) else scheme
  {
    var c0 := w.config.GetOr(map[]);
    var v := f.visualization;
    assert FormSync.ApplyForm(w, f).config == Some(WrittenGaugeConfig(c0, v));
    WrittenGaugeOptions(c0, v, current);
    FormSync.BaseTypeDisjoint(v, Gauge);
    FormSync.WrittenLookup(c0, FormSync.BaseVisConfig(v), FormSync.TypeVisConfig(v, Gauge), "scheme");
  }

  /** The gauge renderer. */
  class GaugeWidget {
    var gaugeValue: real
    var options: GaugeOptions
    var colorScheme: Value
    const base: WidgetBase.WidgetBase

    constructor (base: WidgetBase.WidgetBase)
      ensures this.base == base && gaugeValue == 0.0 && options == DefaultGaugeOptions()
      ensures colorScheme == WidgetBase.DefaultColorScheme()
    {
      this.base := base;
      gaugeValue := 0.0;
      options := DefaultGaugeOptions();
      colorScheme := WidgetBase.DefaultColorScheme();
    }

    method HandleData(data: seq<DataItem>)
      modifies this`gaugeValue
      ensures gaugeValue == GaugeValueAfter(data, old(gaugeValue))
    {
      if |data| > 0 {
        var first := data[0];
        if HasPoints(first) {
          gaugeValue := LastValue(first.series.value);
        } else if first.value.Some? {
          gaugeValue := first.value.value;
        }
      } else {
        gaugeValue := 0.0;
      }
    }

    method UpdateGaugeOptions()
      modifies this`options, this`colorScheme
      ensures options == GaugeOptionsFrom(base.widget.config, old(options))
      ensures colorScheme == GaugeScheme(base.widget.config, old(colorScheme))
    {
      var config := base.widget.config;
      if config.None? {
        return;
      }
      var c := config.value;
      options := GaugeOptions(
        IfDefined(Lookup(c, "min"), Num(0.0)),
        IfDefined(Lookup(c, "max"), Num(100.0)),
        OrElse(Lookup(c, "units"), Str("")),
        IfDefined(Lookup(c, "angleSpan"), Num(240.0)),
        IfDefined(Lookup(c, "startAngle"), Num(-120.0)),
        IfDefined(Lookup(c, "showAxis"), Bool(true)),
        IfDefined(Lookup(c, "bigSegments"), Num(10.0)),
        IfDefined(Lookup(c, "smallSegments"), Num(5.0)),
        IfDefined(Lookup(c, "animations"), Bool(true)));
      if "scheme" in c && Truthy(c["scheme"]) {
        var scheme := c["scheme"];
        if scheme.Str? {
          colorScheme := ChartWidget.NamedScheme(scheme);
        } else if ChartWidget.HasDomain(scheme) {
          colorScheme := scheme;
        }
      }
    }

    /** `initWidget`: the options and scheme, then the load (a test stream's first value is shown at once). */
    method Init(nowMs: int, parse: string -> Option<int>, sample: (string, nat) -> real, rand: nat -> real, sine: real -> real)
      requires base.testData.Valid() && TestData.RandomUnit(rand)
      modifies this`options, this`colorScheme, this`gaugeValue, base`loading, base`error,
               base`noData, base`usingTestData, base`inFlight, base.testData
      ensures base.testData.Valid()
      ensures options == GaugeOptionsFrom(base.widget.config, old(options))
      ensures colorScheme == GaugeScheme(base.widget.config, old(colorScheme))
      ensures WidgetBase.Loaded(base, true, nowMs, parse, sample, rand, sine)
      ensures gaugeValue ==
        if WidgetBase.UsesTestStream(base.widget) then GaugeValueAfter(base.testData.streams[base.widget.id].data, old(gaugeValue))
        else old(gaugeValue)
    {
      UpdateGaugeOptions();
      var first := base.LoadData(nowMs, parse, sample, rand, sine);
      if first.Some? {
        HandleData(first.value);
        base.DataArrived(first.value, true);
      }
    }

    /** The oldest telemetry answer arrives and is shown. */
    method ReceiveTelemetry()
      modifies this`gaugeValue, base`inFlight, base`loading, base`noData
      ensures base.inFlight == if |old(base.inFlight)| > 0 then old(base.inFlight)[1..] else []
      ensures var r := old(base.NextResponse());
        if r.Some? then gaugeValue == GaugeValueAfter(r.value, old(gaugeValue)) && !base.loading
                        && (base.noData <==> |r.value| == 0)
        else gaugeValue == old(gaugeValue) && base.loading == old(base.loading) && base.noData == old(base.noData)
    {
      var r := base.TakeResponse();
      if r.Some? {
        HandleData(r.value);
        base.DataArrived(r.value, false);
      }
    }

    /** The test stream emits its current value to a subscribed widget. */
    method ReceiveStreamValue()
      modifies this`gaugeValue, base`loading, base`noData
      ensures var s := old(base.StreamValue());
        if s.Some? then gaugeValue == GaugeValueAfter(s.value, old(gaugeValue)) && !base.loading && !base.noData
        else gaugeValue == old(gaugeValue) && base.loading == old(base.loading) && base.noData == old(base.noData)
    {
      var s := base.StreamValue();
      if s.Some? {
        HandleData(s.value);
        base.DataArrived(s.value, true);
      }
    }
  }
}
