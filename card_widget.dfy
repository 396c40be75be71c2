/**
 * The card renderer: the latest value of the first series, its trend in
 * percent with a direction, the last ten values for the sparkline, and the
 * card's look read from the widget's config.
 */
module CardWidget {
  import opened Wrappers
  import opened Models
  import FormSync
  import WidgetBase
  import TestData
  import DashboardStore

  datatype Direction = Up | Down | Stable

  datatype CardOptions = CardOptions(units: Value, icon: Value, backgroundColor: Value, textColor: Value, decimals: Value)

  function DefaultCardOptions(): CardOptions {
    CardOptions(Str(""), Str("assessment"), Str("#5AA454"), Str("#ffffff"), Num(1.0))
  }

  /** `updateCardOptions`: nothing without a config; falsy texts and a missing `decimals` fall back. */
  function CardOptionsFrom(config: Option<Config>, current: CardOptions): CardOptions {
    if config.None? then current
    else
      var c := config.value;
      CardOptions(
        OrElse(Lookup(c, "units"), Str("")),
        OrElse(Lookup(c, "icon"), Str("assessment")),
        OrElse(Lookup(c, "color"), Str("#5AA454")),
        OrElse(Lookup(c, "textColor"), Str("#ffffff")),
        IfDefined(Lookup(c, "decimals"), Num(1.0)))
  }

  /** What the card shows about its data. */
  datatype Reading = Reading(value: real, trendValue: real, trendDirection: Direction, trendHistory: seq<real>)

  function InitialReading(): Reading {
    Reading(0.0, 0.0, Stable, [])
  }

  /** The change of the latest value over the previous one in percent; 0 after a zero. */
  function TrendPercent(latest: real, previous: real): real {
    if previous != 0.0 then (latest - previous) / previous * 100.0 else 0.0
  }

  /** More than half a percent either way is a trend. */
  function DirectionOf(trend: real): Direction {
    if trend > 0.5 then Up else if trend < -0.5 then Down else Stable
  }

  function Values(points: seq<Point>): (vs: seq<real>)
    ensures |vs| == |points| && forall i :: 0 <= i < |points| ==> vs[i] == points[i].value
  {
    seq(|points|, i requires 0 <= i < |points| => points[i].value)
  }

  /** `slice(-10)`: the last ten elements, or all of them. */
  function LastTen(vs: seq<real>): (r: seq<real>)
    ensures |r| == if |vs| < 10 then |vs| else 10
    ensures r == vs[|vs| - |r|..]
  {
    if |vs| <= 10 then vs else vs[|vs| - 10..]
  }

  /**
   * `handleData`: no data resets the reading; a first item without points
   * changes nothing; a series sets the value, and with two points or more
   * also the trend, its direction and the history. A single point keeps the
   * earlier trend.
   */
  function ReadingAfter(data: seq<DataItem>, r: Reading): (n: Reading)
    ensures |data| == 0 ==> n == InitialReading()
    ensures |data| > 0 && !HasPoints(data[0]) ==> n == r
    ensures |data| > 0 && HasPoints(data[0]) ==> n.value == LastValue(data[0].series.value)
    ensures |data| > 0 && HasPoints(data[0]) && |data[0].series.value| == 1 ==>
      n == r.(value := LastValue(data[0].series.value))
    ensures |data| > 0 && HasPoints(data[0]) && |data[0].series.value| > 1 ==>
      var vs := Values(data[0].series.value);
      && |n.trendHistory| == (if |vs| < 10 then |vs| else 10)
      && n.trendHistory == vs[|vs| - |n.trendHistory|..]
      && n.trendHistory[|n.trendHistory| - 1] == n.value
    ensures |data| > 0 && HasPoints(data[0]) && |data[0].series.value| > 1 ==>
      var points := data[0].series.value;
      var previous := points[|points| - 2].value;
      && (previous == 0.0 ==> n.trendValue == 0.0)
      && (previous != 0.0 ==> n.trendValue * previous == (LastValue(points) - previous) * 100.0)
      && (n.trendDirection == Up <==> n.trendValue > 0.5)
      && (n.trendDirection == Down <==> n.trendValue < -0.5)
  {
    if |data| == 0 then InitialReading()
    else if !HasPoints(data[0]) then r
    else
      var points := data[0].series.value;
      var latest := LastValue(points);
      if |points| > 1 then
        var trend := TrendPercent(latest, points[|points| - 2].value);
        Reading(latest, trend, DirectionOf(trend), LastTen(Values(points)))
      else r.(value := latest)
  }

  /** `getTrendIcon` */
  function TrendIcon(d: Direction): string {
    match d
    case Up => "trending_up"
    case Down => "trending_down"
    case Stable => "trending_flat"
  }

  /** `getTrendClass` */
  function TrendClass(d: Direction): string {
    match d
    case Up => "trend-up"
    case Down => "trend-down"
    case Stable => "trend-stable"
  }

  lemma ProductMonotone(a: real, b: real, p: real)
    requires p > 0.0 && a >= b
    ensures a * p >= b * p && (a > b ==> a * p > b * p)
  {
    assert a * p - b * p == (a - b) * p;
  }

  /**
   * After a positive previous value the card shows an upward trend exactly
   * when the latest value exceeds it by more than half a percent, and a
   * downward one exactly when it falls short by more than half a percent;
   * the icon and the style class follow the direction.
   */
  lemma {:induction false} DirectionMeaning(latest: real, previous: real)
    requires previous > 0.0
    ensures var d := DirectionOf(TrendPercent(latest, previous));
      && (d == Up <==> 200.0 * (latest - previous) > previous)
      && (d == Down <==> 200.0 * (previous - latest) > previous)
      && (TrendIcon(d) == "trending_up" <==> d == Up) && (TrendClass(d) == "trend-up" <==> d == Up)
      && (TrendIcon(d) == "trending_down" <==> d == Down) && (TrendClass(d) == "trend-down" <==> d == Down)
  {
    var q := (latest - previous) / previous;
    assert q * previous == latest - previous;
    assert TrendPercent(latest, previous) == q * 100.0;
    if q > 0.005 {
      ProductMonotone(q, 0.005, previous);
    } else {
      ProductMonotone(0.005, q, previous);
    }
    if q < -0.005 {
      ProductMonotone(-0.005, q, previous);
    } else {
      ProductMonotone(q, -0.005, previous);
    }
  }

  /** On its test stream the card's history is the whole ten-point series and its value the latest point. */
  lemma {:induction false} TestStreamReading(data: seq<DataItem>, r: Reading)
    requires TestData.WellFormed(Card, data)
    ensures var n := ReadingAfter(data, r);
      && n.trendHistory == Values(data[0].series.value) && |n.trendHistory| == 10
      && n.value == n.trendHistory[9]
  {
  }

  /** A card fresh from the factory shows its default icon and colours with one decimal. */
  lemma NewCardOptions(freshId: string, current: CardOptions)
    ensures CardOptionsFrom(DashboardStore.CreateWidget("card", freshId).config, current) ==
      CardOptions(Str(""), Str("insert_chart"), Str("#5AA454"), Str("#ffffff"), Num(1.0))
  {
  }

  /**
   * The properties form writes none of the card's own settings, so saving
   * a card leaves its look as the widget's own config had it.
   */
  lemma {:induction false} SavedCardOptions(w: Widget, f: FormSync.Form, current: CardOptions)
    requires w.widgetType == Card
    ensures CardOptionsFrom(FormSync.ApplyForm(w, f).config, current) ==
      CardOptionsFrom(Some(w.config.GetOr(map[])), current)
  {
    var v := f.visualization;
    var c0 := w.config.GetOr(map[]);
    var base := FormSync.BaseVisConfig(v);
    var typed := FormSync.TypeVisConfig(v, Card);
    assert FormSync.ApplyForm(w, f).config == Some(Spread(Spread(c0, base), typed));
    FormSync.UnwrittenLookup(c0, base, typed, "units");
    FormSync.UnwrittenLookup(c0, base, typed, "icon");
    FormSync.UnwrittenLookup(c0, base, typed, "color");
    FormSync.UnwrittenLookup(c0, base, typed, "textColor");
    FormSync.UnwrittenLookup(c0, base, typed, "decimals");
  }

  /** The card renderer. */
  class CardWidget {
    var value: real
    var trendValue: real
    var trendDirection: Direction
    var trendHistory: seq<real>
    var options: CardOptions
    const base: WidgetBase.WidgetBase

    function Current(): Reading
      reads this
    {
      Reading(value, trendValue, trendDirection, trendHistory)
    }

    constructor (base: WidgetBase.WidgetBase)
      ensures this.base == base && Current() == InitialReading() && options == DefaultCardOptions()
    {
      this.base := base;
      value, trendValue, trendDirection, trendHistory := 0.0, 0.0, Stable, [];
      options := DefaultCardOptions();
    }

    method HandleData(data: seq<DataItem>)
      modifies this`value, this`trendValue, this`trendDirection, this`trendHistory
      ensures Current() == ReadingAfter(data, old(Current()))
    {
      if |data| > 0 {
        var first := data[0];
        if HasPoints(first) {
          var points := first.series.value;
          var latest := LastValue(points);
          value := latest;
          if |points| > 1 {
            var previous := points[|points| - 2].value;
            if previous != 0.0 {
              trendValue := (latest - previous) / previous * 100.0;
            } else {
              trendValue := 0.0;
            }
            assert trendValue == TrendPercent(latest, previous);
            if trendValue > 0.5 {
              trendDirection := Up;
            } else if trendValue < -0.5 {
              trendDirection := Down;
            } else {
              trendDirection := Stable;
            }
            trendHistory := LastTen(Values(points));
            assert Current() == Reading(latest, TrendPercent(latest, previous), DirectionOf(trendValue), LastTen(Values(points)));
          }
        }
      } else {
        value, trendValue, trendDirection, trendHistory := 0.0, 0.0, Stable, [];
      }
    }

    method UpdateCardOptions()
      modifies this`options
      ensures options == CardOptionsFrom(base.widget.config, old(options))
    {
      var config := base.widget.config;
      if config.None? {
        return;
      }
      var c := config.value;
      options := CardOptions(
        OrElse(Lookup(c, "units"), Str("")),
        OrElse(Lookup(c, "icon"), Str("assessment")),
        OrElse(Lookup(c, "color"), Str("#5AA454")),
        OrElse(Lookup(c, "textColor"), Str("#ffffff")),
        IfDefined(Lookup(c, "decimals"), Num(1.0)));
    }

    /** `initWidget`: the options, then the load (a test stream's first value is shown at once). */
    method Init(nowMs: int, parse: string -> Option<int>, sample: (string, nat) -> real, rand: nat -> real, sine: real -> real)
      requires base.testData.Valid() && TestData.RandomUnit(rand)
      modifies this`options, this`value, this`trendValue, this`trendDirection, this`trendHistory,
               base`loading, base`error, base`noData, base`usingTestData, base`inFlight, base.testData
      ensures base.testData.Valid()
      ensures options == CardOptionsFrom(base.widget.config, old(options))
      ensures WidgetBase.Loaded(base, true, nowMs, parse, sample, rand, sine)
      ensures Current() ==
        if WidgetBase.UsesTestStream(base.widget) then ReadingAfter(base.testData.streams[base.widget.id].data, old(Current()))
        else old(Current())
    {
      UpdateCardOptions();
      var first := base.LoadData(nowMs, parse, sample, rand, sine);
      if first.Some? {
        HandleData(first.value);
        base.DataArrived(first.value, true);
      }
    }

    /** The oldest telemetry answer arrives and is shown. */
    method ReceiveTelemetry()
      modifies this`value, this`trendValue, this`trendDirection, this`trendHistory, base`inFlight, base`loading, base`noData
      ensures base.inFlight == if |old(base.inFlight)| > 0 then old(base.inFlight)[1..] else []
      ensures var r := old(base.NextResponse());
        if r.Some? then Current() == ReadingAfter(r.value, old(Current())) && !base.loading
                        && (base.noData <==> |r.value| == 0)
        else Current() == old(Current()) && base.loading == old(base.loading) && base.noData == old(base.noData)
    {
      var r := base.TakeResponse();
      if r.Some? {
        HandleData(r.value);
        base.DataArrived(r.value, false);
      }
    }

    /** The test stream emits its current value to a subscribed widget. */
    method ReceiveStreamValue()
      modifies this`value, this`trendValue, this`trendDirection, this`trendHistory, base`loading, base`noData
      ensures var s := old(base.StreamValue());
        if s.Some? then Current() == ReadingAfter(s.value, old(Current())) && !base.loading && !base.noData
        else Current() == old(Current()) && base.loading == old(base.loading) && base.noData == old(base.noData)
    {
      var s := base.StreamValue();
      if s.Some? {
        HandleData(s.value);
        base.DataArrived(s.value, true);
      }
    }
  }
}
