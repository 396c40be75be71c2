/**
 * The data model of the designer: widgets, dashboards, the JavaScript values
 * that fill a widget's free-form `config`, and the series that widgets render.
 * All entities are values; where the source shares a nested object between two
 * widgets, the component that does so writes the sharing out explicitly.
 */
module Models {
  import opened Wrappers

  /** A JSON-like JavaScript value, as stored in `config`. NaN is not modelled. */
  datatype Value =
    | Null
    | Bool(b: bool)
    | Num(n: real)
    | Str(s: string)
    | Arr(items: seq<Value>)
    | Obj(fields: map<string, Value>)

  /** A widget's `config` object: property name to value. */
  type Config = map<string, Value>

  /** JavaScript truthiness. */
  predicate Truthy(v: Value) {
    match v
    case Null => false
    case Bool(b) => b
    case Num(n) => n != 0.0
    case Str(s) => s != ""
    case Arr(_) => true
    case Obj(_) => true
  }

  /** `obj.key`, which is `undefined` when the key is absent. */
  function Lookup(c: Config, key: string): Option<Value> {
    if key in c then Some(c[key]) else None
  }

  /** `v || fallback` */
  function OrElse(v: Option<Value>, fallback: Value): Value {
    if v.Some? && Truthy(v.value) then v.value else fallback
  }

  /** `v !== undefined ? v : fallback` */
  function IfDefined(v: Option<Value>, fallback: Value): Value {
    if v.Some? then v.value else fallback
  }

  /** `{...c, ...patch}`: the keys of `patch` win. */
  function Spread(c: Config, patch: Config): Config {
    c + patch
  }

  /** The five widget kinds; `Other` stands for any other string passed as a type. */
  datatype WidgetType = LineChart | BarChart | PieChart | Gauge | Card | Other(tag: string)

  /** The string spelling of each widget kind. */
  function TypeName(t: WidgetType): string {
    match t
    case LineChart => "lineChart"
    case BarChart => "barChart"
    case PieChart => "pieChart"
    case Gauge => "gauge"
    case Card => "card"
    case Other(tag) => tag
  }

  /** `widgetType as WidgetType` for an arbitrary string. */
  function ParseType(s: string): (t: WidgetType)
    ensures TypeName(t) == s
    ensures t.Other? <==> s !in {"lineChart", "barChart", "pieChart", "gauge", "card"}
  {
    if s == "lineChart" then LineChart
    else if s == "barChart" then BarChart
    else if s == "pieChart" then PieChart
    else if s == "gauge" then Gauge
    else if s == "card" then Card
    else Other(s)
  }

  datatype SourceKind = Telemetry | Static

  datatype EntityMapping = EntityMapping(
    facility: Option<string>,
    system: Option<string>,
    device: Option<string>,
    abstractEntity: Option<string>,
    concreteEntity: Option<string>)

  const EmptyMapping := EntityMapping(None, None, None, None, None)

  datatype DataSource = DataSource(kind: SourceKind, entityMapping: EntityMapping, metrics: seq<string>)

  /** A `string | Date` endpoint; a Date is its millisecond time stamp. */
  datatype Instant = Text(text: string) | At(ms: int)

  datatype TimeRange = TimeRange(from: Instant, to: Instant, relativeRange: Option<string>)

  datatype TimeContextOverride = TimeContextOverride(
    useGlobalTime: bool,
    timeRange: Option<TimeRange>,
    refreshInterval: Option<int>)

  datatype Widget = Widget(
    id: string,
    widgetType: WidgetType,
    title: string,
    x: int, y: int, cols: int, rows: int,
    dataSource: Option<DataSource>,
    timeContext: Option<TimeContextOverride>,
    config: Option<Config>)

  datatype TimeMode = Historical | Realtime | Paused

  datatype TimeContext = TimeContext(mode: TimeMode, range: TimeRange, refreshInterval: Option<int>)

  /**
   * The grid library's options object. `LibraryDefaults` is the result of
   * `getDefaultGridsterOptions`, whose static contents are not modelled.
   */
  datatype GridOptions = LibraryDefaults | GridSettings(settings: Config)

  datatype Dashboard = Dashboard(
    id: string,
    name: string,
    description: string,
    widgets: seq<Widget>,
    gridOptions: GridOptions,
    timeContext: Option<TimeContext>)

  /** One sample of a series: `{name: <timestamp>, value}`; the timestamp in milliseconds. */
  datatype Point = Point(time: real, value: real)

  /**
   * One element of the data array a widget receives: a named series
   * `{name, series}` or a named scalar `{name, value}`.
   */
  datatype DataItem = DataItem(name: string, value: Option<real>, series: Option<seq<Point>>)

  /** `item.series && item.series.length > 0` */
  predicate HasPoints(item: DataItem) {
    item.series.Some? && |item.series.value| > 0
  }

  /** The value of the last point of a non-empty series. */
  function LastValue(points: seq<Point>): real
    requires |points| > 0
  {
    points[|points| - 1].value
  }

  /** `Math.max(0, v)` */
  function Max0(v: real): (r: real)
    ensures r >= 0.0 && r >= v
    ensures r == v || r == 0.0
  {
    if v < 0.0 then 0.0 else v
  }

  function WidgetIds(ws: seq<Widget>): (r: seq<string>)
    ensures |r| == |ws| && forall k :: 0 <= k < |ws| ==> r[k] == ws[k].id
  {
    seq(|ws|, k requires 0 <= k < |ws| => ws[k].id)
  }
}
