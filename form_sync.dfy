/**
 * The widget form shared by the properties dialog and the detail panel: its
 * value, the restore that fills it from a widget, the fold that writes it back
 * into a widget, and the data-source cascade with its telemetry look-ups.
 *
 * The two components carry identical copies of this logic; it is defined once
 * here and each component uses it.
 */
module FormSync {
  import opened Wrappers
  import opened Models
  import Telemetry

  datatype General = General(x: int, y: int, cols: int, rows: int)

  datatype SourceFields = SourceFields(facilityId: string, systemId: string, deviceId: string, metrics: seq<string>)

  datatype RangeFields = RangeFields(from: Instant, to: Instant, relativeRange: Option<string>)

  datatype TimeFields = TimeFields(useGlobalTime: bool, customTimeRange: RangeFields, refreshInterval: int)

  /** The `visualization` group: eleven settings for every chart, then the type-specific ones. */
  datatype Vis = Vis(
    scheme: Value, schemeType: Value, animations: Value, legend: Value,
    showXAxisLabel: Value, showYAxisLabel: Value, xAxisLabel: Value, yAxisLabel: Value,
    showGridLines: Value, gradient: Value, roundDomains: Value,
    curve: Value, autoScale: Value,
    barPadding: Value, groupPadding: Value, showDataLabel: Value,
    doughnut: Value, explodeSlices: Value, labels: Value,
    min: Value, max: Value, units: Value, angleSpan: Value, startAngle: Value)

  /** The value of the whole form group. */
  datatype Form = Form(
    title: string,
    general: General,
    dataSource: SourceFields,
    timeSettings: TimeFields,
    visualization: Vis)

  function DefaultVis(): Vis {
    Vis(Str("vivid"), Str("ordinal"), Bool(true), Bool(true),
        Bool(true), Bool(true), Str(""), Str(""),
        Bool(true), Bool(false), Bool(false),
        Str("linear"), Bool(true),
        Num(8.0), Num(16.0), Bool(false),
        Bool(false), Bool(false), Bool(true),
        Num(0.0), Num(100.0), Str(""), Num(240.0), Num(-120.0))
  }

  /** The initial value of `createWidgetForm`, which is also the value `resetForm` restores. */
  function DefaultForm(): Form {
    Form("", General(0, 0, 6, 6), SourceFields("", "", "", []),
         TimeFields(true, RangeFields(Text(""), Text(""), Some("")), 0), DefaultVis())
  }

  /** The form's validators: a required title, non-negative position, sizes of at least one. */
  predicate FormValid(f: Form) {
    f.title != "" && f.general.x >= 0 && f.general.y >= 0 && f.general.cols >= 1 && f.general.rows >= 1
  }

  // ---------------------------------------------------------------------------
  // Restore: widget -> form (`updateFormValues`)

  /** `s || ''` for an optional string. */
  function OrEmpty(s: Option<string>): string {
    if s.Some? then s.value else ""
  }

  /** An optional string that is truthy. */
  predicate Given(s: Option<string>) {
    s.Some? && s.value != ""
  }

  function PatchBasics(f: Form, w: Widget): Form {
    f.(title := w.title, general := General(w.x, w.y, w.cols, w.rows))
  }

  function PatchSource(f: Form, ds: DataSource): Form {
    var m := ds.entityMapping;
    f.(dataSource := SourceFields(OrEmpty(m.facility), OrEmpty(m.system), OrEmpty(m.device), ds.metrics))
  }

  /** `tc.refreshInterval || 0` is the interval, or 0 when it is absent. */
  function PatchTime(f: Form, tc: TimeContextOverride): Form {
    var ts := f.timeSettings.(useGlobalTime := tc.useGlobalTime, refreshInterval := tc.refreshInterval.GetOr(0));
    if tc.timeRange.Some? then
      var r := tc.timeRange.value;
      f.(timeSettings := ts.(customTimeRange := RangeFields(r.from, r.to, r.relativeRange)))
    else
      f.(timeSettings := ts)
  }

  /** `config.scheme?.name || config.scheme || 'vivid'` */
  function SchemeName(c: Config): Value {
    var s := Lookup(c, "scheme");
    var name := if s.Some? && s.value.Obj? then Lookup(s.value.fields, "name") else None;
    OrElse(name, OrElse(s, Str("vivid")))
  }

  /** The restore of the eleven common settings. */
  function PatchBaseVis(v: Vis, c: Config): Vis {
    v.(scheme := SchemeName(c),
       schemeType := OrElse(Lookup(c, "schemeType"), Str("ordinal")),
       animations := IfDefined(Lookup(c, "animations"), Bool(true)),
       legend := IfDefined(Lookup(c, "legend"), Bool(true)),
       showXAxisLabel := IfDefined(Lookup(c, "showXAxisLabel"), Bool(true)),
       showYAxisLabel := IfDefined(Lookup(c, "showYAxisLabel"), Bool(true)),
       xAxisLabel := OrElse(Lookup(c, "xAxisLabel"), Str("")),
       yAxisLabel := OrElse(Lookup(c, "yAxisLabel"), Str("")),
       showGridLines := IfDefined(Lookup(c, "showGridLines"), Bool(true)),
       gradient := IfDefined(Lookup(c, "gradient"), Bool(false)),
       roundDomains := IfDefined(Lookup(c, "roundDomains"), Bool(false)))
  }

  /** The restore of the settings of the widget's own type (the `switch` on its type). */
  function PatchTypeVis(v: Vis, c: Config, t: WidgetType): Vis {
    match t
    case LineChart => v.(
      curve := OrElse(Lookup(c, "curve"), Str("linear")),
      autoScale := IfDefined(Lookup(c, "autoScale"), Bool(true)))
    case BarChart => v.(
      barPadding := IfDefined(Lookup(c, "barPadding"), Num(8.0)),
      groupPadding := IfDefined(Lookup(c, "groupPadding"), Num(16.0)),
      showDataLabel := IfDefined(Lookup(c, "showDataLabel"), Bool(false)))
    case PieChart => v.(
      doughnut := IfDefined(Lookup(c, "doughnut"), Bool(false)),
      explodeSlices := IfDefined(Lookup(c, "explodeSlices"), Bool(false)),
      labels := IfDefined(Lookup(c, "labels"), Bool(true)))
    case Gauge => v.(
      min := IfDefined(Lookup(c, "min"), Num(0.0)),
      max := IfDefined(Lookup(c, "max"), Num(100.0)),
      units := OrElse(Lookup(c, "units"), Str("")),
      angleSpan := IfDefined(Lookup(c, "angleSpan"), Num(240.0)),
      startAngle := IfDefined(Lookup(c, "startAngle"), Num(-120.0)))
    case _ => v
  }

  function PatchVis(f: Form, c: Config, t: WidgetType): Form {
    f.(visualization := PatchTypeVis(PatchBaseVis(f.visualization, c), c, t))
  }

  /** Copy the time and visualization settings of `w` into the form (the last two steps of the restore). */
  function PatchTimeAndVis(f: Form, tc: Option<TimeContextOverride>, c: Option<Config>, t: WidgetType): Form {
    var f1 := if tc.Some? then PatchTime(f, tc.value) else f;
    if c.Some? then PatchVis(f1, c.value, t) else f1
  }

  /** Every patch of the restore applied to `f`, with no data-source field cleared afterwards. */
  function RestoredForm(f: Form, w: Widget): Form {
    var f1 := PatchBasics(f, w);
    var f2 := if w.dataSource.Some? then PatchSource(f1, w.dataSource.value) else f1;
    PatchTimeAndVis(f2, w.timeContext, w.config, w.widgetType)
  }

  // ---------------------------------------------------------------------------
  // Fold: form -> widget (`saveChanges` / `onFormChanges`)

  /** The eleven settings written for every widget type. */
  function BaseVisConfig(v: Vis): Config {
    map["scheme" := v.scheme, "schemeType" := v.schemeType, "animations" := v.animations,
        "legend" := v.legend, "showXAxisLabel" := v.showXAxisLabel, "showYAxisLabel" := v.showYAxisLabel,
        "xAxisLabel" := v.xAxisLabel, "yAxisLabel" := v.yAxisLabel, "showGridLines" := v.showGridLines,
        "gradient" := v.gradient, "roundDomains" := v.roundDomains]
  }

  /** The settings written for the widget's own type only; none for cards and unknown types. */
  function TypeVisConfig(v: Vis, t: WidgetType): Config {
    match t
    case LineChart => map["curve" := v.curve, "autoScale" := v.autoScale]
    case BarChart => map["barPadding" := v.barPadding, "groupPadding" := v.groupPadding, "showDataLabel" := v.showDataLabel]
    case PieChart => map["doughnut" := v.doughnut, "explodeSlices" := v.explodeSlices, "labels" := v.labels]
    case Gauge => map["min" := v.min, "max" := v.max, "units" := v.units, "angleSpan" := v.angleSpan, "startAngle" := v.startAngle]
    case _ => map[]
  }

  /** The data source the fold writes: the existing one (or a new telemetry source) with the form's selection. */
  function FoldSource(ds: Option<DataSource>, f: Form): DataSource {
    var base := if ds.Some? then ds.value else DataSource(Telemetry, EmptyMapping, []);
    var s := f.dataSource;
    base.(entityMapping := EntityMapping(Some(s.facilityId), Some(s.systemId), Some(s.deviceId), None, None),
          metrics := s.metrics)
  }

  /** The time context the fold writes: a range exactly when the widget does not follow the global time. */
  function FoldTime(f: Form): TimeContextOverride {
    var ts := f.timeSettings;
    var r := ts.customTimeRange;
    TimeContextOverride(
      ts.useGlobalTime,
      if !ts.useGlobalTime then Some(TimeRange(r.from, r.to, r.relativeRange)) else None,
      Some(ts.refreshInterval))
  }

  /** The updated copy of `w` built from the form value. */
  function ApplyForm(w: Widget, f: Form): Widget {
    var g := f.general;
    var v := f.visualization;
    w.(title := f.title, x := g.x, y := g.y, cols := g.cols, rows := g.rows,
       dataSource := Some(FoldSource(w.dataSource, f)),
       timeContext := Some(FoldTime(f)),
       config := Some(Spread(Spread(w.config.GetOr(map[]), BaseVisConfig(v)), TypeVisConfig(v, w.widgetType))))
  }

  /**
   * The outcome of one fold in a component: `updated` is the copy handed on
   * (`None` when reading the disabled custom range throws), `shared` is the
   * component's own widget once the writes through the shared `dataSource`
   * and `timeContext` of the shallow copy have happened.
   */
  datatype FoldResult = FoldResult(updated: Option<Widget>, shared: Widget)

  /**
   * The fold as the component runs it. Its `{...widget}` copy shares
   * `dataSource` and `timeContext` with the component's widget, so those
   * writes land in both when the widget had them. With the custom range
   * group disabled it is missing from the group value, and a widget that
   * does not use the global time throws on `ts.customTimeRange.from`, after
   * the data source and the first two time fields were written.
   */
  function Fold(w: Widget, f: Form, rangeEnabled: bool): FoldResult {
    var u := ApplyForm(w, f);
    var ts := f.timeSettings;
    if rangeEnabled || ts.useGlobalTime then
      FoldResult(Some(u), w.(dataSource := if w.dataSource.Some? then u.dataSource else None,
                             timeContext := if w.timeContext.Some? then u.timeContext else None))
    else
      FoldResult(None, w.(
        dataSource := if w.dataSource.Some? then u.dataSource else None,
        timeContext := if w.timeContext.Some?
          then Some(w.timeContext.value.(useGlobalTime := ts.useGlobalTime, refreshInterval := Some(ts.refreshInterval)))
          else None))
  }

  // ---------------------------------------------------------------------------
  // The data-source cascade and its option lists

  /** A telemetry look-up waiting for its response. */
  datatype Request =
    | FacilitiesRequest
    | SystemsRequest(facilityId: string)
    | DevicesRequest(systemId: string)
    | MetricsRequest(deviceId: string)

  /** The option lists the selects offer. */
  datatype Choices = Choices(
    facilities: seq<Telemetry.Entry>,
    systems: seq<Telemetry.Entry>,
    devices: seq<Telemetry.Device>,
    metrics: seq<Telemetry.Metric>)

  const NoChoices := Choices([], [], [], [])

  /**
   * The part of a component's state the cascade touches: the form, the option
   * lists, and the look-ups in flight, oldest first. Every look-up has the same
   * simulated delay, so responses arrive in the order the requests were made.
   */
  datatype Selection = Selection(form: Form, choices: Choices, pending: seq<Request>)

  /** `onFacilityChange(id)`: clear everything below the facility and look up its systems if `id` is given. */
  function FacilityChanged(s: Selection, facilityId: string): Selection {
    var ds := s.form.dataSource;
    Selection(
      s.form.(dataSource := ds.(systemId := "", deviceId := "", metrics := [])),
      s.choices.(systems := [], devices := [], metrics := []),
      s.pending + if facilityId != "" then [SystemsRequest(facilityId)] else [])
  }

  /** `onSystemChange(id)` */
  function SystemChanged(s: Selection, systemId: string): Selection {
    var ds := s.form.dataSource;
    Selection(
      s.form.(dataSource := ds.(deviceId := "", metrics := [])),
      s.choices.(devices := [], metrics := []),
      s.pending + if systemId != "" then [DevicesRequest(systemId)] else [])
  }

  /** `onDeviceChange(id)` */
  function DeviceChanged(s: Selection, deviceId: string): Selection {
    var ds := s.form.dataSource;
    Selection(
      s.form.(dataSource := ds.(metrics := [])),
      s.choices.(metrics := []),
      s.pending + if deviceId != "" then [MetricsRequest(deviceId)] else [])
  }

  /** The subscription callback of a look-up: it replaces one list with the catalogue's answer. */
  function Respond(c: Choices, r: Request): Choices {
    match r
    case FacilitiesRequest => c.(facilities := Telemetry.Facilities())
    case SystemsRequest(id) => c.(systems := Telemetry.Systems(id))
    case DevicesRequest(id) => c.(devices := Telemetry.Devices(id))
    case MetricsRequest(id) => c.(metrics := Telemetry.Metrics(id))
  }

  /** The oldest look-up in flight completes; with nothing in flight nothing happens. */
  function Deliver(s: Selection): Selection {
    if |s.pending| == 0 then s else s.(choices := Respond(s.choices, s.pending[0]), pending := s.pending[1..])
  }

  /** The list changes a restore makes for a widget's mapping, ending with its look-ups in flight. */
  function LoadFor(s: Selection, m: EntityMapping): Selection {
    if Given(m.facility) then
      var a := FacilityChanged(s, m.facility.value);
      if Given(m.system) then
        var b := SystemChanged(a, m.system.value);
        if Given(m.device) then DeviceChanged(b, m.device.value) else b
      else a
    else s
  }

  /**
   * `updateFormValues` of the properties dialog as written: after the data
   * source is patched in, the restore calls the cascade handlers, which clear
   * the fields below each level it loads.
   */
  function RestoreAsWritten(s: Selection, w: Widget): Selection {
    var f1 := PatchBasics(s.form, w);
    var s2 := if w.dataSource.Some? then LoadFor(s.(form := PatchSource(f1, w.dataSource.value)), w.dataSource.value.entityMapping)
              else s.(form := f1);
    s2.(form := PatchTimeAndVis(s2.form, w.timeContext, w.config, w.widgetType))
  }

  /** The restore as intended: the same look-ups, but every patched field keeps the widget's value. */
  function RestoreIntended(s: Selection, w: Widget): Selection {
    var loaded := if w.dataSource.Some? then LoadFor(s, w.dataSource.value.entityMapping) else s;
    loaded.(form := RestoredForm(s.form, w))
  }

  /** A visualization value that survives a restore: the `||`-restored settings hold strings, the select values non-empty. */
  predicate StableVis(v: Vis) {
    && v.scheme.Str? && v.scheme.s != ""
    && v.schemeType.Str? && v.schemeType.s != ""
    && v.curve.Str? && v.curve.s != ""
    && v.xAxisLabel.Str? && v.yAxisLabel.Str? && v.units.Str?
  }

  // ---------------------------------------------------------------------------
  // Properties

  /** What the fold writes: the form's values, a source and a time context always, and the config keys by type. */
  lemma ApplyFormShape(w: Widget, f: Form)
    ensures var u := ApplyForm(w, f);
      && u.id == w.id && u.widgetType == w.widgetType && u.title == f.title
      && u.x == f.general.x && u.y == f.general.y && u.cols == f.general.cols && u.rows == f.general.rows
      && u.dataSource.Some?
      && u.dataSource.value.kind == (if w.dataSource.Some? then w.dataSource.value.kind else Telemetry)
      && u.dataSource.value.entityMapping == EntityMapping(Some(f.dataSource.facilityId), Some(f.dataSource.systemId), Some(f.dataSource.deviceId), None, None)
      && u.dataSource.value.metrics == f.dataSource.metrics
      && u.timeContext.Some?
      && u.timeContext.value.useGlobalTime == f.timeSettings.useGlobalTime
      && u.timeContext.value.refreshInterval == Some(f.timeSettings.refreshInterval)
      && (u.timeContext.value.timeRange.Some? <==> !f.timeSettings.useGlobalTime)
  {
  }

  /** No type-specific setting shares a name with one of the eleven common settings. */
  lemma BaseTypeDisjoint(v: Vis, t: WidgetType)
    ensures BaseVisConfig(v).Keys !! TypeVisConfig(v, t).Keys
  {
  }

  /**
   * The config the fold writes holds the form's settings, keeps every earlier
   * key it does not set, and adds no type settings for cards.
   */
  lemma ApplyFormConfig(w: Widget, f: Form, key: string)
    ensures var c := ApplyForm(w, f).config;
      var base := BaseVisConfig(f.visualization);
      var typed := TypeVisConfig(f.visualization, w.widgetType);
      && c.Some?
      && (key in base ==> key in c.value && c.value[key] == base[key])
      && (key in typed ==> key in c.value && c.value[key] == typed[key])
      && (key in w.config.GetOr(map[]) && key !in base && key !in typed ==>
            key in c.value && c.value[key] == w.config.GetOr(map[])[key])
      && (w.widgetType == Card ==> c.value.Keys == w.config.GetOr(map[]).Keys + base.Keys)
  {
    BaseTypeDisjoint(f.visualization, w.widgetType);
  }

  /** Saving the same form twice gives the same widget as saving it once. */
  lemma ApplyFormIdempotent(w: Widget, f: Form)
    ensures ApplyForm(ApplyForm(w, f), f) == ApplyForm(w, f)
  {
    var u := ApplyForm(w, f);
    var v := f.visualization;
    var c0 := w.config.GetOr(map[]);
    var c1 := Spread(Spread(c0, BaseVisConfig(v)), TypeVisConfig(v, w.widgetType));
    assert Spread(Spread(c1, BaseVisConfig(v)), TypeVisConfig(v, w.widgetType)) == c1;
  }

  /** A key the fold writes among the common settings reads back as written. */
  lemma WrittenLookup(c0: Config, base: Config, typed: Config, k: string)
    requires k in base && base.Keys !! typed.Keys
    ensures Lookup(Spread(Spread(c0, base), typed), k) == Some(base[k])
  {
  }

  /** The restore reads back the eleven common settings the fold wrote. */
  lemma {:induction false} RestoreReadsBaseVis(v0: Vis, c0: Config, v: Vis, t: WidgetType)
    requires StableVis(v)
    ensures var c := Spread(Spread(c0, BaseVisConfig(v)), TypeVisConfig(v, t));
      BaseVisConfig(PatchTypeVis(PatchBaseVis(v0, c), c, t)) == BaseVisConfig(v)
  {
    var base := BaseVisConfig(v);
    var typed := TypeVisConfig(v, t);
    BaseTypeDisjoint(v, t);
    var c := Spread(Spread(c0, base), typed);
    forall k | k in base
      ensures Lookup(c, k) == Some(base[k])
    {
      WrittenLookup(c0, base, typed, k);
    }
    PatchBaseFromWritten(v0, c, v);
    TypeVisKeepsBase(PatchBaseVis(v0, c), c, t);
  }

  /** A config that reads back the eleven common settings of a stable `v` restores them as they were. */
  lemma PatchBaseFromWritten(v0: Vis, c: Config, v: Vis)
    requires StableVis(v)
    requires var base := BaseVisConfig(v);
      forall k :: k in base ==> Lookup(c, k) == Some(base[k])
    ensures BaseVisConfig(PatchBaseVis(v0, c)) == BaseVisConfig(v)
  {
    var base := BaseVisConfig(v);
    assert Lookup(c, "scheme") == Some(v.scheme) by { assert "scheme" in base; }
    assert Lookup(c, "schemeType") == Some(v.schemeType) by { assert "schemeType" in base; }
    assert Lookup(c, "animations") == Some(v.animations) by { assert "animations" in base; }
    assert Lookup(c, "legend") == Some(v.legend) by { assert "legend" in base; }
    assert Lookup(c, "showXAxisLabel") == Some(v.showXAxisLabel) by { assert "showXAxisLabel" in base; }
    assert Lookup(c, "showYAxisLabel") == Some(v.showYAxisLabel) by { assert "showYAxisLabel" in base; }
    assert Lookup(c, "xAxisLabel") == Some(v.xAxisLabel) by { assert "xAxisLabel" in base; }
    assert Lookup(c, "yAxisLabel") == Some(v.yAxisLabel) by { assert "yAxisLabel" in base; }
    assert Lookup(c, "showGridLines") == Some(v.showGridLines) by { assert "showGridLines" in base; }
    assert Lookup(c, "gradient") == Some(v.gradient) by { assert "gradient" in base; }
    assert Lookup(c, "roundDomains") == Some(v.roundDomains) by { assert "roundDomains" in base; }
  }

  /** The type-specific restore leaves the common settings alone. */
  lemma TypeVisKeepsBase(b: Vis, c: Config, t: WidgetType)
    ensures BaseVisConfig(PatchTypeVis(b, c, t)) == BaseVisConfig(b)
  {
  }

  /** A key the fold leaves alone reads as the widget's own config had it. */
  lemma UnwrittenLookup(c0: Config, base: Config, typed: Config, k: string)
    requires k !in base && k !in typed
    ensures Lookup(Spread(Spread(c0, base), typed), k) == Lookup(c0, k)
  {
  }

  /** A key the fold writes among the type settings reads back as written. */
  lemma TypedLookup(c: Config, typed: Config, k: string)
    requires k in typed
    ensures Lookup(Spread(c, typed), k) == Some(typed[k])
  {
  }

  /** The restore reads back the settings the fold wrote for the widget's type. */
  lemma {:induction false} RestoreReadsTypeVis(b: Vis, c1: Config, v: Vis, t: WidgetType)
    requires StableVis(v)
    ensures TypeVisConfig(PatchTypeVis(b, Spread(c1, TypeVisConfig(v, t)), t), t) == TypeVisConfig(v, t)
  {
    var typed := TypeVisConfig(v, t);
    match t
    case LineChart =>
      TypedLookup(c1, typed, "curve");
      TypedLookup(c1, typed, "autoScale");
    case BarChart =>
      TypedLookup(c1, typed, "barPadding");
      TypedLookup(c1, typed, "groupPadding");
      TypedLookup(c1, typed, "showDataLabel");
    case PieChart =>
      TypedLookup(c1, typed, "doughnut");
      TypedLookup(c1, typed, "explodeSlices");
      TypedLookup(c1, typed, "labels");
    case Gauge =>
      TypedLookup(c1, typed, "min");
      TypedLookup(c1, typed, "max");
      TypedLookup(c1, typed, "units");
      TypedLookup(c1, typed, "angleSpan");
      TypedLookup(c1, typed, "startAngle");
    case _ =>
  }

  /**
   * Round trip: restore a widget the form has produced into any form value,
   * fold it back without editing, and the widget is unchanged.
   */
  lemma {:induction false} RestoreRoundTrip(w0: Widget, f: Form, start: Form)
    requires StableVis(f.visualization)
    ensures var w := ApplyForm(w0, f);
      ApplyForm(w, RestoredForm(start, w)) == w
  {
    var w := ApplyForm(w0, f);
    var v := f.visualization;
    var c0 := w0.config.GetOr(map[]);
    var g := RestoredForm(start, w);
    var beforeVis := PatchTime(PatchSource(PatchBasics(start, w), w.dataSource.value), w.timeContext.value).visualization;
    RestoreReadsBaseVis(beforeVis, c0, v, w.widgetType);
    var cw := Spread(Spread(c0, BaseVisConfig(v)), TypeVisConfig(v, w.widgetType));
    RestoreReadsTypeVis(PatchBaseVis(beforeVis, cw), Spread(c0, BaseVisConfig(v)), v, w.widgetType);
    assert BaseVisConfig(g.visualization) == BaseVisConfig(v);
    assert TypeVisConfig(g.visualization, w.widgetType) == TypeVisConfig(v, w.widgetType);
    assert FoldSource(w.dataSource, g) == w.dataSource.value;
    assert FoldTime(g) == w.timeContext.value;
    ApplyFormIdempotent(w0, f);
  }

  /**
   * The dialog's restore as written ends with the intended look-ups in flight,
   * but with the system, device and metrics of any widget that names a
   * facility cleared: what the widget selected is lost.
   */
  lemma RestoreAsWrittenClears(s: Selection, w: Widget)
    ensures var a := RestoreAsWritten(s, w);
      var i := RestoreIntended(s, w);
      && a.choices == i.choices && a.pending == i.pending
      && (w.dataSource.Some? && Given(w.dataSource.value.entityMapping.facility) ==>
            a.form == i.form.(dataSource := i.form.dataSource.(systemId := "", deviceId := "", metrics := [])))
      && (!(w.dataSource.Some? && Given(w.dataSource.value.entityMapping.facility)) ==> a.form == i.form)
  {
    if w.dataSource.Some? {
      var m := w.dataSource.value.entityMapping;
      var s1 := s.(form := PatchSource(PatchBasics(s.form, w), w.dataSource.value));
      LoadForShape(s1, m);
      LoadForShape(s, m);
    }
  }

  /** The look-ups of a restore: lists below the facility cleared, one request per level given, forms cleared below. */
  lemma LoadForShape(s: Selection, m: EntityMapping)
    ensures var l := LoadFor(s, m);
      && l.pending == s.pending + RestoreRequests(m)
      && (Given(m.facility) ==> l.choices == s.choices.(systems := [], devices := [], metrics := []))
      && (Given(m.facility) ==> l.form == s.form.(dataSource := s.form.dataSource.(systemId := "", deviceId := "", metrics := [])))
      && (!Given(m.facility) ==> l == s)
  {
  }

  /** The look-ups a restore starts for a mapping: one per level, stopping at the first level not given. */
  function RestoreRequests(m: EntityMapping): seq<Request> {
    if Given(m.facility) then
      [SystemsRequest(m.facility.value)] +
      if Given(m.system) then
        [DevicesRequest(m.system.value)] + if Given(m.device) then [MetricsRequest(m.device.value)] else []
      else []
    else []
  }

  /** The intended restore keeps what the round trip needs: the restored form, and only list changes besides. */
  lemma RestoreIntendedShape(s: Selection, w: Widget)
    ensures var i := RestoreIntended(s, w);
      && i.form == RestoredForm(s.form, w)
      && i.pending == s.pending + (if w.dataSource.Some? then RestoreRequests(w.dataSource.value.entityMapping) else [])
  {
    if w.dataSource.Some? {
      LoadForShape(s, w.dataSource.value.entityMapping);
    }
  }

  /**
   * A saved line chart restored by the dialog and saved again without an
   * edit: the system, device and metrics it had are gone.
   */
  lemma DialogRestoreLosesSelection()
    ensures var f := DefaultForm().(title := "Pump flow", dataSource := SourceFields("facility-1", "system-1", "device-1", ["flow"]));
      var w := ApplyForm(Models.Widget("w1", LineChart, "Line Chart", 0, 0, 6, 6, None, None, None), f);
      var again := ApplyForm(w, RestoreAsWritten(Selection(DefaultForm(), NoChoices, []), w).form);
      && w.dataSource.value.entityMapping.system == Some("system-1")
      && again.dataSource.value.entityMapping.system == Some("")
      && again.dataSource.value.metrics == []
  {
    var f := DefaultForm().(title := "Pump flow", dataSource := SourceFields("facility-1", "system-1", "device-1", ["flow"]));
    var w := ApplyForm(Models.Widget("w1", LineChart, "Line Chart", 0, 0, 6, 6, None, None, None), f);
    var s := Selection(DefaultForm(), NoChoices, []);
    RestoreAsWrittenClears(s, w);
    ApplyFormShape(w, RestoreAsWritten(s, w).form);
  }

  /** Delivering every look-up in flight, oldest first. */
  function DeliverAll(c: Choices, rs: seq<Request>): Choices
    decreases |rs|
  {
    if |rs| == 0 then c else DeliverAll(Respond(c, rs[0]), rs[1..])
  }

  /** Once its look-ups complete, a restored widget's selects offer that facility's systems, that system's devices and that device's metrics. */
  lemma {:induction false} RestoreThenDeliver(c: Choices, m: EntityMapping)
    requires Given(m.facility) && Given(m.system) && Given(m.device)
    ensures var l := DeliverAll(c.(systems := [], devices := [], metrics := []), RestoreRequests(m));
      && l.facilities == c.facilities
      && l.systems == Telemetry.Systems(m.facility.value)
      && l.devices == Telemetry.Devices(m.system.value)
      && l.metrics == Telemetry.Metrics(m.device.value)
  {
    var rs := RestoreRequests(m);
    assert rs == [SystemsRequest(m.facility.value), DevicesRequest(m.system.value), MetricsRequest(m.device.value)];
    var c0 := c.(systems := [], devices := [], metrics := []);
    var c1 := Respond(c0, rs[0]);
    var c2 := Respond(c1, rs[1]);
    var c3 := Respond(c2, rs[2]);
    assert DeliverAll(c3, rs[3..]) == c3;
    assert DeliverAll(c2, rs[2..]) == DeliverAll(c3, rs[2..][1..]);
    assert rs[2..][1..] == rs[3..];
    assert DeliverAll(c1, rs[1..]) == DeliverAll(c2, rs[1..][1..]);
    assert rs[1..][1..] == rs[2..];
  }

  /**
   * A look-up outlives the selection that started it: choose a facility, then
   * clear it before the response arrives, and the systems of the abandoned
   * facility are still offered.
   */
  lemma StaleSystemsResponse(s: Selection)
    requires s.pending == []
    ensures var after := Deliver(FacilityChanged(FacilityChanged(s, "facility-1"), ""));
      && after.pending == []
      && after.choices.systems == Telemetry.Systems("facility-1")
      && |after.choices.systems| == 2
  {
  }

  /**
   * A component's fold hands on the updated copy unless the custom range is
   * disabled while the form asks for a custom range; the component's own
   * widget then carries the copy's source and time context wherever it had them.
   */
  lemma FoldOutcome(w: Widget, f: Form, rangeEnabled: bool)
    ensures var r := Fold(w, f, rangeEnabled);
      && (r.updated.None? <==> !rangeEnabled && !f.timeSettings.useGlobalTime)
      && (r.updated.Some? ==> r.updated.value == ApplyForm(w, f))
      && r.shared.id == w.id && r.shared.title == w.title && r.shared.config == w.config
      && r.shared.x == w.x && r.shared.y == w.y && r.shared.cols == w.cols && r.shared.rows == w.rows
      && (w.dataSource.Some? ==> r.shared.dataSource == ApplyForm(w, f).dataSource)
      && (w.dataSource.None? ==> r.shared.dataSource == None)
      && (w.timeContext.None? ==> r.shared.timeContext == None)
      && (r.updated.Some? && w.timeContext.Some? ==> r.shared.timeContext == ApplyForm(w, f).timeContext)
  {
  }

  /**
   * The corrected restore completes the round trip the restore as written
   * breaks: open a widget the form produced, save without an edit, and the
   * widget comes back unchanged.
   */
  lemma IntendedRestoreRoundTrip(w0: Widget, f: Form, s: Selection)
    requires StableVis(f.visualization)
    ensures var w := ApplyForm(w0, f);
      ApplyForm(w, RestoreIntended(s, w).form) == w
  {
    var w := ApplyForm(w0, f);
    RestoreIntendedShape(s, w);
    RestoreRoundTrip(w0, f, s.form);
  }
}
