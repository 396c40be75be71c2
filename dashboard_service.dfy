/**
 * The persistence service: one local-storage slot holding the JSON array of
 * all dashboards, and the factory for new widgets. Parsing and serialising are
 * not modelled: the slot holds the parsed list, or says that it is missing or
 * unparseable. The uuid generator is the `freshId` parameter.
 */
module DashboardStore {
  import opened Wrappers
  import opened Models
  import opened Lists

  /** The storage slot under the key 'dashboard_data'. */
  datatype Slot = Missing | Unparseable | Holds(dashboards: seq<Dashboard>)

  function DashboardIds(ds: seq<Dashboard>): (r: seq<string>)
    ensures |r| == |ds| && forall k :: 0 <= k < |ds| ==> r[k] == ds[k].id
  {
    seq(|ds|, k requires 0 <= k < |ds| => ds[k].id)
  }

  /** `getAllDashboards`: a missing or unparseable slot reads as no dashboards. */
  function AllDashboards(slot: Slot): seq<Dashboard> {
    if slot.Holds? then slot.dashboards else []
  }

  /**
   * `getDashboard(id)` over the stored list. JavaScript's `!id` holds for both
   * `undefined` and the empty string.
   */
  function FindDashboard(ds: seq<Dashboard>, id: Option<string>): (r: Option<Dashboard>)
    ensures (id == None || id == Some("")) ==>
      r == if |ds| > 0 then Some(ds[|ds| - 1]) else None
    ensures id.Some? && id.value != "" ==>
      (r.Some? <==> id.value in DashboardIds(ds))
    ensures id.Some? && id.value != "" && r.Some? ==>
      exists i :: 0 <= i < |ds| && r.value == ds[i] && ds[i].id == id.value &&
        forall j :: 0 <= j < i ==> ds[j].id != id.value
  {
    if (id == None || id == Some("")) && |ds| > 0 then Some(ds[|ds| - 1])
    else if id.Some? && id.value != "" then
      var index := FirstIndex(DashboardIds(ds), id.value);
      if index != -1 then Some(ds[index]) else None
    else None
  }

  /** The list `saveDashboard` writes back: overwrite the first entry with that id, else append. */
  function Upsert(ds: seq<Dashboard>, d: Dashboard): seq<Dashboard> {
    var index := FirstIndex(DashboardIds(ds), d.id);
    if index != -1 then ds[index := d] else ds + [d]
  }

  /** The list `deleteDashboard` writes back when the id is present. */
  function RemoveFirst(ds: seq<Dashboard>, id: string): seq<Dashboard> {
    var index := FirstIndex(DashboardIds(ds), id);
    if index != -1 then RemoveAt(ds, index) else ds
  }

  class DashboardService {
    var storage: Slot

    constructor (slot: Slot)
      ensures storage == slot
    {
      storage := slot;
    }

    function GetAllDashboards(): seq<Dashboard>
      reads this
    {
      AllDashboards(storage)
    }

    function GetDashboard(id: Option<string>): Option<Dashboard>
      reads this
    {
      FindDashboard(AllDashboards(storage), id)
    }

    /**
     * `saveDashboard(dashboard)`. The source assigns the fresh id to the
     * caller's object; here the dashboard as saved is returned.
     */
    method SaveDashboard(dashboard: Dashboard, freshId: string) returns (saved: Dashboard)
      modifies this
      ensures saved == if dashboard.id == "" then dashboard.(id := freshId) else dashboard
      ensures storage == Holds(Upsert(old(GetAllDashboards()), saved))
    {
      saved := dashboard;
      if saved.id == "" {
        saved := saved.(id := freshId);
      }
      var dashboards := GetAllDashboards();
      var index := FirstIndex(DashboardIds(dashboards), saved.id);
      if index != -1 {
        dashboards := dashboards[index := saved];
      } else {
        dashboards := dashboards + [saved];
      }
      storage := Holds(dashboards);
    }

    /** `deleteDashboard(id)`: storage is rewritten only when the id was found. */
    method DeleteDashboard(id: string)
      modifies this
      ensures id in DashboardIds(old(GetAllDashboards())) ==>
        storage == Holds(RemoveFirst(old(GetAllDashboards()), id))
      ensures id !in DashboardIds(old(GetAllDashboards())) ==> storage == old(storage)
    {
      var dashboards := GetAllDashboards();
      var index := FirstIndex(DashboardIds(dashboards), id);
      if index != -1 {
        dashboards := RemoveAt(dashboards, index);
        storage := Holds(dashboards);
      }
    }
  }

  /** A missing or unparseable slot reads as the empty list; a stored list reads as itself. */
  lemma ReadSlot(slot: Slot)
    ensures slot == Missing || slot == Unparseable ==> AllDashboards(slot) == []
    ensures slot.Holds? ==> AllDashboards(slot) == slot.dashboards
    ensures FindDashboard(AllDashboards(Unparseable), None) == None
  {
  }

  /**
   * Saving overwrites the first entry with the same id, keeping the length and
   * every other entry, or appends at the end, growing the list by one.
   */
  lemma UpsertShape(ds: seq<Dashboard>, d: Dashboard)
    ensures d.id in DashboardIds(ds) ==> |Upsert(ds, d)| == |ds|
    ensures d.id in DashboardIds(ds) ==>
      forall k :: 0 <= k < |ds| && k != FirstIndex(DashboardIds(ds), d.id) ==> Upsert(ds, d)[k] == ds[k]
    ensures d.id !in DashboardIds(ds) ==> Upsert(ds, d) == ds + [d]
    ensures d in Upsert(ds, d)
  {
    var index := FirstIndex(DashboardIds(ds), d.id);
    if index != -1 {
      assert Upsert(ds, d)[index] == d;
    } else {
      assert Upsert(ds, d)[|ds|] == d;
    }
  }

  /** `save(d); save(d)` stores the same list as one save: no second entry appears. */
  lemma {:induction false} UpsertIdempotent(ds: seq<Dashboard>, d: Dashboard)
    ensures Upsert(Upsert(ds, d), d) == Upsert(ds, d)
  {
    var ids := DashboardIds(ds);
    var once := Upsert(ds, d);
    var index := FirstIndex(ids, d.id);
    if index != -1 {
      assert DashboardIds(once) == ids;
    } else {
      assert DashboardIds(once) == ids + [d.id];
      assert FirstIndex(DashboardIds(once), d.id) == |ds|;
    }
  }

  /** After saving, looking the dashboard up by its (non-empty) id finds exactly what was saved. */
  lemma GetAfterSave(ds: seq<Dashboard>, d: Dashboard)
    requires d.id != ""
    ensures FindDashboard(Upsert(ds, d), Some(d.id)) == Some(d)
    ensures FindDashboard(Upsert(ds, d), None) == Some(d) <==>
      (d.id !in DashboardIds(ds) || FirstIndex(DashboardIds(ds), d.id) == |ds| - 1 || ds[|ds| - 1] == d)
  {
    var ids := DashboardIds(ds);
    var index := FirstIndex(ids, d.id);
    if index != -1 {
      assert DashboardIds(Upsert(ds, d)) == ids;
    } else {
      assert DashboardIds(Upsert(ds, d)) == ids + [d.id];
      assert FirstIndex(ids + [d.id], d.id) == |ds|;
    }
  }

  /** Saving keeps the stored ids unique. */
  lemma UpsertKeepsUnique(ds: seq<Dashboard>, d: Dashboard)
    requires Unique(DashboardIds(ds))
    ensures Unique(DashboardIds(Upsert(ds, d)))
  {
    var ids := DashboardIds(ds);
    if FirstIndex(ids, d.id) != -1 {
      assert DashboardIds(Upsert(ds, d)) == ids;
    } else {
      assert DashboardIds(Upsert(ds, d)) == ids + [d.id];
      AppendKeepsUnique(ids, d.id);
    }
  }

  /**
   * Deleting removes only the first match: the list shrinks by one, every other
   * entry keeps its order, and an unknown id removes nothing.
   */
  lemma RemoveFirstShape(ds: seq<Dashboard>, id: string)
    ensures id !in DashboardIds(ds) ==> RemoveFirst(ds, id) == ds
    ensures id in DashboardIds(ds) ==>
      var i := FirstIndex(DashboardIds(ds), id);
      |RemoveFirst(ds, id)| == |ds| - 1 && RemoveFirst(ds, id) == ds[..i] + ds[i + 1..] &&
      id !in DashboardIds(ds[..i])
  {
    if id in DashboardIds(ds) {
      var i := FirstIndex(DashboardIds(ds), id);
      assert DashboardIds(ds[..i]) == DashboardIds(ds)[..i];
    }
  }

  /** Saving a dashboard with a new id and deleting it again restores the stored list. */
  lemma DeleteUndoesInsert(ds: seq<Dashboard>, d: Dashboard)
    requires d.id !in DashboardIds(ds)
    ensures RemoveFirst(Upsert(ds, d), d.id) == ds
  {
    var ids := DashboardIds(ds);
    assert DashboardIds(ds + [d]) == ids + [d.id];
    assert FirstIndex(ids + [d.id], d.id) == |ds|;
    assert (ds + [d])[..|ds|] == ds;
  }

  /** `getDefaultWidgetTitle` */
  function DefaultWidgetTitle(widgetType: string): string {
    match ParseType(widgetType)
    case LineChart => "Line Chart"
    case BarChart => "Bar Chart"
    case PieChart => "Pie Chart"
    case Gauge => "Gauge"
    case Card => "Card"
    case Other(_) => "New Widget"
  }

  /** The keys of the shared chart defaults. */
  const BaseChartKeys: set<string> :=
    {"scheme", "animations", "legend", "showXAxisLabel", "showYAxisLabel", "xAxisLabel", "yAxisLabel", "gradient"}

  const DefaultDomain: Value :=
    Arr([Str("#5AA454"), Str("#A10A28"), Str("#C7B42C"), Str("#AAAAAA")])

  function BaseChartConfig(): Config {
    map["scheme" := Obj(map["domain" := DefaultDomain]),
        "animations" := Bool(true),
        "legend" := Bool(true),
        "showXAxisLabel" := Bool(true),
        "showYAxisLabel" := Bool(true),
        "xAxisLabel" := Str("Time"),
        "yAxisLabel" := Str("Value"),
        "gradient" := Bool(false)]
  }

  /** `getDefaultWidgetConfig` */
  function DefaultWidgetConfig(widgetType: string): Config {
    match ParseType(widgetType)
    case LineChart =>
      Spread(BaseChartConfig(), map["curve" := Str("linear"), "autoScale" := Bool(true), "timeline" := Bool(false)])
    case BarChart =>
      Spread(BaseChartConfig(), map["barPadding" := Num(8.0), "groupPadding" := Num(16.0),
                                    "showDataLabel" := Bool(false), "noBarWhenZero" := Bool(true)])
    case PieChart =>
      Spread(BaseChartConfig(), map["doughnut" := Bool(false), "explodeSlices" := Bool(false), "labels" := Bool(true)])
    case Gauge =>
      Spread(BaseChartConfig(), map["min" := Num(0.0), "max" := Num(100.0), "units" := Str("%"),
                                    "angleSpan" := Num(240.0), "startAngle" := Num(-120.0), "showAxis" := Bool(true),
                                    "bigSegments" := Num(10.0), "smallSegments" := Num(5.0)])
    case Card =>
      map["icon" := Str("insert_chart"), "color" := Str("#5AA454"), "textColor" := Str("#ffffff"),
          "decimals" := Num(1.0), "units" := Str("")]
    case Other(_) => map[]
  }

  /** `createWidget(widgetType)` with the uuid supplied as `freshId`. */
  function CreateWidget(widgetType: string, freshId: string): Widget {
    Widget(freshId, ParseType(widgetType), DefaultWidgetTitle(widgetType), 0, 0, 6, 6,
           Some(DataSource(Telemetry, EmptyMapping, [])),
           Some(TimeContextOverride(true, None, None)),
           Some(DefaultWidgetConfig(widgetType)))
  }

  /**
   * A new widget sits at the origin with size 6x6, has an unbound telemetry
   * source and follows the global time; its title and config depend on the type.
   */
  lemma CreateWidgetDefaults(widgetType: string, freshId: string)
    ensures var w := CreateWidget(widgetType, freshId);
      && w.id == freshId && TypeName(w.widgetType) == widgetType
      && w.x == 0 && w.y == 0 && w.cols == 6 && w.rows == 6
      && w.dataSource == Some(DataSource(Telemetry, EmptyMapping, []))
      && w.timeContext == Some(TimeContextOverride(true, None, None))
      && w.config.Some?
      && (ParseType(widgetType).Other? <==> w.title == "New Widget")
      && (ParseType(widgetType).LineChart? ==> w.title == "Line Chart")
      && (ParseType(widgetType).BarChart? ==> w.title == "Bar Chart")
      && (ParseType(widgetType).PieChart? ==> w.title == "Pie Chart")
      && (ParseType(widgetType).Gauge? ==> w.title == "Gauge")
      && (ParseType(widgetType).Card? ==> w.title == "Card")
      && (ParseType(widgetType).Other? ==> w.config == Some(map[]))
  {
  }

  /**
   * Gauges start at 0..100 in percent over a 240-degree arc from -120 degrees;
   * a card has none of the shared chart keys; every chart type has all of them.
   */
  lemma DefaultConfigByType(widgetType: string)
    ensures var c := DefaultWidgetConfig(widgetType);
      && (ParseType(widgetType) == Gauge ==>
            Lookup(c, "min") == Some(Num(0.0)) && Lookup(c, "max") == Some(Num(100.0)) &&
            Lookup(c, "units") == Some(Str("%")) && Lookup(c, "angleSpan") == Some(Num(240.0)) &&
            Lookup(c, "startAngle") == Some(Num(-120.0)))
      && (ParseType(widgetType) == Card ==> c.Keys !! BaseChartKeys && Lookup(c, "icon") == Some(Str("insert_chart")))
      && (ParseType(widgetType) in {LineChart, BarChart, PieChart, Gauge} ==> BaseChartKeys <= c.Keys)
  {
  }
}
