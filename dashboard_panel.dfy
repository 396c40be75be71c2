/**
 * The grid panel: it shows the designer's widgets and grid options, turns
 * the grid library's item-change callback into a geometry update, and reports
 * clicks to the designer shell as events.
 */
module DashboardPanel {
  import opened Wrappers
  import opened Models
  import opened Lists
  import opened Designer
  import DashboardStore

  /**
   * What the grid library hands to the item-change callback: an id (possibly
   * absent) and the new geometry. A `GridsterItem` can carry further grid
   * keys (`dragEnabled`, `resizeEnabled`, ...); the spread in `onItemChange`
   * would copy those onto the widget too, and they are not modelled here.
   */
  datatype GridItem = GridItem(id: Option<string>, x: int, y: int, cols: int, rows: int)

  /** The panel's outputs, in the order they are emitted. */
  datatype PanelEvent = SelectWidget(w: Widget) | UpdateWidget(w: Widget) | RemoveWidget(w: Widget) | ClearSelection

  /** `{...widget, ...item}`: the item's geometry over the widget (the ids agree, so the id is kept). */
  function MergeGeometry(w: Widget, item: GridItem): Widget {
    w.(x := item.x, y := item.y, cols := item.cols, rows := item.rows)
  }

  /** The empty dashboard the component starts with (grid options `{}`). */
  function EmptyDashboard(): Dashboard {
    Dashboard("", "", "", [], GridSettings(map[]), None)
  }

  /**
   * The panel's `dashboard` input is bound to the designer's `dashboard`, so
   * the panel keeps a reference to the designer rather than a copy. After
   * `ngOnChanges`, `this.widgets` is the very array the designer pushes to,
   * splices and assigns into: the widgets the panel sees are the designer's
   * current ones, with no further `ngOnChanges`.
   */
  class DashboardPanelComponent {
    const shell: DashboardDesigner
    var selectedWidget: Option<Widget>
    var options: GridOptions
    /** `this.widgets` is the bound dashboard's array (after `ngOnChanges`), not the component's initial `[]`. */
    var sharesWidgets: bool
    var events: seq<PanelEvent>

    /** The contents of `this.widgets`. */
    function Widgets(): seq<Widget>
      reads this, shell
    {
      if sharesWidgets then shell.dashboard.widgets else []
    }

    constructor (shell: DashboardDesigner)
      ensures this.shell == shell && options == GridSettings(map[])
      ensures !sharesWidgets && Widgets() == [] && selectedWidget == None && events == []
    {
      this.shell := shell;
      options := EmptyDashboard().gridOptions;
      sharesWidgets := false;
      selectedWidget := None;
      events := [];
    }

    /**
     * `ngOnChanges`: a change of the `dashboard` input takes the bound
     * dashboard's grid options and makes `widgets` its array.
     */
    method NgOnChanges(changedInputs: set<string>)
      modifies this`options, this`sharesWidgets
      ensures "dashboard" in changedInputs ==>
        options == shell.dashboard.gridOptions && sharesWidgets && Widgets() == shell.dashboard.widgets
      ensures "dashboard" !in changedInputs ==> options == old(options) && sharesWidgets == old(sharesWidgets)
    {
      if "dashboard" in changedInputs {
        options := shell.dashboard.gridOptions;
        sharesWidgets := true;
      }
    }

    /**
     * `onItemChange`: when one of the panel's widgets has the item's id, emit
     * that widget with the item's geometry merged in; otherwise emit nothing.
     */
    method OnItemChange(item: GridItem)
      modifies this`events
      ensures item.id.Some? && item.id.value in WidgetIds(Widgets()) ==>
        events == old(events) + [UpdateWidget(MergeGeometry(Widgets()[FirstIndex(WidgetIds(Widgets()), item.id.value)], item))]
      ensures !(item.id.Some? && item.id.value in WidgetIds(Widgets())) ==> events == old(events)
    {
      var widgets := Widgets();
      if item.id.Some? {
        var index := FirstIndex(WidgetIds(widgets), item.id.value);
        if index != -1 {
          events := events + [UpdateWidget(MergeGeometry(widgets[index], item))];
        }
      }
    }

    method OnWidgetClick(widget: Widget)
      modifies this`events
      ensures events == old(events) + [SelectWidget(widget)]
    {
      events := events + [SelectWidget(widget)];
    }

    method OnRemoveWidget(widget: Widget)
      modifies this`events
      ensures events == old(events) + [RemoveWidget(widget)]
    {
      events := events + [RemoveWidget(widget)];
    }

    /** `onGridClick`: the selection is cleared only for a click on the grid or the panel itself. */
    method OnGridClick(targetClasses: set<string>)
      modifies this`events
      ensures IsBackground(targetClasses) ==> events == old(events) + [ClearSelection]
      ensures !IsBackground(targetClasses) ==> events == old(events)
    {
      if "gridster" in targetClasses || "dashboard-panel" in targetClasses {
        events := events + [ClearSelection];
      }
    }

    /** `getWidgetClass`: the highlight class exactly for the widget whose id is selected. */
    function GetWidgetClass(widget: Widget): (r: string)
      reads this
      ensures r == "selected-widget" <==> selectedWidget.Some? && selectedWidget.value.id == widget.id
      ensures r == "" || r == "selected-widget"
    {
      if selectedWidget.Some? && selectedWidget.value.id == widget.id then "selected-widget" else ""
    }
  }

  /** A click target that clears the selection. */
  predicate IsBackground(targetClasses: set<string>) {
    "gridster" in targetClasses || "dashboard-panel" in targetClasses
  }

  /**
   * A drag or resize round trip through the designer: applying the emitted
   * widget with `updateWidget` changes the geometry of the first widget with
   * the item's id and nothing else, and keeps the ids.
   */
  lemma GeometryUpdateMovesOneWidget(ws: seq<Widget>, item: GridItem)
    requires item.id.Some? && item.id.value in WidgetIds(ws)
    ensures var i := FirstIndex(WidgetIds(ws), item.id.value);
      var after := WithWidgetReplaced(ws, MergeGeometry(ws[i], item));
      && |after| == |ws|
      && WidgetIds(after) == WidgetIds(ws)
      && after[i] == ws[i].(x := item.x, y := item.y, cols := item.cols, rows := item.rows)
      && (forall k :: 0 <= k < |ws| && k != i ==> after[k] == ws[k])
  {
    var i := FirstIndex(WidgetIds(ws), item.id.value);
    WithWidgetReplacedShape(ws, MergeGeometry(ws[i], item));
  }

  /**
   * A dialog result reaches the grid at once: after the designer applies it,
   * dragging that widget emits the saved widget with the new geometry, and
   * the designer then stores exactly that.
   */
  method DragAfterDialog(p: DashboardPanelComponent, result: Widget, item: GridItem)
    requires p.sharesWidgets
    requires result.id in WidgetIds(p.shell.dashboard.widgets) && item.id == Some(result.id)
    modifies p.shell`dashboard, p`events
    ensures p.events == old(p.events) + [UpdateWidget(MergeGeometry(result, item))]
    ensures p.shell.dashboard.widgets == WithWidgetReplaced(old(p.shell.dashboard.widgets), MergeGeometry(result, item))
  {
    var before := p.shell.dashboard.widgets;
    WithWidgetReplacedShape(before, result);
    p.shell.DialogClosed(Some(result));
    var i := FirstIndex(WidgetIds(before), result.id);
    assert p.Widgets()[i] == result;
    p.OnItemChange(item);
    p.shell.UpdateWidget(MergeGeometry(result, item));
    WithWidgetReplacedShape(before[i := result], MergeGeometry(result, item));
    assert WidgetIds(before[i := result]) == WidgetIds(before);
  }

  /** A widget added in the designer is on the grid at once: dragging it emits it with the new geometry. */
  method DragAfterAdd(p: DashboardPanelComponent, widgetType: string, freshId: string, item: GridItem)
    requires p.sharesWidgets && freshId !in WidgetIds(p.shell.dashboard.widgets) && item.id == Some(freshId)
    modifies p.shell`dashboard, p.shell`selectedWidget, p`events
    ensures p.events == old(p.events) + [UpdateWidget(MergeGeometry(DashboardStore.CreateWidget(widgetType, freshId), item))]
  {
    var before := p.shell.dashboard.widgets;
    p.shell.AddWidget(widgetType, freshId);
    assert WidgetIds(p.Widgets()) == WidgetIds(before) + [freshId];
    p.OnItemChange(item);
  }
}
