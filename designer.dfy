/**
 * The designer shell: it owns the dashboard being edited, the selected widget
 * and the palette flag, and edits the widget array by id. Snack-bar messages
 * are not modelled; the properties dialog is opened by `SelectWidget` and its
 * result arrives through `DialogClosed`.
 */
module Designer {
  import opened Wrappers
  import opened Models
  import opened Lists
  import opened DashboardStore

  /** The dashboard the shell is constructed with. */
  function InitialDashboard(): Dashboard {
    Dashboard("", "New Dashboard", "", [], LibraryDefaults, None)
  }

  /** `widgets` after `splice` of the first widget with `id`, if any. */
  function WithoutWidget(ws: seq<Widget>, id: string): seq<Widget> {
    var index := FirstIndex(WidgetIds(ws), id);
    if index != -1 then RemoveAt(ws, index) else ws
  }

  /** `widgets` after `widgets[index] = {...widget}` at the first widget with the same id, if any. */
  function WithWidgetReplaced(ws: seq<Widget>, w: Widget): seq<Widget> {
    var index := FirstIndex(WidgetIds(ws), w.id);
    if index != -1 then ws[index := w] else ws
  }

  /** Removing `id` clears the selection exactly when a widget with that id exists and is the selected one. */
  predicate ClearsSelection(ws: seq<Widget>, selected: Option<Widget>, id: string) {
    id in WidgetIds(ws) && selected.Some? && selected.value.id == id
  }

  class DashboardDesigner {
    var dashboard: Dashboard
    var selectedWidget: Option<Widget>
    var showWidgetPanel: bool
    const service: DashboardService

    constructor (service: DashboardService)
      ensures dashboard == InitialDashboard()
      ensures selectedWidget == None && showWidgetPanel
      ensures this.service == service
    {
      dashboard := InitialDashboard();
      selectedWidget := None;
      showWidgetPanel := true;
      this.service := service;
    }

    /** `loadDashboard(id)`: the current dashboard changes only when the service finds one. */
    method LoadDashboard(id: Option<string>)
      modifies this`dashboard
      ensures service.GetDashboard(id).Some? ==> dashboard == service.GetDashboard(id).value
      ensures service.GetDashboard(id).None? ==> dashboard == old(dashboard)
    {
      var found := service.GetDashboard(id);
      if found.Some? {
        dashboard := found.value;
      }
    }

    /** `saveDashboard()`: the service also writes the fresh id into the shell's dashboard. */
    method SaveDashboard(freshId: string)
      modifies this`dashboard, service
      ensures dashboard == if old(dashboard.id) == "" then old(dashboard).(id := freshId) else old(dashboard)
      ensures service.storage == Holds(Upsert(old(service.GetAllDashboards()), dashboard))
    {
      dashboard := service.SaveDashboard(dashboard, freshId);
    }

    /** `addWidget(type)`: append a new widget and select it (which opens its dialog). */
    method AddWidget(widgetType: string, freshId: string)
      modifies this`dashboard, this`selectedWidget
      ensures dashboard == old(dashboard).(widgets := old(dashboard.widgets) + [CreateWidget(widgetType, freshId)])
      ensures selectedWidget == Some(CreateWidget(widgetType, freshId))
    {
      var widget := CreateWidget(widgetType, freshId);
      dashboard := dashboard.(widgets := dashboard.widgets + [widget]);
      SelectWidget(widget);
    }

    /** `selectWidget(widget)`; opening the dialog is not modelled here. */
    method SelectWidget(widget: Widget)
      modifies this`selectedWidget
      ensures selectedWidget == Some(widget)
    {
      selectedWidget := Some(widget);
    }

    /** `removeWidget(widget)`: splice the first widget with that id; clear the selection if it had that id. */
    method RemoveWidget(widget: Widget)
      modifies this`dashboard, this`selectedWidget
      ensures dashboard == old(dashboard).(widgets := WithoutWidget(old(dashboard.widgets), widget.id))
      ensures ClearsSelection(old(dashboard.widgets), old(selectedWidget), widget.id) ==> selectedWidget == None
      ensures !ClearsSelection(old(dashboard.widgets), old(selectedWidget), widget.id) ==> selectedWidget == old(selectedWidget)
    {
      var index := FirstIndex(WidgetIds(dashboard.widgets), widget.id);
      if index != -1 {
        dashboard := dashboard.(widgets := RemoveAt(dashboard.widgets, index));
        if selectedWidget.Some? && selectedWidget.value.id == widget.id {
          selectedWidget := None;
        }
      }
    }

    /** `updateWidget(widget)`: replace the first widget with that id by a copy; an unknown id is a no-op. */
    method UpdateWidget(widget: Widget)
      modifies this`dashboard
      ensures dashboard == old(dashboard).(widgets := WithWidgetReplaced(old(dashboard.widgets), widget))
    {
      var index := FirstIndex(WidgetIds(dashboard.widgets), widget.id);
      if index != -1 {
        dashboard := dashboard.(widgets := dashboard.widgets[index := widget]);
      }
    }

    method ClearSelection()
      modifies this`selectedWidget
      ensures selectedWidget == None
    {
      selectedWidget := None;
    }

    method ToggleWidgetPanel()
      modifies this`showWidgetPanel
      ensures showWidgetPanel == !old(showWidgetPanel)
    {
      showWidgetPanel := !showWidgetPanel;
    }

    /** The dialog's `afterClosed` callback: a result is applied with `updateWidget`; a cancel changes nothing. */
    method DialogClosed(result: Option<Widget>)
      modifies this`dashboard
      ensures result.Some? ==> dashboard == old(dashboard).(widgets := WithWidgetReplaced(old(dashboard.widgets), result.value))
      ensures result.None? ==> dashboard == old(dashboard)
    {
      if result.Some? {
        UpdateWidget(result.value);
      }
    }
  }

  /** Toggling the palette twice restores the flag. */
  method ToggleTwice(d: DashboardDesigner)
    modifies d
    ensures d.showWidgetPanel == old(d.showWidgetPanel)
    ensures d.dashboard == old(d.dashboard) && d.selectedWidget == old(d.selectedWidget)
  {
    d.ToggleWidgetPanel();
    d.ToggleWidgetPanel();
  }

  /**
   * Removing by id deletes exactly the first widget with that id: the others
   * keep their order, none before it had that id, and an unknown id changes nothing.
   */
  lemma WithoutWidgetShape(ws: seq<Widget>, id: string)
    ensures id !in WidgetIds(ws) ==> WithoutWidget(ws, id) == ws
    ensures id in WidgetIds(ws) ==>
      var i := FirstIndex(WidgetIds(ws), id);
      && WithoutWidget(ws, id) == ws[..i] + ws[i + 1..]
      && ws[i].id == id
      && (forall k :: 0 <= k < i ==> ws[k].id != id)
  {
    if id in WidgetIds(ws) {
      var i := FirstIndex(WidgetIds(ws), id);
      forall k | 0 <= k < i ensures ws[k].id != id {
        assert WidgetIds(ws)[..i][k] == ws[k].id;
      }
    }
  }

  /** Replacing by id keeps the length, puts the widget at the first match, and leaves every other entry alone. */
  lemma WithWidgetReplacedShape(ws: seq<Widget>, w: Widget)
    ensures |WithWidgetReplaced(ws, w)| == |ws|
    ensures WidgetIds(WithWidgetReplaced(ws, w)) == WidgetIds(ws)
    ensures w.id !in WidgetIds(ws) ==> WithWidgetReplaced(ws, w) == ws
    ensures w.id in WidgetIds(ws) ==>
      var i := FirstIndex(WidgetIds(ws), w.id);
      WithWidgetReplaced(ws, w)[i] == w &&
      forall k :: 0 <= k < |ws| && k != i ==> WithWidgetReplaced(ws, w)[k] == ws[k]
  {
  }

  /** The shell's three edits keep the widget ids of a dashboard unique (given a fresh id for a new widget). */
  lemma EditsKeepIdsUnique(ws: seq<Widget>, w: Widget, id: string, widgetType: string, freshId: string)
    requires Unique(WidgetIds(ws))
    ensures Unique(WidgetIds(WithWidgetReplaced(ws, w)))
    ensures Unique(WidgetIds(WithoutWidget(ws, id))) && (id in WidgetIds(ws) ==> id !in WidgetIds(WithoutWidget(ws, id)))
    ensures freshId !in WidgetIds(ws) ==> Unique(WidgetIds(ws + [CreateWidget(widgetType, freshId)]))
  {
    WithWidgetReplacedShape(ws, w);
    var ids := WidgetIds(ws);
    var i := FirstIndex(ids, id);
    if i != -1 {
      RemoveKeepsUnique(ids, i);
      assert WidgetIds(WithoutWidget(ws, id)) == RemoveAt(ids, i);
    }
    if freshId !in ids {
      AppendKeepsUnique(ids, freshId);
      assert WidgetIds(ws + [CreateWidget(widgetType, freshId)]) == ids + [freshId];
    }
  }
}
