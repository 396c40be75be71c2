/**
 * The modal properties dialog: opened on one widget, it fills the form from
 * the widget, lets the data-source selects cascade through telemetry
 * look-ups, and closes with the folded widget (or with nothing on cancel).
 *
 * The dialog data is the designer's own widget object, so the writes the
 * fold makes through the shared `dataSource` and `timeContext` land in the
 * designer's widget array, whatever the dialog closes with.
 */
module PropertiesDialog {
  import opened Wrappers
  import opened Models
  import opened FormSync
  import opened Lists
  import Telemetry
  import Designer

  /** What a button press does to the dialog: it stays open, or it closes with a result or with none. */
  datatype Outcome = StaysOpen | Closed(result: Option<Widget>)

  /** `widget` is the first of `ws` with its id. */
  predicate OpenedOn(ws: seq<Widget>, widget: Widget) {
    widget.id in WidgetIds(ws) && ws[FirstIndex(WidgetIds(ws), widget.id)] == widget
  }

  class WidgetPropertiesDialog {
    /** The designer that opened the dialog. */
    const shell: Designer.DashboardDesigner
    /** The dialog data: the designer's widget, whose nested source and time context the fold writes through. */
    var widget: Widget
    var form: Form
    var facilities: seq<Telemetry.Entry>
    var systems: seq<Telemetry.Entry>
    var devices: seq<Telemetry.Device>
    var availableMetrics: seq<Telemetry.Metric>
    var pending: seq<Request>
    /** Whether the custom time range group is enabled (it starts enabled). */
    var rangeEnabled: bool
    var activeTabIndex: int

    function Current(): Selection
      reads this
    {
      Selection(form, Choices(facilities, systems, devices, availableMetrics), pending)
    }

    /**
     * `widget` is the designer's widget with its id: in the source the two
     * are one object, here two values kept equal.
     */
    predicate SharesWidget()
      reads this, shell
    {
      OpenedOn(shell.dashboard.widgets, widget)
    }

    /** `openWidgetPropertiesDialog(widget)` opens the dialog on one of the designer's widgets. */
    constructor (shell: Designer.DashboardDesigner, widget: Widget)
      requires OpenedOn(shell.dashboard.widgets, widget)
      ensures this.shell == shell && this.widget == widget && SharesWidget()
      ensures Current() == Selection(DefaultForm(), NoChoices, [])
      ensures rangeEnabled && activeTabIndex == 0
    {
      this.shell := shell;
      this.widget := widget;
      form := DefaultForm();
      facilities, systems, devices, availableMetrics := [], [], [], [];
      pending := [];
      rangeEnabled := true;
      activeTabIndex := 0;
    }

    /** `ngOnInit`: ask for the facilities, then restore the form from the widget. */
    method NgOnInit()
      modifies this`form, this`systems, this`devices, this`availableMetrics, this`pending
      ensures Current() == RestoreAsWritten(old(Current()).(pending := old(pending) + [FacilitiesRequest]), widget)
    {
      LoadFacilities();
      UpdateFormValues();
    }

    method LoadFacilities()
      modifies this`pending
      ensures pending == old(pending) + [FacilitiesRequest]
    {
      pending := pending + [FacilitiesRequest];
    }

    /** `updateFormValues` as written: the cascade handlers run in the middle of the restore. */
    method UpdateFormValues()
      modifies this`form, this`systems, this`devices, this`availableMetrics, this`pending
      ensures Current() == RestoreAsWritten(old(Current()), widget)
    {
      form := PatchBasics(form, widget);
      if widget.dataSource.Some? {
        var ds := widget.dataSource.value;
        form := PatchSource(form, ds);
        var m := ds.entityMapping;
        if Given(m.facility) {
          OnFacilityChange(m.facility.value);
          if Given(m.system) {
            OnSystemChange(m.system.value);
            if Given(m.device) {
              OnDeviceChange(m.device.value);
            }
          }
        }
      }
      form := PatchTimeAndVis(form, widget.timeContext, widget.config, widget.widgetType);
    }

    /** The restore with the intended effect: the same look-ups, and the form holds exactly what the widget holds. */
    method UpdateFormValuesIntended()
      modifies this`form, this`systems, this`devices, this`availableMetrics, this`pending
      ensures Current() == RestoreIntended(old(Current()), widget)
    {
      var restored := RestoredForm(form, widget);
      if widget.dataSource.Some? {
        var m := widget.dataSource.value.entityMapping;
        if Given(m.facility) {
          OnFacilityChange(m.facility.value);
          if Given(m.system) {
            OnSystemChange(m.system.value);
            if Given(m.device) {
              OnDeviceChange(m.device.value);
            }
          }
        }
      }
      form := restored;
    }

    /** A user edit of the form controls. */
    method EditForm(f: Form)
      modifies this`form
      ensures form == f
    {
      form := f;
    }

    method OnFacilityChange(facilityId: string)
      modifies this`form, this`systems, this`devices, this`availableMetrics, this`pending
      ensures Current() == FacilityChanged(old(Current()), facilityId)
    {
      systems, devices, availableMetrics := [], [], [];
      form := form.(dataSource := form.dataSource.(systemId := "", deviceId := "", metrics := []));
      if facilityId != "" {
        pending := pending + [SystemsRequest(facilityId)];
      }
    }

    method OnSystemChange(systemId: string)
      modifies this`form, this`devices, this`availableMetrics, this`pending
      ensures Current() == SystemChanged(old(Current()), systemId)
    {
      devices, availableMetrics := [], [];
      form := form.(dataSource := form.dataSource.(deviceId := "", metrics := []));
      if systemId != "" {
        pending := pending + [DevicesRequest(systemId)];
      }
    }

    method OnDeviceChange(deviceId: string)
      modifies this`form, this`availableMetrics, this`pending
      ensures Current() == DeviceChanged(old(Current()), deviceId)
    {
      availableMetrics := [];
      form := form.(dataSource := form.dataSource.(metrics := []));
      if deviceId != "" {
        pending := pending + [MetricsRequest(deviceId)];
      }
    }

    /** The oldest telemetry look-up in flight completes and fills its list. */
    method Deliver()
      modifies this`facilities, this`systems, this`devices, this`availableMetrics, this`pending
      ensures Current() == FormSync.Deliver(old(Current()))
    {
      if |pending| > 0 {
        match pending[0] {
          case FacilitiesRequest => facilities := Telemetry.Facilities();
          case SystemsRequest(id) => systems := Telemetry.Systems(id);
          case DevicesRequest(id) => devices := Telemetry.Devices(id);
          case MetricsRequest(id) => availableMetrics := Telemetry.Metrics(id);
        }
        pending := pending[1..];
      }
    }

    /** `onUseGlobalTimeChange`: the custom range is enabled exactly when the global time is not used. */
    method OnUseGlobalTimeChange()
      modifies this`rangeEnabled
      ensures rangeEnabled == !form.timeSettings.useGlobalTime
    {
      rangeEnabled := !form.timeSettings.useGlobalTime;
    }

    /**
     * `saveChanges`: an invalid form does nothing; otherwise the fold runs
     * and the dialog closes with its result, unless reading the disabled
     * custom range threw, which leaves it open.
     */
    method SaveChanges() returns (outcome: Outcome)
      requires SharesWidget()
      modifies this`widget, shell`dashboard
      ensures SharesWidget()
      ensures !FormValid(form) ==>
        outcome == StaysOpen && widget == old(widget) && shell.dashboard == old(shell.dashboard)
      ensures FormValid(form) ==>
        var r := Fold(old(widget), form, rangeEnabled);
        && (r.updated.Some? ==> outcome == Closed(r.updated))
        && (r.updated.None? ==> outcome == StaysOpen)
        && widget == r.shared
        && shell.dashboard == old(shell.dashboard).(widgets := Designer.WithWidgetReplaced(old(shell.dashboard.widgets), r.shared))
    {
      if !FormValid(form) {
        return StaysOpen;
      }
      var r := Fold(widget, form, rangeEnabled);
      Designer.WithWidgetReplacedShape(shell.dashboard.widgets, r.shared);
      widget := r.shared;
      // The shared objects are the designer's: its widget sees the same writes.
      shell.dashboard := shell.dashboard.(widgets := Designer.WithWidgetReplaced(shell.dashboard.widgets, r.shared));
      outcome := if r.updated.Some? then Closed(r.updated) else StaysOpen;
    }

    /** `cancel`: the dialog closes with no result. */
    method Cancel() returns (outcome: Outcome)
      ensures outcome == Closed(None)
    {
      outcome := Closed(None);
    }
  }

  /**
   * Saving with the range setting kept in step with the global-time toggle:
   * a valid form always closes the dialog with the folded widget.
   */
  method SaveAfterToggle(d: WidgetPropertiesDialog) returns (outcome: Outcome)
    requires d.SharesWidget()
    modifies d, d.shell`dashboard
    ensures FormValid(d.form) ==> outcome == Closed(Some(ApplyForm(old(d.widget), d.form)))
    ensures !FormValid(d.form) ==> outcome == StaysOpen
  {
    d.OnUseGlobalTimeChange();
    FoldOutcome(d.widget, d.form, d.rangeEnabled);
    outcome := d.SaveChanges();
  }

  /**
   * A save that throws on the disabled custom range keeps the dialog open,
   * yet a cancel afterwards leaves the designer's widget with the fold's
   * writes: the data source from the form, and a time context that no
   * longer follows the global time with the form's refresh interval.
   */
  method SaveThrowsThenCancel(d: WidgetPropertiesDialog) returns (first: Outcome, second: Outcome)
    requires d.SharesWidget() && FormValid(d.form)
    requires !d.rangeEnabled && !d.form.timeSettings.useGlobalTime && d.widget.timeContext.Some?
    modifies d`widget, d.shell`dashboard
    ensures first == StaysOpen && second == Closed(None)
    ensures var ws := old(d.shell.dashboard.widgets);
      var i := FirstIndex(WidgetIds(ws), old(d.widget).id);
      && |d.shell.dashboard.widgets| == |ws|
      && d.shell.dashboard.widgets[i] == old(d.widget).(
           dataSource := if old(d.widget).dataSource.Some? then Some(FoldSource(old(d.widget).dataSource, d.form)) else None,
           timeContext := Some(old(d.widget).timeContext.value.(useGlobalTime := false,
                                                              refreshInterval := Some(d.form.timeSettings.refreshInterval))))
      && forall k :: 0 <= k < |ws| && k != i ==> d.shell.dashboard.widgets[k] == ws[k]
  {
    Designer.WithWidgetReplacedShape(d.shell.dashboard.widgets, Fold(d.widget, d.form, d.rangeEnabled).shared);
    first := d.SaveChanges();
    second := d.Cancel();
    d.shell.DialogClosed(second.result);
  }
}
