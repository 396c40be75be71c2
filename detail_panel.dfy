/**
 * The side detail panel: the same form as the properties dialog, bound to an
 * input widget, emitting an updated widget on every handler instead of
 * closing. Its restore runs the emitting cascade handlers in the middle, and
 * the shallow copy it emits shares `dataSource` and `timeContext` with the
 * input widget.
 */
module DetailPanel {
  import opened Wrappers
  import opened Models
  import opened FormSync
  import Telemetry

  /** The panel's observable state: the cascade part, the input widget, and the widgets emitted so far. */
  datatype Panel = Panel(sel: Selection, widget: Option<Widget>, emitted: seq<Widget>)

  /** `onFormChanges`: with a widget, run the fold and emit the copy unless it threw. */
  function EmitChanges(p: Panel, rangeEnabled: bool): Panel {
    if p.widget.None? then p
    else
      var r := Fold(p.widget.value, p.sel.form, rangeEnabled);
      p.(widget := Some(r.shared), emitted := p.emitted + if r.updated.Some? then [r.updated.value] else [])
  }

  function PanelFacilityChanged(p: Panel, facilityId: string, rangeEnabled: bool): Panel {
    EmitChanges(p.(sel := FacilityChanged(p.sel, facilityId)), rangeEnabled)
  }

  function PanelSystemChanged(p: Panel, systemId: string, rangeEnabled: bool): Panel {
    EmitChanges(p.(sel := SystemChanged(p.sel, systemId)), rangeEnabled)
  }

  function PanelDeviceChanged(p: Panel, deviceId: string, rangeEnabled: bool): Panel {
    EmitChanges(p.(sel := DeviceChanged(p.sel, deviceId)), rangeEnabled)
  }

  /**
   * `updateFormValues` of the panel as written, for the widget `w` it holds.
   * The mapping is read once, before the handlers run; the time context and
   * config are read from the panel's widget afterwards, when the emits may
   * have written through the shared objects.
   */
  function PanelRestore(p: Panel, w: Widget, rangeEnabled: bool): Panel {
    var f1 := PatchBasics(p.sel.form, w);
    var p2 :=
      if w.dataSource.Some? then
        var m := w.dataSource.value.entityMapping;
        var p1 := p.(sel := p.sel.(form := PatchSource(f1, w.dataSource.value)));
        if Given(m.facility) then
          var a := PanelFacilityChanged(p1, m.facility.value, rangeEnabled);
          if Given(m.system) then
            var b := PanelSystemChanged(a, m.system.value, rangeEnabled);
            if Given(m.device) then PanelDeviceChanged(b, m.device.value, rangeEnabled) else b
          else a
        else p1
      else p.(sel := p.sel.(form := f1));
    var current := p2.widget.GetOr(w);
    p2.(sel := p2.sel.(form := PatchTimeAndVis(p2.sel.form, current.timeContext, current.config, current.widgetType)))
  }

  class DetailPanelComponent {
    var widget: Option<Widget>
    var form: Form
    var facilities: seq<Telemetry.Entry>
    var systems: seq<Telemetry.Entry>
    var devices: seq<Telemetry.Device>
    var availableMetrics: seq<Telemetry.Metric>
    var pending: seq<Request>
    /** The `updateWidget` output, oldest first. */
    var emitted: seq<Widget>
    var rangeEnabled: bool
    var activeTabIndex: int

    function Current(): Panel
      reads this
    {
      Panel(Selection(form, Choices(facilities, systems, devices, availableMetrics), pending), widget, emitted)
    }

    /** The constructor builds the form and asks for the facilities. */
    constructor ()
      ensures Current() == Panel(Selection(DefaultForm(), NoChoices, [FacilitiesRequest]), None, [])
      ensures rangeEnabled && activeTabIndex == 0
    {
      widget := None;
      form := DefaultForm();
      facilities, systems, devices, availableMetrics := [], [], [], [];
      pending := [FacilitiesRequest];
      emitted := [];
      rangeEnabled := true;
      activeTabIndex := 0;
    }

    /** A new `widget` input: with a widget, reset the form, restore it, and go back to the first tab. */
    method NgOnChanges(input: Option<Widget>)
      modifies this
      ensures rangeEnabled == old(rangeEnabled)
      ensures input.None? ==> Current() == old(Current()).(widget := None) && activeTabIndex == old(activeTabIndex)
      ensures input.Some? ==>
        && Current() == PanelRestore(old(Current()).(sel := old(Current()).sel.(form := DefaultForm()), widget := input), input.value, rangeEnabled)
        && activeTabIndex == 0
    {
      widget := input;
      if input.Some? {
        ResetForm();
        UpdateFormValues();
        activeTabIndex := 0;
      }
    }

    /** `resetForm`: every control back to its initial value; the enabled state is kept. */
    method ResetForm()
      modifies this`form
      ensures form == DefaultForm()
    {
      form := DefaultForm();
    }

    /** `updateFormValues` as written; nothing happens without a widget. */
    method UpdateFormValues()
      modifies this`form, this`systems, this`devices, this`availableMetrics, this`pending, this`emitted, this`widget
      ensures old(widget).None? ==> Current() == old(Current())
      ensures old(widget).Some? ==> Current() == PanelRestore(old(Current()), old(widget).value, rangeEnabled)
    {
      if widget.None? {
        return;
      }
      var w := widget.value;
      form := PatchBasics(form, w);
      if w.dataSource.Some? {
        var ds := w.dataSource.value;
        form := PatchSource(form, ds);
        var m := ds.entityMapping;
        if Given(m.facility) {
          OnFacilityChange(m.facility.value);
          if Given(m.system) {
            OnSystemChange(m.system.value);
            if Given(m.device) {
              OnDeviceChange(m.device.value);
            }
          }
        }
      }
      var current := widget.GetOr(w);
      form := PatchTimeAndVis(form, current.timeContext, current.config, current.widgetType);
    }

    /** The restore with the intended effect: the same look-ups, no emits, and the form holds what the widget holds. */
    method UpdateFormValuesIntended()
      modifies this`form, this`systems, this`devices, this`availableMetrics, this`pending
      ensures widget.None? ==> Current() == old(Current())
      ensures widget.Some? ==> Current() == old(Current()).(sel := RestoreIntended(old(Current()).sel, widget.value))
    {
      if widget.None? {
        return;
      }
      var w := widget.value;
      var restored := RestoredForm(form, w);
      if w.dataSource.Some? {
        var m := w.dataSource.value.entityMapping;
        if Given(m.facility) {
          systems, devices, availableMetrics := [], [], [];
          pending := pending + [SystemsRequest(m.facility.value)];
          if Given(m.system) {
            pending := pending + [DevicesRequest(m.system.value)];
            if Given(m.device) {
              pending := pending + [MetricsRequest(m.device.value)];
            }
          }
        }
      }
      form := restored;
    }

    /** A user edit of the form controls (the panel has no value-change subscription). */
    method EditForm(f: Form)
      modifies this`form
      ensures form == f
    {
      form := f;
    }

    /** `onFormChanges` */
    method OnFormChanges()
      modifies this`widget, this`emitted
      ensures Current() == EmitChanges(old(Current()), rangeEnabled)
    {
      if widget.None? {
        return;
      }
      var r := Fold(widget.value, form, rangeEnabled);
      widget := Some(r.shared);
      if r.updated.Some? {
        emitted := emitted + [r.updated.value];
      }
    }

    method OnFacilityChange(facilityId: string)
      modifies this`form, this`systems, this`devices, this`availableMetrics, this`pending, this`emitted, this`widget
      ensures Current() == PanelFacilityChanged(old(Current()), facilityId, rangeEnabled)
    {
      systems, devices, availableMetrics := [], [], [];
      form := form.(dataSource := form.dataSource.(systemId := "", deviceId := "", metrics := []));
      if facilityId != "" {
        pending := pending + [SystemsRequest(facilityId)];
      }
      OnFormChanges();
    }

    method OnSystemChange(systemId: string)
      modifies this`form, this`devices, this`availableMetrics, this`pending, this`emitted, this`widget
      ensures Current() == PanelSystemChanged(old(Current()), systemId, rangeEnabled)
    {
      devices, availableMetrics := [], [];
      form := form.(dataSource := form.dataSource.(deviceId := "", metrics := []));
      if systemId != "" {
        pending := pending + [DevicesRequest(systemId)];
      }
      OnFormChanges();
    }

    method OnDeviceChange(deviceId: string)
      modifies this`form, this`availableMetrics, this`pending, this`emitted, this`widget
      ensures Current() == PanelDeviceChanged(old(Current()), deviceId, rangeEnabled)
    {
      availableMetrics := [];
      form := form.(dataSource := form.dataSource.(metrics := []));
      if deviceId != "" {
        pending := pending + [MetricsRequest(deviceId)];
      }
      OnFormChanges();
    }

    /** `onUseGlobalTimeChange`: enable the custom range exactly when the global time is off, then emit. */
    method OnUseGlobalTimeChange()
      modifies this`rangeEnabled, this`widget, this`emitted
      ensures rangeEnabled == !form.timeSettings.useGlobalTime
      ensures Current() == EmitChanges(old(Current()), rangeEnabled)
    {
      rangeEnabled := !form.timeSettings.useGlobalTime;
      OnFormChanges();
    }

    /** The oldest telemetry look-up in flight completes and fills its list. */
    method Deliver()
      modifies this`facilities, this`systems, this`devices, this`availableMetrics, this`pending
      ensures Current() == old(Current()).(sel := FormSync.Deliver(old(Current()).sel))
    {
      if |pending| > 0 {
        match pending[0] {
          case FacilitiesRequest => facilities := Telemetry.Facilities();
          case SystemsRequest(id) => systems := Telemetry.Systems(id);
          case DevicesRequest(id) => devices := Telemetry.Devices(id);
          case MetricsRequest(id) => availableMetrics := Telemetry.Metrics(id);
        }
        pending := pending[1..];
      }
    }
  }

  /**
   * With the range setting kept in step with the toggle, every emit is the
   * fold of the current form, and the panel's own widget carries its source
   * and time context wherever it had them.
   */
  lemma EmitWhenInStep(p: Panel, rangeEnabled: bool)
    requires p.widget.Some? && rangeEnabled == !p.sel.form.timeSettings.useGlobalTime
    ensures var q := EmitChanges(p, rangeEnabled);
      var u := ApplyForm(p.widget.value, p.sel.form);
      && q.emitted == p.emitted + [u]
      && q.sel == p.sel
      && q.widget.Some?
      && (p.widget.value.dataSource.Some? ==> q.widget.value.dataSource == u.dataSource)
      && (p.widget.value.timeContext.Some? ==> q.widget.value.timeContext == u.timeContext)
  {
    FoldOutcome(p.widget.value, p.sel.form, rangeEnabled);
  }

  /**
   * Restoring a widget that names a facility and has its own time range:
   * the mid-restore emit folds the just-reset time settings into the shared
   * time context, so the emitted widget and the restored form both follow the
   * global time and the custom range is gone.
   */
  lemma PanelRestoreLosesCustomRange()
    ensures var f := DefaultForm().(
          title := "Line Chart",
          dataSource := SourceFields("facility-1", "", "", []),
          timeSettings := TimeFields(false, RangeFields(At(0), At(3600000), Some("")), 30000));
      var w := ApplyForm(Models.Widget("w1", LineChart, "Line Chart", 0, 0, 6, 6, None, None, None), f);
      var p := PanelRestore(Panel(Selection(DefaultForm(), NoChoices, []), Some(w), []), w, true);
      && w.timeContext.value.timeRange.Some?
      && |p.emitted| == 1
      && p.emitted[0].timeContext.value.useGlobalTime
      && p.emitted[0].timeContext.value.timeRange.None?
      && p.sel.form.timeSettings.useGlobalTime
      && p.sel.form.timeSettings.refreshInterval == 0
      && p.widget.value.timeContext.value.timeRange.None?
  {
    var f := DefaultForm().(
          title := "Line Chart",
          dataSource := SourceFields("facility-1", "", "", []),
          timeSettings := TimeFields(false, RangeFields(At(0), At(3600000), Some("")), 30000));
    var w := ApplyForm(Models.Widget("w1", LineChart, "Line Chart", 0, 0, 6, 6, None, None, None), f);
    var p0 := Panel(Selection(DefaultForm(), NoChoices, []), Some(w), []);
    var p1 := p0.(sel := p0.sel.(form := PatchSource(PatchBasics(p0.sel.form, w), w.dataSource.value)));
    var a := PanelFacilityChanged(p1, "facility-1", true);
    assert a.sel.form.timeSettings.useGlobalTime;
    FoldOutcome(w, a.sel.form, true);
  }
}
