# Dashboard designer — a verified model

This project models the core of an Angular dashboard designer for building
telemetry dashboards. A user builds a dashboard from widgets on a grid:
line, bar and pie charts, gauges and cards.

- **Designer shell.** It keeps the dashboard being edited, the selected
  widget and the widget-palette flag. It adds, removes and replaces widgets
  by id.
- **Dashboard service.** It stores all dashboards as one list in a
  local-storage slot and creates new widgets with per-type defaults.
- **Grid panel.** It merges a dragged or resized item's geometry into the
  widget with the same id.
- **Widget form.** Both the modal properties dialog and the side detail panel
  use it. It restores a widget into a form, folds the form back into the
  widget, and cascades facility → system → device → metrics through
  telemetry look-ups.
- **Widget renderers.** They share a base that picks the data source: the
  per-widget test stream when no device and metrics are bound, the telemetry
  service otherwise. The base also picks the time range and moves the
  loading, error and no-data flags.
  - Each renderer reduces the data it receives: the card, gauge, bar, pie and
    line reductions, and the chart colour scheme.
- **Test data service.** It keeps a registry of simulated streams with
  sliding windows and clamps.
- **Telemetry service.** It holds the catalogue tables and generates one series
  per metric.

The presentation, randomness and timing of these components are left out
(see "## Left out").

The model uses these conventions:

- **Values.** Entities are Dafny datatypes with value semantics. A widget's
  free-form `config` is a `map<string, Value>` over a JSON-like `Value`
  type. JavaScript truthiness, `||`, `!== undefined ?` and object spread are
  defined once in `Models` and used everywhere.
  - Where the source's object sharing changes behaviour, it is written out
    explicitly:
    - The shallow `{...widget}` copy shares `dataSource` and `timeContext`
      with the component's widget (`FormSync.Fold`).
    - The grid panel's `widgets` is the designer's own array once
      `ngOnChanges` has run. The panel therefore holds a reference to the
      designer and reads its current widgets, so the designer's `push`,
      `splice` and index assignment reach the panel with no further
      `ngOnChanges` (`DashboardPanel.DashboardPanelComponent.Widgets`).
    - The properties dialog's data is the designer's own widget object. The
      dialog holds a reference to the designer, and the fold's writes
      through the shared `dataSource` and `timeContext` land in the
      designer's widget array, even when the dialog then stays open or is
      cancelled (`PropertiesDialog.SaveThrowsThenCancel`).
- **Stateful components.** Components whose fields change are classes with
  `modifies` clauses. Each such method is proved against a function of the
  old state (`Current() == FacilityChanged(old(Current()), id)`), and the
  properties are proved about those functions.
- **Renderers.** Renderers are composed with a `WidgetBase` rather than
  inheriting from it. `Init` runs `initWidget`. Each subscription callback is
  an explicit step:
  - `ReceiveTelemetry`: the oldest telemetry answer arrives.
  - `ReceiveStreamValue`: the test stream emits.
  - `WidgetBase.LoadFailed`: the error callback.
- **Asynchronous answers.**
  - Telemetry answers are computed when they are requested. They wait in a
    first-in first-out queue, because every simulated delay of a kind is
    equal.
  - The test stream is a `BehaviorSubject`: its current value is delivered
    during subscription.
- **Randomness and time.** `Math.random`, the trigonometric functions, the
  clock, `new Date(text)` and the telemetry value patterns are parameters:
  - `rand(k)` is the k-th draw of one call;
  - `sine`;
  - `nowMs`;
  - `parse`, which gives `None` for an Invalid Date such as `new Date('')`;
  - `sample(metricId, i)`.

  The properties proved about generated values are their shapes and clamps.
- **Exceptions.** A renderer transform that throws is an `Option` result. The
  `handleData` of a bar or pie chart reports it as `ok == false`, and
  `loading` then stays set, as it does in the source.

## Model

| member | source | states |
|---|---|---|
| Models.ParseType | src/app/models/widget-item.model.ts:12-18 | a type string parses to a kind whose spelling is that string; exactly the five known spellings give a known kind |
| Models.Max0 | src/app/services/telemetry.service.ts:166 | `Math.max(0, v)` is non-negative, at least `v`, and equal to `v` or 0 |
| Lists.FirstIndex | src/app/services/dashboard.service.ts:125 | `findIndex` is -1 exactly when the id is absent, otherwise an index holding it with no earlier occurrence |
| Lists.RemoveAt | src/app/services/dashboard.service.ts:141 | `splice(i, 1)` shortens by one, keeps the prefix and shifts the suffix down |
| Lists.RemoveKeepsUnique | src/app/dashboard-designer/dashboard-designer.component.ts:85 | removing an entry from unique ids keeps them unique and the removed id is gone |
| Lists.AppendKeepsUnique | src/app/dashboard-designer/dashboard-designer.component.ts:78 | appending an absent id keeps the ids unique |
| DashboardStore.FindDashboard | src/app/services/dashboard.service.ts:105-118 | with no id (or an empty one) it gives the last dashboard or none; with an id it finds something exactly when the id is stored, and then the first dashboard with that id |
| DashboardStore.DashboardService.constructor | src/app/services/dashboard.service.ts:20 | the service starts on the given storage slot |
| DashboardStore.DashboardService.SaveDashboard | src/app/services/dashboard.service.ts:120-135 | an empty id is replaced by the fresh id, any other id is kept; the slot then holds the upsert of the saved dashboard into the previously read list |
| DashboardStore.DashboardService.DeleteDashboard | src/app/services/dashboard.service.ts:137-145 | a stored id is removed at its first occurrence and the slot rewritten; an unknown id leaves the slot untouched |
| DashboardStore.ReadSlot | src/app/services/dashboard.service.ts:92-103 | a missing or unparseable slot reads as the empty list; a stored list reads as itself |
| DashboardStore.UpsertShape | src/app/services/dashboard.service.ts:126-131 | a present id is overwritten at its first index with the length and every other entry unchanged; a new id is appended, growing the list by one |
| DashboardStore.UpsertIdempotent | src/app/services/dashboard.service.ts:120-135 | saving the same dashboard twice stores the same list as saving once |
| DashboardStore.GetAfterSave | src/app/services/dashboard.service.ts:105-135 | after a save, looking up its id finds exactly the saved dashboard; the no-id look-up finds it exactly when it became or replaced the last entry |
| DashboardStore.UpsertKeepsUnique | src/app/services/dashboard.service.ts:126-131 | saving keeps the stored ids unique |
| DashboardStore.RemoveFirstShape | src/app/services/dashboard.service.ts:137-145 | deleting removes only the first match, keeps the order of the rest and shrinks by one; an unknown id removes nothing |
| DashboardStore.DeleteUndoesInsert | src/app/services/dashboard.service.ts:120-145 | saving a dashboard with a new id and deleting it restores the stored list |
| DashboardStore.CreateWidgetDefaults | src/app/services/dashboard.service.ts:147-185 | a new widget has the fresh id, the given type, geometry 0,0,6,6, an unbound telemetry source and the global time; the title is 'Line Chart', 'Bar Chart', 'Pie Chart', 'Gauge' or 'Card' for the five known types and 'New Widget' exactly for an unknown type, whose config is empty |
| DashboardStore.DefaultConfigByType | src/app/services/dashboard.service.ts:187-245 | a gauge starts at 0..100 '%' over 240 degrees from -120; a card has none of the shared chart keys; every chart type has all of them |
| Designer.DashboardDesigner.constructor | src/app/dashboard-designer/dashboard-designer.component.ts:37-54 | the shell starts with the empty 'New Dashboard', no selection and the palette shown |
| Designer.DashboardDesigner.LoadDashboard | src/app/dashboard-designer/dashboard-designer.component.ts:56-69 | the dashboard changes only when the service finds one, and then to that one |
| Designer.DashboardDesigner.SaveDashboard | src/app/dashboard-designer/dashboard-designer.component.ts:71-74 | the shell's dashboard gets the fresh id if it had none and the storage holds the upsert of it |
| Designer.DashboardDesigner.AddWidget | src/app/dashboard-designer/dashboard-designer.component.ts:76-80 | exactly one new widget is appended and becomes the selection |
| Designer.DashboardDesigner.SelectWidget | src/app/dashboard-designer/dashboard-designer.component.ts:92-95 | the widget becomes the selection |
| Designer.DashboardDesigner.RemoveWidget | src/app/dashboard-designer/dashboard-designer.component.ts:82-90 | the first widget with the id is spliced out; the selection is cleared exactly when a widget with that id existed and was selected |
| Designer.DashboardDesigner.UpdateWidget | src/app/dashboard-designer/dashboard-designer.component.ts:97-102 | the first widget with the id is replaced; an unknown id changes nothing |
| Designer.DashboardDesigner.ClearSelection | src/app/dashboard-designer/dashboard-designer.component.ts:104-106 | the selection is empty |
| Designer.DashboardDesigner.ToggleWidgetPanel | src/app/dashboard-designer/dashboard-designer.component.ts:108-110 | the palette flag flips |
| Designer.DashboardDesigner.DialogClosed | src/app/dashboard-designer/dashboard-designer.component.ts:120-124 | a dialog result is applied by id; a cancelled dialog changes nothing |
| Designer.ToggleTwice | src/app/dashboard-designer/dashboard-designer.component.ts:108-110 | toggling twice restores the flag and changes nothing else |
| Designer.WithoutWidgetShape | src/app/dashboard-designer/dashboard-designer.component.ts:82-90 | removal deletes exactly the first widget with the id, none before it has that id, the rest keep their order; an unknown id changes nothing |
| Designer.WithWidgetReplacedShape | src/app/dashboard-designer/dashboard-designer.component.ts:97-102 | replacement keeps the length and the ids, puts the widget at the first match and leaves every other entry alone |
| Designer.EditsKeepIdsUnique | src/app/dashboard-designer/dashboard-designer.component.ts:76-102 | replace, remove and add with a fresh id keep the widget ids unique |
| DashboardPanel.DashboardPanelComponent.constructor | src/app/dashboard-designer/dashboard-panel/dashboard-panel.component.ts:41-55 | the panel starts bound to the designer, with empty grid options, its own empty widget list and nothing emitted |
| DashboardPanel.DashboardPanelComponent.NgOnChanges | src/app/dashboard-designer/dashboard-panel/dashboard-panel.component.ts:57-62 | only a change of the dashboard input takes the bound dashboard's grid options and makes the panel's widgets the designer's own array, so they are the designer's current widgets from then on |
| DashboardPanel.DashboardPanelComponent.OnItemChange | src/app/dashboard-designer/dashboard-panel/dashboard-panel.component.ts:64-71 | a matched item emits the designer's current widget with that id, with the item's geometry merged in; an unmatched or id-less item emits nothing |
| DashboardPanel.DashboardPanelComponent.OnWidgetClick | src/app/dashboard-designer/dashboard-panel/dashboard-panel.component.ts:73-79 | a widget click emits a selection of that widget |
| DashboardPanel.DashboardPanelComponent.OnRemoveWidget | src/app/dashboard-designer/dashboard-panel/dashboard-panel.component.ts:81-84 | the remove button emits a removal of that widget |
| DashboardPanel.DashboardPanelComponent.OnGridClick | src/app/dashboard-designer/dashboard-panel/dashboard-panel.component.ts:86-92 | a click clears the selection exactly when its target has class 'gridster' or 'dashboard-panel' |
| DashboardPanel.DashboardPanelComponent.GetWidgetClass | src/app/dashboard-designer/dashboard-panel/dashboard-panel.component.ts:94-96 | the class is 'selected-widget' exactly for the selected id, '' otherwise |
| DashboardPanel.GeometryUpdateMovesOneWidget | src/app/dashboard-designer/dashboard-panel/dashboard-panel.component.ts:64-71 | applying the emitted widget through `updateWidget` changes the geometry of the matched widget and nothing else |
| DashboardPanel.DragAfterDialog | src/app/dashboard-designer/dashboard-panel/dashboard-panel.component.ts:60-71 | after the designer applies a dialog result, dragging that widget emits the saved widget with the new geometry, and the designer stores exactly that |
| DashboardPanel.DragAfterAdd | src/app/dashboard-designer/dashboard-panel/dashboard-panel.component.ts:60-71 | a widget the designer has just added is on the grid at once: dragging it emits it with the new geometry |
| FormSync.ApplyFormShape | src/app/dashboard-designer/widget-properties-dialog/widget-properties-dialog.component.ts:277-325 | the fold keeps id and type, takes title and geometry from the form, rebuilds the mapping from exactly the three ids, keeps or creates a telemetry source, and carries a time range exactly when the global time is off |
| FormSync.BaseTypeDisjoint | src/app/dashboard-designer/widget-properties-dialog/widget-properties-dialog.component.ts:329-382 | no type-specific key shares a name with one of the eleven common keys |
| FormSync.ApplyFormConfig | src/app/dashboard-designer/widget-properties-dialog/widget-properties-dialog.component.ts:329-382 | the written config holds the form's common and type settings, keeps every other earlier key, and has only the common keys added for a card |
| FormSync.ApplyFormIdempotent | src/app/dashboard-designer/widget-properties-dialog/widget-properties-dialog.component.ts:273-386 | folding the same form twice gives the widget that folding once gives |
| FormSync.WrittenLookup | src/app/dashboard-designer/widget-properties-dialog/widget-properties-dialog.component.ts:329-342 | a common key reads back as the form wrote it |
| FormSync.UnwrittenLookup | src/app/dashboard-designer/widget-properties-dialog/widget-properties-dialog.component.ts:329-330 | a key the fold does not write reads as the earlier config had it |
| FormSync.TypedLookup | src/app/dashboard-designer/widget-properties-dialog/widget-properties-dialog.component.ts:345-382 | a type key reads back as the form wrote it |
| FormSync.RestoreReadsBaseVis | src/app/dashboard-designer/widget-properties-dialog/widget-properties-dialog.component.ts:219-233 | restoring a folded config gives back the eleven common settings of the form |
| FormSync.PatchBaseFromWritten | src/app/dashboard-designer/widget-properties-dialog/widget-properties-dialog.component.ts:221-233 | a config holding a stable form's common settings restores exactly them |
| FormSync.TypeVisKeepsBase | src/app/dashboard-designer/widget-properties-dialog/widget-properties-dialog.component.ts:236-269 | the per-type restore leaves the common settings alone |
| FormSync.RestoreReadsTypeVis | src/app/dashboard-designer/widget-properties-dialog/widget-properties-dialog.component.ts:236-269 | restoring a folded config gives back the form's settings for the widget's type |
| FormSync.RestoreRoundTrip | src/app/dashboard-designer/widget-properties-dialog/widget-properties-dialog.component.ts:158-386 | restoring a widget the form produced (with every patch applied and nothing cleared) and folding it again gives the same widget |
| FormSync.RestoreAsWrittenClears | src/app/dashboard-designer/widget-properties-dialog/widget-properties-dialog.component.ts:175-197 | the restore as written issues the intended look-ups but, for a widget with a facility, ends with system, device and metrics empty |
| FormSync.LoadForShape | src/app/dashboard-designer/widget-properties-dialog/widget-properties-dialog.component.ts:187-197 | a restore's look-ups: one request per given level, the lists and form fields below the facility cleared, nothing without a facility |
| FormSync.RestoreIntendedShape | src/app/dashboard-designer/widget-properties-dialog/widget-properties-dialog.component.ts:158-271 | the corrected restore holds the fully restored form and issues the same look-ups |
| FormSync.DialogRestoreLosesSelection | src/app/dashboard-designer/widget-properties-dialog/widget-properties-dialog.component.ts:187-197 | a saved line chart bound to system-1 comes back from an unedited restore-and-save with system '' and no metrics |
| FormSync.RestoreThenDeliver | src/app/dashboard-designer/widget-properties-dialog/widget-properties-dialog.component.ts:399-436 | once a restore's look-ups complete, the selects offer that facility's systems, that system's devices and that device's metrics |
| FormSync.StaleSystemsResponse | src/app/dashboard-designer/widget-properties-dialog/widget-properties-dialog.component.ts:399-412 | a look-up outlives its selection: choosing and then clearing a facility still ends with that facility's two systems offered |
| FormSync.FoldOutcome | src/app/dashboard-designer/detail-panel/detail-panel.component.ts:340-392 | the fold hands on the folded copy unless the disabled range is read; the component's own widget receives the copy's source and time context through the shared objects |
| FormSync.IntendedRestoreRoundTrip | src/app/dashboard-designer/widget-properties-dialog/widget-properties-dialog.component.ts:158-386 | with the corrected restore, opening a widget the form produced and saving without an edit gives back the same widget |
| PropertiesDialog.WidgetPropertiesDialog.constructor | src/app/dashboard-designer/widget-properties-dialog/widget-properties-dialog.component.ts:75-156 | the dialog opens on one of the designer's widgets and starts with the default form, empty lists, nothing in flight and the range enabled |
| PropertiesDialog.WidgetPropertiesDialog.NgOnInit | src/app/dashboard-designer/widget-properties-dialog/widget-properties-dialog.component.ts:84-87 | the facilities are requested, then the restore as written runs |
| PropertiesDialog.WidgetPropertiesDialog.LoadFacilities | src/app/dashboard-designer/widget-properties-dialog/widget-properties-dialog.component.ts:393-397 | one facilities look-up joins the queue |
| PropertiesDialog.WidgetPropertiesDialog.UpdateFormValues | src/app/dashboard-designer/widget-properties-dialog/widget-properties-dialog.component.ts:158-271 | the state is the restore as written of the dialog's widget |
| PropertiesDialog.WidgetPropertiesDialog.UpdateFormValuesIntended | src/app/dashboard-designer/widget-properties-dialog/widget-properties-dialog.component.ts:158-271 | the state is the corrected restore of the dialog's widget |
| PropertiesDialog.WidgetPropertiesDialog.EditForm | src/app/dashboard-designer/widget-properties-dialog/widget-properties-dialog.component.ts:89-156 | a user edit sets the form value |
| PropertiesDialog.WidgetPropertiesDialog.OnFacilityChange | src/app/dashboard-designer/widget-properties-dialog/widget-properties-dialog.component.ts:399-412 | system, device, metrics and their lists are cleared; a given facility's systems are requested |
| PropertiesDialog.WidgetPropertiesDialog.OnSystemChange | src/app/dashboard-designer/widget-properties-dialog/widget-properties-dialog.component.ts:414-425 | device, metrics and their lists are cleared; a given system's devices are requested |
| PropertiesDialog.WidgetPropertiesDialog.OnDeviceChange | src/app/dashboard-designer/widget-properties-dialog/widget-properties-dialog.component.ts:427-436 | the metrics and their list are cleared; a given device's metrics are requested |
| PropertiesDialog.WidgetPropertiesDialog.Deliver | src/app/dashboard-designer/widget-properties-dialog/widget-properties-dialog.component.ts:394-396 | the oldest look-up fills its list with the catalogue's answer |
| PropertiesDialog.WidgetPropertiesDialog.OnUseGlobalTimeChange | src/app/dashboard-designer/widget-properties-dialog/widget-properties-dialog.component.ts:439-446 | the custom range is enabled exactly when the global time is off |
| PropertiesDialog.WidgetPropertiesDialog.SaveChanges | src/app/dashboard-designer/widget-properties-dialog/widget-properties-dialog.component.ts:273-386 | an invalid form keeps the dialog open and changes nothing; a valid one writes through the shared objects into both the dialog's and the designer's widget, and closes with the folded widget, or stays open when reading the disabled range threw |
| PropertiesDialog.SaveThrowsThenCancel | src/app/dashboard-designer/widget-properties-dialog/widget-properties-dialog.component.ts:273-325 | a save that throws on the disabled range keeps the dialog open, and after a cancel the designer's widget still carries the form's data source and a time context off the global time with the form's refresh interval; every other widget is unchanged |
| PropertiesDialog.WidgetPropertiesDialog.Cancel | src/app/dashboard-designer/widget-properties-dialog/widget-properties-dialog.component.ts:388-390 | the dialog closes, with no result |
| PropertiesDialog.SaveAfterToggle | src/app/dashboard-designer/widget-properties-dialog/widget-properties-dialog.component.ts:273-386 | with the range kept in step with the toggle, a valid form always closes with the folded widget and an invalid one keeps the dialog open |
| DetailPanel.DetailPanelComponent.constructor | src/app/dashboard-designer/detail-panel/detail-panel.component.ts:78-84 | the panel starts with the default form, no widget and the facilities requested |
| DetailPanel.DetailPanelComponent.NgOnChanges | src/app/dashboard-designer/detail-panel/detail-panel.component.ts:86-92 | a widget input resets the form, then runs the restore as written on it and returns to the first tab; no widget changes nothing else |
| DetailPanel.DetailPanelComponent.ResetForm | src/app/dashboard-designer/detail-panel/detail-panel.component.ts:163-223 | the form is back at its initial value |
| DetailPanel.DetailPanelComponent.UpdateFormValues | src/app/dashboard-designer/detail-panel/detail-panel.component.ts:225-338 | without a widget nothing happens; with one the state is the panel's restore as written, including its emits |
| DetailPanel.DetailPanelComponent.UpdateFormValuesIntended | src/app/dashboard-designer/detail-panel/detail-panel.component.ts:225-338 | the corrected restore: the same look-ups, no emits, and the restored form |
| DetailPanel.DetailPanelComponent.EditForm | src/app/dashboard-designer/detail-panel/detail-panel.component.ts:94-161 | a user edit sets the form value |
| DetailPanel.DetailPanelComponent.OnFormChanges | src/app/dashboard-designer/detail-panel/detail-panel.component.ts:340-453 | without a widget nothing is emitted; otherwise the fold runs with no validity check and its copy is emitted unless it threw |
| DetailPanel.DetailPanelComponent.OnFacilityChange | src/app/dashboard-designer/detail-panel/detail-panel.component.ts:462-477 | the dialog's facility cascade step, then an emit |
| DetailPanel.DetailPanelComponent.OnSystemChange | src/app/dashboard-designer/detail-panel/detail-panel.component.ts:479-492 | the dialog's system cascade step, then an emit |
| DetailPanel.DetailPanelComponent.OnDeviceChange | src/app/dashboard-designer/detail-panel/detail-panel.component.ts:494-505 | the dialog's device cascade step, then an emit |
| DetailPanel.DetailPanelComponent.OnUseGlobalTimeChange | src/app/dashboard-designer/detail-panel/detail-panel.component.ts:508-517 | the range is enabled exactly when the global time is off, then an emit |
| DetailPanel.DetailPanelComponent.Deliver | src/app/dashboard-designer/detail-panel/detail-panel.component.ts:456-460 | the oldest look-up fills its list |
| DetailPanel.EmitWhenInStep | src/app/dashboard-designer/detail-panel/detail-panel.component.ts:340-453 | with the range in step with the toggle every emit is the fold of the current form, and the panel's widget carries its source and time context |
| DetailPanel.PanelRestoreLosesCustomRange | src/app/dashboard-designer/detail-panel/detail-panel.component.ts:254-283 | restoring a widget with a facility and its own range emits once mid-restore; the emitted widget, the panel's widget and the restored form all follow the global time with the custom range and refresh interval gone |
| Telemetry.Facilities | src/app/services/telemetry.service.ts:55-61 | three facilities |
| Telemetry.PointCount | src/app/services/telemetry.service.ts:129-130 | the point count lies in [10, 100] and is the number of five-minute steps when that is in range, else the nearer bound |
| Telemetry.PointsFor | src/app/services/telemetry.service.ts:123-135 | a request has no points per metric exactly when one of its ends is an Invalid Date (a NaN point count), else the clamped point count |
| Telemetry.GetTelemetryData | src/app/services/telemetry.service.ts:122-180 | one series per requested metric, in order, named by the metric, with exactly the point count of non-negative points, and no points when an end is an Invalid Date |
| Telemetry.MetricNames | src/app/services/telemetry.service.ts:182-193 | the six known ids have display names; every other id is its own name |
| Telemetry.CatalogueCascade | src/app/services/telemetry.service.ts:64-105 | an unknown facility has no systems, an unknown system no devices, and each listed system has a device |
| Telemetry.MetricsIndependentOfDevice | src/app/services/telemetry.service.ts:108-119 | every device offers the same six metrics, whose names agree with the display names |
| TestData.LineConfigs | src/app/services/test-data.service.ts:118-126 | three simulated series |
| TestData.ConfigFor | src/app/services/test-data.service.ts:150-165 | an update uses the series' own wave by name, else the default 50/10/0.2/5 wave |
| TestData.GenerateMultiSeriesData | src/app/services/test-data.service.ts:118-145 | the loops produce exactly the three-series history the specification function describes |
| TestData.GenerateCardData | src/app/services/test-data.service.ts:269-287 | the loop produces exactly the one-series card history |
| TestData.GenerateInitialData | src/app/services/test-data.service.ts:53-81 | the first data array by widget type, an unknown type getting line data |
| TestData.Clamp100 | src/app/services/test-data.service.ts:261 | the clamp lies in [0, 100] and is the identity there |
| TestData.UpdateTestData | src/app/services/test-data.service.ts:86-113 | the next data array is the type's update, with card data regenerated by the loop |
| TestData.WellFormedIsUpdatable | src/app/services/test-data.service.ts:86-113 | data of its type's shape meets what the type's update needs |
| TestData.InitialWellFormed | src/app/services/test-data.service.ts:53-81 | a new stream has its type's shape: line 3 × 30 points, bar and pie 5 named items, gauge one 'Value' in [0, 100], card 1 × 10 points, all non-negative |
| TestData.SlidePreservesShape | src/app/services/test-data.service.ts:185-193 | a sliding update keeps a series' name and length and its values non-negative |
| TestData.NudgeKeepsShape | src/app/services/test-data.service.ts:213-241 | bar and pie updates keep the names and order and the values non-negative |
| TestData.UpdateKeepsWellFormed | src/app/services/test-data.service.ts:86-313 | every tick keeps the type's shape |
| TestData.GaugeConverges | src/app/services/test-data.service.ts:255-264 | with a central draw the gauge closes a tenth of its distance to 75 |
| TestData.GaugeStepBound | src/app/services/test-data.service.ts:255-264 | a gauge tick moves the value by at most a tenth of its distance to 75 plus 2.5 |
| TestData.AfterRequest | src/app/services/test-data.service.ts:29-48 | asking for a stream adds one exactly for an unseen id, with its type's initial data, and leaves every existing stream as it was |
| TestData.TestDataService.constructor | src/app/services/test-data.service.ts:19-22 | the registry starts empty |
| TestData.TestDataService.GetTestDataStream | src/app/services/test-data.service.ts:29-48 | the registry becomes the request's registry and the stream's current data is returned |
| TestData.TestDataService.Tick | src/app/services/test-data.service.ts:40-44 | one timer tick replaces a stream's data by the update for the type it was created with |
| TestData.TestDataService.StopTestData | src/app/services/test-data.service.ts:318-322 | the id leaves the registry; an unknown id changes nothing |
| WidgetBase.ChartSide | src/app/widgets/widget-base/widget-base.component.ts:90-91 | a chart side is at least 1 and the whole part of a measured side of at least 1 |
| WidgetBase.WidgetBase.constructor | src/app/widgets/widget-base/widget-base.component.ts:20-32 | a base starts idle with no error and nothing in flight |
| WidgetBase.WidgetBase.LoadData | src/app/widgets/widget-base/widget-base.component.ts:98-153 | the flags restart; the test stream is used exactly when no device or no metric is bound, and its current data comes back at once; otherwise one telemetry answer for the widget's range joins the queue, with no points per metric when an end of that range is an Invalid Date |
| WidgetBase.WidgetBase.TakeResponse | src/app/widgets/widget-base/widget-base.component.ts:139-146 | the oldest answer leaves the queue and is handed on unless the widget was destroyed |
| WidgetBase.WidgetBase.DataArrived | src/app/widgets/widget-base/widget-base.component.ts:115-119 | after a delivery loading is off, and no-data holds exactly for an empty telemetry answer |
| WidgetBase.WidgetBase.LoadFailed | src/app/widgets/widget-base/widget-base.component.ts:120-124 | a failure sets the source's error text and clears loading |
| WidgetBase.WidgetBase.UpdateChartDimensions | src/app/widgets/widget-base/widget-base.component.ts:84-96 | no container changes nothing; a container sets both sides to their floors, at least 1 |
| WidgetBase.WidgetBase.NgOnDestroy | src/app/widgets/widget-base/widget-base.component.ts:46-59 | a widget on the test stream stops exactly its own stream; every subscription ends |
| WidgetBase.NewWidgetsUseTestStream | src/app/widgets/widget-base/widget-base.component.ts:105-111 | a widget fresh from the factory shows the test stream over the last day |
| WidgetBase.SavedWidgetSource | src/app/widgets/widget-base/widget-base.component.ts:105-111 | a saved widget reads telemetry exactly when the form chose a device and at least one metric |
| WidgetBase.SavedWidgetRange | src/app/widgets/widget-base/widget-base.component.ts:159-174 | a saved widget asks for the form's range exactly when it does not follow the global time, and for the last day otherwise |
| WidgetBase.DefaultRangeFullSeries | src/app/widgets/widget-base/widget-base.component.ts:159-174 | over the default day every metric comes back with the maximum of 100 points |
| WidgetBase.UnsetCustomRangeNoPoints | src/app/widgets/widget-base/widget-base.component.ts:159-174 | a widget saved with the global time off and the form's empty custom range asks for Invalid Date ends, and every chosen metric comes back named and without points |
| ChartWidget.SchemeFrom | src/app/widgets/chart-widget/chart-widget.component.ts:45-51 | a string names a scheme, an object with a domain is used as it is, anything else keeps the current scheme |
| ChartWidget.LatestPerSeries | src/app/widgets/chart-widget/bar-chart-widget/bar-chart-widget.component.ts:72-89 | with a first series every item becomes its name and latest value, same length and order, and it throws exactly when a later item has no point; otherwise the data passes unchanged |
| ChartWidget.ChartWidget.constructor | src/app/widgets/chart-widget/chart-widget.component.ts:19-30 | no data and the default scheme |
| ChartWidget.ChartWidget.UpdateColorScheme | src/app/widgets/chart-widget/chart-widget.component.ts:43-55 | the scheme becomes the config's scheme choice, or the default when none is truthy |
| ChartWidget.ChartWidget.ShowData | src/app/widgets/chart-widget/chart-widget.component.ts:38-41 | the data is stored as it arrives |
| ChartWidget.ChartSchemeIdempotent | src/app/widgets/chart-widget/chart-widget.component.ts:43-55 | applying the same config twice leaves the scheme where once put it |
| ChartWidget.SavedWidgetScheme | src/app/widgets/chart-widget/chart-widget.component.ts:43-55 | a saved widget shows the form's scheme when it is truthy, else the default |
| ChartWidget.SavingKeepsLegendPosition | src/app/widgets/chart-widget/chart-widget.component.ts:62-64 | the form never writes a legend position, so saving keeps it |
| ChartWidget.TelemetryTransforms | src/app/widgets/chart-widget/bar-chart-widget/bar-chart-widget.component.ts:72-89 | over a valid range a telemetry answer never throws in the transform and gives one latest value per metric, named by the metric; over a range with an Invalid Date end every series is empty and the answer is shown as it is |
| ChartWidget.ScalarStreamsPassThrough | src/app/widgets/chart-widget/pie-chart-widget/pie-chart-widget.component.ts:63-79 | the bar and pie test streams are scalar already and pass through unchanged |
| LineChart.SeriesPalette | src/app/widgets/chart-widget/line-chart-widget/line-chart-widget.component.ts:119-125 | eight colours |
| LineChart.SeriesColor | src/app/widgets/chart-widget/line-chart-widget/line-chart-widget.component.ts:119-125 | every index gets a palette colour, the first eight in order |
| LineChart.LatestValue | src/app/widgets/chart-widget/line-chart-widget/line-chart-widget.component.ts:127-130 | 0 without points, else the last point's value |
| LineChart.TrendArrowMeaning | src/app/widgets/chart-widget/line-chart-widget/line-chart-widget.component.ts:132-140 | the template arrow points up exactly for a positive relative change to the previous value and down exactly for a negative one (after a negative previous value, up means the value fell), and is flat otherwise, including fewer than two points and a zero previous value |
| LineChart.SeriesColorsCycle | src/app/widgets/chart-widget/line-chart-widget/line-chart-widget.component.ts:119-125 | colours repeat every eight series and eight consecutive series never share one |
| LineChart.WrittenLineOptions | src/app/widgets/chart-widget/line-chart-widget/line-chart-widget.component.ts:98-116 | (on an abstract earlier config) the options read from a folded line config |
| LineChart.SavedLineOptions | src/app/widgets/chart-widget/line-chart-widget/line-chart-widget.component.ts:98-116 | a saved line widget shows the form's curve, animation, axis-label, scale and grid settings; axes and timeline stay as its config had them |
| LineChart.LineChartWidget.constructor | src/app/widgets/chart-widget/line-chart-widget/line-chart-widget.component.ts:70-82 | the default line options |
| LineChart.LineChartWidget.UpdateChartOptions | src/app/widgets/chart-widget/line-chart-widget/line-chart-widget.component.ts:98-116 | no config keeps the options; otherwise each option comes from the config with its fallback |
| LineChart.LineChartWidget.Init | src/app/widgets/chart-widget/line-chart-widget/line-chart-widget.component.ts:93-96 | scheme and options from the config, then the load, with a test stream's first value shown at once |
| LineChart.LineChartWidget.ReceiveTelemetry | src/app/widgets/widget-base/widget-base.component.ts:142-146 | the oldest answer is shown as it is and the flags follow it |
| LineChart.LineChartWidget.ReceiveStreamValue | src/app/widgets/widget-base/widget-base.component.ts:115-119 | the stream's value is shown as it is and loading ends |
| BarChart.MaxOf | src/app/widgets/chart-widget/bar-chart-widget/bar-chart-widget.component.ts:114 | the largest value: an upper bound of every value and attained |
| BarChart.MaxValue | src/app/widgets/chart-widget/bar-chart-widget/bar-chart-widget.component.ts:112-115 | 100 for no data, a missing value or a largest value of 0; otherwise the largest value |
| BarChart.TestStreamScale | src/app/widgets/chart-widget/bar-chart-widget/bar-chart-widget.component.ts:112-115 | on its test stream a bar widget's scale is positive and fits every bar |
| BarChart.WrittenBarOptions | src/app/widgets/chart-widget/bar-chart-widget/bar-chart-widget.component.ts:91-109 | (on an abstract earlier config) the options read from a folded bar config |
| BarChart.SavedBarOptions | src/app/widgets/chart-widget/bar-chart-widget/bar-chart-widget.component.ts:51-109 | a saved bar widget shows the form's settings except the group padding, which stays the renderer's own |
| BarChart.BarChartWidget.constructor | src/app/widgets/chart-widget/bar-chart-widget/bar-chart-widget.component.ts:43-56 | the default bar options |
| BarChart.BarChartWidget.HandleData | src/app/widgets/chart-widget/bar-chart-widget/bar-chart-widget.component.ts:72-89 | the transformed data is shown; when the transform throws nothing changes |
| BarChart.BarChartWidget.UpdateChartOptions | src/app/widgets/chart-widget/bar-chart-widget/bar-chart-widget.component.ts:91-109 | no config keeps the options; otherwise each read option comes from the config with its fallback |
| BarChart.BarChartWidget.Init | src/app/widgets/chart-widget/bar-chart-widget/bar-chart-widget.component.ts:67-70 | scheme and options, then the load; loading ends at once only for a test stream whose first value transforms |
| BarChart.BarChartWidget.ReceiveTelemetry | src/app/widgets/widget-base/widget-base.component.ts:142-146 | the oldest answer is transformed and shown; the flags follow it only when the transform did not throw |
| BarChart.BarChartWidget.ReceiveStreamValue | src/app/widgets/widget-base/widget-base.component.ts:115-119 | the stream's value is transformed and shown; loading ends only when it did not throw |
| PieChart.SavedPieOptions | src/app/widgets/chart-widget/pie-chart-widget/pie-chart-widget.component.ts:81-91 | a saved pie widget shows exactly the form's animation, label, doughnut, explode and gradient settings |
| PieChart.PieChartWidget.constructor | src/app/widgets/chart-widget/pie-chart-widget/pie-chart-widget.component.ts:43-47 | the default pie options |
| PieChart.PieChartWidget.HandleData | src/app/widgets/chart-widget/pie-chart-widget/pie-chart-widget.component.ts:63-79 | the transformed data is shown; when the transform throws nothing changes |
| PieChart.PieChartWidget.UpdateChartOptions | src/app/widgets/chart-widget/pie-chart-widget/pie-chart-widget.component.ts:81-91 | no config keeps the options; otherwise each option comes from the config with its fallback |
| PieChart.PieChartWidget.Init | src/app/widgets/chart-widget/pie-chart-widget/pie-chart-widget.component.ts:58-61 | scheme and options, then the load; loading ends at once only for a test stream whose first value transforms |
| PieChart.PieChartWidget.ReceiveTelemetry | src/app/widgets/widget-base/widget-base.component.ts:142-146 | the oldest answer is transformed and shown; the flags follow it only when the transform did not throw |
| PieChart.PieChartWidget.ReceiveStreamValue | src/app/widgets/widget-base/widget-base.component.ts:115-119 | the stream's value is transformed and shown; loading ends only when it did not throw |
| GaugeWidget.GaugeScheme | src/app/widgets/gauge-widget/gauge-widget.component.ts:119-125 | a gauge without a truthy scheme keeps the scheme it has |
| GaugeWidget.GaugeValueAfter | src/app/widgets/gauge-widget/gauge-widget.component.ts:83-101 | only the first item counts: its latest point, else its scalar, else the value stays; no data shows 0; the value is not clamped |
| GaugeWidget.FillAngleBounds | src/app/widgets/gauge-widget/gauge-widget.component.ts:39 | a value within a non-empty range turns the fill within half the span either way, and the ends of the range reach the two edges |
| GaugeWidget.TestStreamValue | src/app/widgets/gauge-widget/gauge-widget.component.ts:83-101 | on its test stream a gauge shows the stream's value, within [0, 100] |
| GaugeWidget.WrittenGaugeOptions | src/app/widgets/gauge-widget/gauge-widget.component.ts:103-126 | (on an abstract earlier config) the options read from a folded gauge config |
| GaugeWidget.SavedGaugeOptions | src/app/widgets/gauge-widget/gauge-widget.component.ts:103-126 | a saved gauge shows the form's range, units, angles, animation and truthy scheme; axis and segments stay as its config had them |
| GaugeWidget.GaugeWidget.constructor | src/app/widgets/gauge-widget/gauge-widget.component.ts:55-75 | value 0, the default gauge options and the default scheme |
| GaugeWidget.GaugeWidget.HandleData | src/app/widgets/gauge-widget/gauge-widget.component.ts:83-101 | the value becomes the reduction of the data |
| GaugeWidget.GaugeWidget.UpdateGaugeOptions | src/app/widgets/gauge-widget/gauge-widget.component.ts:103-126 | no config keeps options and scheme; otherwise each option comes from the config with its fallback |
| GaugeWidget.GaugeWidget.Init | src/app/widgets/gauge-widget/gauge-widget.component.ts:77-81 | options, then the load, with a test stream's first value shown at once |
| GaugeWidget.GaugeWidget.ReceiveTelemetry | src/app/widgets/widget-base/widget-base.component.ts:142-146 | the oldest answer sets the value and the flags follow it |
| GaugeWidget.GaugeWidget.ReceiveStreamValue | src/app/widgets/widget-base/widget-base.component.ts:115-119 | the stream's value sets the value and loading ends |
| CardWidget.LastTen | src/app/widgets/card-widget/card-widget.component.ts:87 | `slice(-10)` is the last min(10, n) elements in their order |
| CardWidget.ReadingAfter | src/app/widgets/card-widget/card-widget.component.ts:52-98 | no data resets to 0, 0, stable, []; a first item without points changes nothing; otherwise the value is the latest point, a single point keeps the trend, and with two or more the trend times the previous value is 100 times the change (0 after a zero), the direction is up exactly above 0.5 and down exactly below -0.5, and the history is the last min(10, n) values ending in the value |
| CardWidget.DirectionMeaning | src/app/widgets/card-widget/card-widget.component.ts:66-126 | after a positive previous value the card trends up exactly when the latest exceeds it by more than half a percent and down exactly when it falls short by that much; icon and class follow the direction |
| CardWidget.TestStreamReading | src/app/widgets/card-widget/card-widget.component.ts:52-98 | on its test stream the card's history is the whole ten-point series and its value the latest point |
| CardWidget.NewCardOptions | src/app/widgets/card-widget/card-widget.component.ts:100-110 | a card fresh from the factory shows units '', icon 'insert_chart', background '#5AA454', text '#ffffff' and one decimal |
| CardWidget.SavedCardOptions | src/app/widgets/card-widget/card-widget.component.ts:100-110 | the form writes none of a card's own settings, so saving keeps its look as its config had it |
| CardWidget.CardWidget.constructor | src/app/widgets/card-widget/card-widget.component.ts:25-35 | value 0, trend 0, stable, no history and the default card options |
| CardWidget.CardWidget.HandleData | src/app/widgets/card-widget/card-widget.component.ts:52-98 | the reading becomes the card reduction of the data from the old reading |
| CardWidget.CardWidget.UpdateCardOptions | src/app/widgets/card-widget/card-widget.component.ts:100-110 | no config keeps the options; otherwise each comes from the config with its fallback, the background from `color` |
| CardWidget.CardWidget.Init | src/app/widgets/card-widget/card-widget.component.ts:46-50 | options, then the load, with a test stream's first value shown at once |
| CardWidget.CardWidget.ReceiveTelemetry | src/app/widgets/widget-base/widget-base.component.ts:142-146 | the oldest answer updates the reading and the flags follow it |
| CardWidget.CardWidget.ReceiveStreamValue | src/app/widgets/widget-base/widget-base.component.ts:115-119 | the stream's value updates the reading and loading ends |

## Left out

- The grid library's default options (`getDefaultGridsterOptions`) are static configuration for an external library. The model keeps them as one opaque value.
- `localStorage` and JSON: the slot holds the parsed list or says it is missing or unparseable. `uuidv4` is the `freshId` parameter.
- Random and trigonometric values, the clock and `new Date(text)` are parameters. `parse` stands for `new Date(text).getTime()` with `None` for an Invalid Date; the lemmas that need it assume only `parse("") == None`, which is what JavaScript gives for the forms' empty range ends. Which other texts JavaScript's date parser accepts is not modelled. The actual numeric value formulas of generated points are carried through but only their shapes, clamps and the gauge drift are proved. The fractional telemetry timestamp spacing is carried as a real; its rounding to a Date is not modelled.
- The `timer` of a test stream keeps running after `stopTestData` on the no-longer-registered subject; the model forgets the stream at once.
- A reload subscribes again without unsubscribing the earlier subscription; the model has one subscription per base.
- The RxJS error callbacks cannot be reached through the mock services, which always answer; they are modelled as the explicit `WidgetBase.LoadFailed` step.
- Network delays are modelled only as answer order (first in, first out).
- Angular forms: a disabled control's value and validators are modelled only to the extent the fold reads them (`rangeEnabled` and `FormValid`); the form's rendering, the tab index beyond its reset, and the selects' option rendering are left out.
- Snack-bar messages, the dialog's opening and size, `stopPropagation`, `ResizeObserver` and change detection are user-interface effects with no state the model needs. The measured container is an input of `UpdateChartDimensions`.
- `formatValue` (`toFixed`) and the templates' number pipes are floating-point formatting.
- NaN is not a `Value`: a missing bar value makes `getMaxValue` NaN in the source, which the model states as the fallback of 100 that NaN comparisons lead to in `|| 100`.
- The widget palette, the application module files and the chart library wrappers are wiring with no logic.
- DashboardPanel.DashboardPanelComponent.NgOnChanges: between `loadDashboard` replacing the designer's dashboard and the change detection that runs `ngOnChanges`, the source's panel still holds the old array; the model reads the new one at once, because it has no array identity beyond "the designer's current array".
- DashboardPanel.MergeGeometry: the spread `{...widget, ...item}` also copies any non-geometry keys of the grid item (such as `dragEnabled`) onto the widget; only the id and the four geometry numbers are modelled.
- A changed widget object is a new renderer: the base's `widget` is a constant, because the renderers never react to a changed input.

## Findings

| source | as written | input that shows it | evidently intended | confidence | as-written member | corrected member |
|---|---|---|---|---|---|---|
| src/app/dashboard-designer/widget-properties-dialog/widget-properties-dialog.component.ts:187-197 | restoring a widget first patches facility, system, device and metrics into the form, then calls the cascade handlers, which clear system, device and metrics again (lines 399-436) | a line chart saved with facility-1, system-1, device-1 and metric flow, opened again and saved without an edit, comes back with system '' and no metrics | the restore issues the look-ups but keeps the widget's selection, so an unedited save returns the same widget | not executed | FormSync.DialogRestoreLosesSelection | FormSync.IntendedRestoreRoundTrip |
| src/app/dashboard-designer/detail-panel/detail-panel.component.ts:254-283 | the panel's restore calls its emitting cascade handlers before the time settings are patched; the emit folds the just-reset form, and through the shallow copy's shared `timeContext` it overwrites the panel's own widget (lines 340-392), so the later patch reads the global time | a line chart with facility-1 and its own range 0..3600000 ms with refresh 30000, selected in the panel: the emitted widget and the restored form follow the global time with refresh 0 | restoring fills the form from the widget with no emits and leaves the widget as it was | not executed | DetailPanel.PanelRestoreLosesCustomRange | DetailPanel.DetailPanelComponent.UpdateFormValuesIntended |
