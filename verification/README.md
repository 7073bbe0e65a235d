# factoryscope dashboard layout engine in Dafny

This project models the layout engine behind the draggable dashboards of the
factoryscope React Native app. It has six parts:

- **Slot/hover/swap engine.**
  - The drag-and-drop provider keeps a slot map, the measured slot frames and a drag token. It hit-tests the finger against the frames and swaps widgets between the origin slot and the hovered slot.
  - The module-level frame registry.
  - The pan-responder card that drives the provider.
  - The drop zone's rect-change test.
  - The swap search of the draggable tag boxes.
- **Chart docking.** Both dashboard screens keep a list of floating charts and two chart slots. Charts are attached, undocked, removed and edited by id. The second screen also seeds and filters four last-value slots.
- **Grid snapping.** The grid screen snaps a dropped chart to multiples of the 12-point step and highlights the cells a chart covers. The grid canvas computes a padded, clipped highlight region.
- **Widget geometry.** The two resizable chart cards clamp their width and height, drag their position inside the window and resize by pinch from the grant-time base. They also trim and sanitise series, place at most three tick labels, normalise series to 0..100 and pad the y-domain.
- **Form list state.** The two settings modals and the tag selection screen toggle tags, filter options and validate before saving.
- **Saved templates.** The dedupe-and-prepend store under a list key plus one key per snapshot, and the older single-key list.

Each source file with mutable state becomes a `class`: React state, refs and module maps become fields. Each handler becomes a method that states the new state. The list and arithmetic logic becomes functions, and lemmas state the properties that link them: round trips, conservation, bounds, idempotence and order.

Numbers are Dafny `real`, which is exact, so `Math.round(x)` is `floor(x + 1/2)`. Non-finite values are the `NonFinite` case of `Numbers.Num`. The iteration order of a JavaScript object is kept as an explicit key sequence beside the map. `AsyncStorage` is the class `Storage.Store` over a map from keys to already-parsed values.

Where the screens and their documentation disagree, the model follows the code. The documented behaviour of attaching a chart to an occupied slot is that the occupant goes back to the floating list. The code overwrites the occupant instead (app/Template1Screen.tsx:160-165). `ChartDock.AttachToOccupiedLosesOccupant` states the code's behaviour.

## Model

| member | source | states |
|---|---|---|
| Geometry.EdgesAreInside | components/dragdrop/DragDropContext.tsx:86-87 | all four corners of a rect are inside (edges inclusive); a point one unit beyond any edge is not |
| Geometry.FirstHitIndex | components/dragdrop/slotRegistry.ts:15-22 | the scan index is the first key whose frame contains the point, and every key before it misses |
| Geometry.FirstHitIndexIs | components/dragdrop/slotRegistry.ts:16-19 | a scan that saw only misses and stopped at a hit (or at the end) has found the first hit |
| Geometry.FirstHitSound | components/dragdrop/slotRegistry.ts:16-19 | a hit is a registered key whose rect contains the point, and no earlier key hits |
| Geometry.FirstHitNone | components/dragdrop/slotRegistry.ts:21 | the result is null exactly when no registered rect contains the point |
| Geometry.FirstHitNeverUnregistered | components/dragdrop/slotRegistry.ts:11-13 | a key without a frame is never returned |
| DragDrop.SlotsFrom | components/dragdrop/DragDropContext.tsx:67-71 | every initial slot id is a key, and every entry is one of the initial slots under its own id |
| DragDrop.SlotsFromLastWins | components/dragdrop/DragDropContext.tsx:69 | when ids repeat, the last slot with the id is the one kept |
| DragDrop.MergeMeta | components/dragdrop/DragDropContext.tsx:147-159 | supplied fields replace, missing fields keep the existing meta (or are absent) |
| DragDrop.SwapUpdate | components/dragdrop/DragDropContext.tsx:114-134 | no hover, hover equal to the origin, a rejecting accept list, or a missing slot all leave the map unchanged; a commit puts the dragged widget in the target and the target's old widget (possibly none) in the origin; other slots, ids and accept lists are unchanged |
| DragDrop.SwapConservesWidgets | components/dragdrop/DragDropContext.tsx:128-133 | a committed swap exchanges the two slots' widgets; none appears or vanishes |
| DragDrop.SwapBackRestores | components/dragdrop/DragDropContext.tsx:128-133 | dragging the widget straight back restores the slot map |
| DragDrop.Provider.constructor | components/dragdrop/DragDropContext.tsx:67-78 | slots are `SlotsFrom(initialSlots)`; no meta, no drag, no hover |
| DragDrop.Provider.BeginDrag | components/dragdrop/DragDropContext.tsx:90-93 | the token is stored and scrolling locked; nothing else changes |
| DragDrop.Provider.UpdateHover | components/dragdrop/DragDropContext.tsx:95-107 | the hover is the first slot in meta order whose frame contains the point; it is null exactly when no frame does; accept lists are not consulted |
| DragDrop.Provider.FinishDrag | components/dragdrop/DragDropContext.tsx:109-138 | without a token nothing changes; otherwise the slots go through `SwapUpdate`, and token and hover are cleared |
| DragDrop.Provider.CancelDrag | components/dragdrop/DragDropContext.tsx:140-144 | token and hover cleared, scrolling unlocked, slots untouched |
| DragDrop.Provider.SetSlotFrame | components/dragdrop/DragDropContext.tsx:147-152 | only this slot's frame changes; its accept list is kept |
| DragDrop.Provider.UpsertSlotMeta | components/dragdrop/DragDropContext.tsx:154-159 | only this slot's meta changes, merged field by field; new ids join the iteration order at the end |
| SlotRegistry.Registry.constructor | components/dragdrop/slotRegistry.ts:5 | the registry starts empty |
| SlotRegistry.Registry.RegisterSlotFrame | components/dragdrop/slotRegistry.ts:7-9 | the frame for `id` is `rect`, other ids keep theirs, and the insertion order is kept |
| SlotRegistry.Registry.UnregisterSlotFrame | components/dragdrop/slotRegistry.ts:11-13 | `id` is gone, and no later query can return it |
| SlotRegistry.Registry.GetSlotAtPoint | components/dragdrop/slotRegistry.ts:15-22 | the earliest-inserted id whose rect contains the point (edges included), or null exactly when no rect does |
| DraggableCard.ClaimNeedsTravel | components/dragdrop/DraggableCard.tsx:24-31 | a move of at most 3 points on each axis never claims the gesture; more than 6 on one axis always does |
| DraggableCard.Card.constructor | components/dragdrop/DraggableCard.tsx:9-15 | the card holds its widget, its widget type, its slot and the provider |
| DraggableCard.Card.Token | components/dragdrop/DraggableCard.tsx:35 | the token is `{widgetId: widget.id, from: fromSlotId, type: widget.type}` |
| DraggableCard.Card.Grant | components/dragdrop/DraggableCard.tsx:33-37 | the provider is given the card's token |
| DraggableCard.Card.Move | components/dragdrop/DraggableCard.tsx:39-42 | the provider's hover is recomputed at the screen point |
| DraggableCard.Card.Release | components/dragdrop/DraggableCard.tsx:44-47 | the provider finishes the drag |
| DraggableCard.Card.Terminate | components/dragdrop/DraggableCard.tsx:48-51 | the provider cancels the drag, so the slots are unchanged |
| DraggableCard.Card.Drag | components/dragdrop/DraggableCard.tsx:33-51 | grant, then moves, then release or terminate: a released drag swaps with the last hover; an interrupted one leaves the slots as they were |
| DropZone.RectChanged | components/dragdrop/DropZone.tsx:9-17 | true when either rect is missing; otherwise true exactly when one of x, y, width or height differs by more than 0.5 |
| DropZone.JitterIsNoChange | components/dragdrop/DropZone.tsx:11-16 | a rect is unchanged against itself, and against one within 0.5 on every field |
| DropZone.RectChangedSymmetric | components/dragdrop/DropZone.tsx:9-17 | the test is symmetric in its arguments |
| DropZone.Descriptor | components/dragdrop/DropZone.tsx:35-37 | the slot descriptor has the zone's id and accept list, and holds `lastValue:<id>` |
| DropZone.Zone.constructor | components/dragdrop/DropZone.tsx:39-40 | nothing measured and no hover yet |
| DropZone.Zone.Measure | components/dragdrop/DropZone.tsx:45-53 | the last rect is updated and a registration issued only when the measurement changed |
| DropZone.Zone.HoverEffect | components/dragdrop/DropZone.tsx:67-74 | the callback fires only when the hovered-or-not value changes, and receives the new value |
| DropZone.Zone.MeasureTwice | components/dragdrop/DropZone.tsx:45-53 | the same measurement twice registers at most once |
| TagBox.Board.constructor | components/DraggableTagBox.tsx:16 | the shared rect map starts empty |
| TagBox.DropTargetIsAnotherBox | components/DraggableTagBox.tsx:40-52 | the drop target is never the dragged box; it is a box on the board whose rect contains the point |
| TagBox.Box.constructor | components/DraggableTagBox.tsx:19-22 | translation zero, not dragging |
| TagBox.Box.OnStart | components/DraggableTagBox.tsx:25-29 | the start offset is the current translation |
| TagBox.Box.OnActive | components/DraggableTagBox.tsx:30-33 | the translation is the start offset plus the event translation, not accumulated per move |
| TagBox.Box.OnEnd | components/DraggableTagBox.tsx:34-57 | at most one swap, with the first other box in key order whose rect contains the drop point, or none; the box springs back |
| TagBox.Box.OnLayout | components/DraggableTagBox.tsx:71-74 | only this box's rect is overwritten |
| ChartDock.Docked.Set | app/Template1Screen.tsx:162 | `{...p, [zone]: c}`: the zone gets `c`, the other slot is unchanged |
| ChartDock.ZoneAt | app/Template1Screen.tsx:115-121 | slot 1 whenever its rect contains the point, even if slot 2 does too; slot 2 only otherwise; else null |
| ChartDock.FindChart | app/Template1Screen.tsx:161 | a chart with the id that sits at some position k with no chart before k carrying the id (the first match), or none exactly when no chart has it |
| ChartDock.WithoutChart | app/Template1Screen.tsx:163 | every kept chart has another id and comes from the list, every chart with another id is kept, and exactly the charts with the id are dropped (count) |
| ChartDock.WithoutChartAppend | app/Template1Screen.tsx:163 | filtering a concatenation filters each part, and one chart is kept exactly when its id differs: the kept charts keep their order and multiplicity |
| ChartDock.WithoutAbsentChart | app/Template1Screen.tsx:163 | filtering out an id no chart has changes nothing |
| ChartDock.Attach | app/Template1Screen.tsx:160-165 | an unknown id is a no-op; otherwise the zone gets the chart's config, every chart with the id leaves the list, and the other slot is unchanged |
| ChartDock.Remove | app/Template1Screen.tsx:166 | the zone is emptied and the other slot kept |
| ChartDock.Undock | app/Template1Screen.tsx:180-184 | an empty slot is a no-op; otherwise its config is appended at the spawn point and the slot emptied |
| ChartDock.UndockKeepsCount | app/Template1Screen.tsx:180-184 | undocking keeps docked plus floating constant |
| ChartDock.AttachToEmptyKeepsCount | app/Template1Screen.tsx:160-165 | attaching a uniquely named chart to an empty slot keeps the count |
| ChartDock.AttachToOccupiedLosesOccupant | app/Template1Screen.tsx:162 | attaching to an occupied slot loses the occupant: one chart fewer, and the old one is neither docked there nor floating |
| ChartDock.UndockThenAttachRestores | app/Template1Screen.tsx:160-184 | undocking and dropping back on the same slot restores slots and floating list |
| ChartDock.Edited | app/Template1Screen.tsx:142 | the edited config has the new tags, times, freq and sample type, and keeps its id and colour |
| ChartDock.ApplyEdit | app/Template1Screen.tsx:138-145 | only slots whose config id is the editing id change; occupancy is kept |
| ChartDock.NewChart | app/Template1Screen.tsx:150-156 | the new chart has the generated id and colour, the settings' fields and the spawn point |
| ChartDock.StampsAt | app/Template1Screen.tsx:63 | the i-th instant is start + i·step |
| ChartDock.TimeStamps | app/Template1Screen.tsx:59-67 | empty for an invalid date, freq ≤ 0 or start after end; otherwise ⌊(end−start)/step⌋+1 instants from the start in steps, the last one not after the end |
| ChartDock.StampsUntil | app/Template1Screen.tsx:63-65 | the loop yields the series from start while not after end, and stops within one step of the end |
| ChartDock.ChartData | app/Template1Screen.tsx:168-178 | one dataset per tag, each of length min(#labels, #raw values), non-finite values shown as 0 |
| Template1.Screen.constructor | app/Template1Screen.tsx:73-112 | empty slots, no floating charts, no hover, no rects |
| Template1.Screen.WhichZone | app/Template1Screen.tsx:117-121 | slot 1 exactly when its rect contains the point; slot 2 only when its rect does |
| Template1.Screen.HandleApplySettings | app/Template1Screen.tsx:132-158 | incomplete settings (falsy time, sample type or freq, or no tags) change nothing; an edit goes through `ApplyEdit`; otherwise one chart is appended at (16, 144) |
| Template1.Screen.AttachToSlot | app/Template1Screen.tsx:160-165 | the state becomes `Attach(...)`, and the hover is cleared when the chart was found |
| Template1.Screen.RemoveFromSlot | app/Template1Screen.tsx:166 | the zone is emptied |
| Template1.Screen.UndockFromSlot | app/Template1Screen.tsx:180-184 | the state becomes `Undock(...)` at (16, 144); the widget count is preserved |
| Template2.DropNameOf | app/Template2Screen.tsx:539-542 | chartA → slot1, chartB → slot2, no zone → null |
| Template2.ZoneOfDropName | app/Template2Screen.tsx:543 | slot1 → chartA, anything else → chartB |
| Template2.DropNameRoundTrip | app/Template2Screen.tsx:539-543 | a chart dropped over a zone is attached to that zone |
| Template2.DefaultLVSlot | app/Template2Screen.tsx:379-382 | a default slot accepts only `lastValue` and holds `lastValue:<id>` |
| Template2.DefaultLVSlots | app/Template2Screen.tsx:399-404 | exactly lv1..lv4 in order |
| Template2.LoadedLVSlots | app/Template2Screen.tsx:376-383 | stored slots are kept exactly when their id is lv1..lv4; without a stored array, the defaults |
| Template2.WidgetIdFor | app/Template2Screen.tsx:674-676 | the slot's own non-empty widget id, else `lastValue:<id>` |
| Template2.SettingsFollowWidget | app/Template2Screen.tsx:676-677 | settings are keyed by widget id, so after a swap the target shows the dragged card's settings |
| Template2.LVSlotWidgetId | app/Template2Screen.tsx:674-676 | a slot without a widget id gets `lastValue:<id>` written in place; other slots are untouched |
| Template2.PickerApply | app/Template2Screen.tsx:172-175 | no tag selected applies nothing; otherwise the trimmed title, or `Last Value` when it is empty |
| Template2.BlankTitleFallsBack | app/Template2Screen.tsx:174 | a white-space title becomes `Last Value` |
| Template2.Screen.constructor | app/Template2Screen.tsx:325-351 | title `Template 2`, no slots loaded yet, empty settings, empty chart slots and list |
| Template2.Screen.SpawnY | app/Template2Screen.tsx:462 | the spawn height is at least 140 and at least insets.top + 96 |
| Template2.Screen.WhichZone | app/Template2Screen.tsx:361-366 | chartA exactly when its rect contains the point; chartB only when its rect does |
| Template2.Screen.Load | app/Template2Screen.tsx:369-406 | stored state: slots filtered to lv1..lv4 (defaults if not an array), title and settings with fallbacks, chart fields when present; otherwise the default slots |
| Template2.Screen.ApplyLV | app/Template2Screen.tsx:687-691 | the widget's settings become the payload; other widget ids are unchanged |
| Template2.Screen.ClearLV | app/Template2Screen.tsx:692-695 | the widget's settings become null; other widget ids are unchanged |
| Template2.Screen.HandleApplySettings | app/Template2Screen.tsx:439-465 | the same validation as Template1; a new chart spawns at (16, max(140, insets.top + 96)) |
| Template2.Screen.AttachToSlot | app/Template2Screen.tsx:467-472 | the state becomes `Attach(...)` |
| Template2.Screen.DropChartAt | app/Template2Screen.tsx:539-543 | a drop over no zone changes nothing; over a zone, the chart is attached to that zone |
| Template2.Screen.RemoveFromSlot | app/Template2Screen.tsx:474 | the zone is emptied |
| Template2.Screen.UndockFromSlot | app/Template2Screen.tsx:476-480 | the state becomes `Undock(...)` at (16, max(140, insets.top + 96)); the count is preserved |
| Template3.GridColumns | app/Template3Screen.tsx:42 | n·12 ≤ width < (n+1)·12 |
| Template3.GridRows | app/Template3Screen.tsx:43 | (n−1)·12 < height ≤ n·12 |
| Template3.Snap | app/Template3Screen.tsx:103-109 | round(v/12)·12 is a multiple of 12 within 6 of v |
| Template3.SnapIdempotent | app/Template3Screen.tsx:102-111 | snapping twice equals snapping once |
| Template3.SnapOnGrid | app/Template3Screen.tsx:102-111 | a value already on the grid is left alone |
| Template3.SnapToGrid | app/Template3Screen.tsx:102-111 | all four outputs are multiples of 12, each within 6 of its input |
| Template3.SnapToGridIdempotent | app/Template3Screen.tsx:102-111 | `snapToGrid` is idempotent |
| Template3.CellRangeEmpty | app/Template3Screen.tsx:121-125 | the cell set is empty exactly when the row range or the column range is empty |
| Template3.CoveredCellsEmpty | app/Template3Screen.tsx:114-125 | a dragged rectangle highlights no cell exactly when ⌊y/12⌋ ≥ ⌈(y+h)/12⌉ or ⌊x/12⌋ ≥ ⌈(x+w)/12⌉ |
| Template3.WithPayload | app/Template3Screen.tsx:146-155 | id, kind and colour kept; null fields become "", "", 0 and "AVG" |
| Template3.ApplyPayload | app/Template3Screen.tsx:143-159 | only the item with the id changes; length kept |
| Template3.MoveTo | app/Template3Screen.tsx:261-273 | only the dropped item gets the snapped x, y, w, h |
| Template3.Screen.constructor | app/Template3Screen.tsx:63-79 | no items, modal closed, no active cells |
| Template3.Screen.CreateFloating | app/Template3Screen.tsx:84-99 | exactly one item appended at (50, 150), 160×120, empty tags, freq 60, `AVG` |
| Template3.Screen.UpdateActiveCells | app/Template3Screen.tsx:114-127 | exactly the cells with ⌊y/12⌋ ≤ r < ⌈(y+h)/12⌉ and ⌊x/12⌋ ≤ c < ⌈(x+w)/12⌉; empty exactly when either range is |
| Template3.Screen.HandleApplySettings | app/Template3Screen.tsx:131-162 | no-op without an id; otherwise `ApplyPayload` and the modal closes |
| Template3.Screen.OnDrop | app/Template3Screen.tsx:259-275 | the dropped item is moved to the snapped box, others unchanged, active cells cleared |
| GridCanvas.GridArea | components/GridCanvas.tsx:25-26 | gridW = width − 2·padding and gridH = height − 2·padding |
| GridCanvas.RegionOf | components/GridCanvas.tsx:70-78 | null exactly when there is no highlight; startR, startC ≥ 0, endR ≤ rows−1 and endC ≤ cols−1 |
| GridCanvas.RegionIsPaddedHighlight | components/GridCanvas.tsx:72-77 | a cell is in the region exactly when it is within one cell of the highlight and inside the grid |
| GridCanvas.Lines | components/GridCanvas.tsx:84 | the run start, start+1, … of length end−start+2, empty when that length is negative |
| GridCanvas.VLines | components/GridCanvas.tsx:81-85 | empty without a region, else startC..endC+1 |
| GridCanvas.HLines | components/GridCanvas.tsx:86-89 | empty without a region, else startR..endR+1 |
| GridCanvas.LinesBoundCells | components/GridCanvas.tsx:81-89 | the lines run from the first cell boundary to the last, and k is a line exactly when start ≤ k ≤ end+1 |
| GridCanvas.RowCells | components/GridCanvas.tsx:108-109 | one row's cells c..endC in order |
| GridCanvas.CellsFrom | components/GridCanvas.tsx:106-109 | (endR−r+1)·(endC−startC+1) cells, exactly those of the rows r..endR and the region's columns |
| GridCanvas.MicroCells | components/GridCanvas.tsx:104-123 | no overlay without a highlight; otherwise exactly the region's cells |
| Numbers.Clamp | components/charts/DraggableResizableChart.tsx:53 | the result lies in [lo, hi] when lo ≤ hi, and equals v when v is already there |
| ChartWidget.ComputeMaxW | components/charts/DraggableResizableChart.tsx:95-98 | at least MIN_W = 220 and at least w − (24 + insets) |
| ChartWidget.ClampWidthInRange | components/charts/DraggableResizableChart.tsx:53-56 | clamp(v, MIN_W, computeMaxW(w)) lies in [220, maxW] |
| ChartWidget.InitialRatioAsWritten | components/charts/DraggableResizableChart.tsx:104-111 | the ratio as the branches are written is only ever 0.90, 0.84 or 0.80 |
| ChartWidget.TabletRatioUnreachable | components/charts/DraggableResizableChart.tsx:108-109 | the 0.60 ratio is never chosen, and at w = 800 the ratio is 0.80 |
| ChartWidget.InitialRatio | components/charts/DraggableResizableChart.tsx:104-111 | 0.90 up to 360, 0.84 below 430, 0.80 below 768, 0.60 from 768 |
| ChartWidget.InitialRatioNarrowsWithWindow | components/charts/DraggableResizableChart.tsx:104-111 | the ratio never grows with the window, and agrees with the code below 768 |
| ChartWidget.InitialFloatingWidth | components/charts/DraggableResizableChart.tsx:104-111 | the initial floating width lies in [MIN_W, safe] |
| ChartWidget.KeepInWindow | components/charts/DraggableResizableChart.tsx:212 | x lies in [0, max(0, winW − w − 4)] and is kept when already there |
| ChartWidget.DragTarget | components/charts/DraggableResizableChart.tsx:165-171 | x = clamp(start.x + dx, 0, max(0, winW − containerW − 4)), y = max(0, start.y + dy), both from the grant-time start |
| ChartWidget.PinchedWidth | components/charts/DraggableResizableChart.tsx:204-208 | the pinched width lies in [220, maxW] |
| ChartWidget.PinchedHeight | components/charts/DraggableResizableChart.tsx:204-209 | the pinched height lies in [120, 560] |
| ChartWidget.PinchBackRestores | components/charts/DraggableResizableChart.tsx:194-209 | returning the fingers to the grant-time distance restores the grant-time size |
| ChartWidget.PinchWidthGrowsWithSpread | components/charts/DraggableResizableChart.tsx:204-208 | a wider spread never gives a narrower card |
| ChartWidget.PinchHeightGrowsWithSpread | components/charts/DraggableResizableChart.tsx:204-209 | a wider spread never gives a shorter card |
| ChartWidget.DockedHeight | components/charts/DraggableResizableChart.tsx:144-147 | clamp(fill ? ideal : max(140, ideal − 64), 120, 560): within [120, 560] and never below 140 for a card |
| ChartWidget.InnerWidth | components/charts/DraggableResizableChart.tsx:289 | at least 1; the container minus 20 for a card, the container itself for fill |
| ChartWidget.MinLength | components/charts/DraggableResizableChart.tsx:225 | n = min(#labels, every series length) |
| ChartWidget.TakeSeries | components/charts/DraggableResizableChart.tsx:227-230 | the first four series, each cut to n |
| ChartWidget.TrimSeries | components/charts/DraggableResizableChart.tsx:224-232 | labels cut to n, at most 4 series, each the first n values of its data set with its colour |
| ChartWidget.SanitizeAll | components/charts/DraggableResizableChartFloating.tsx:222 | each value sanitised: non-finite becomes 0 |
| ChartWidget.TrimSeriesSanitized | components/charts/DraggableResizableChartFloating.tsx:217-225 | the trimmed series with every value sanitised |
| ChartWidget.SeriesNameOf | components/charts/DraggableResizableChart.tsx:241 | the tag when there is one, else `Series <si+1>` |
| ChartWidget.Mid | components/charts/DraggableResizableChart.tsx:236 | ⌊(n−1)/2⌋ for n > 0, else 0 |
| ChartWidget.SeriesPoints | components/charts/DraggableResizableChart.tsx:237-242 | n points with sanitised values, the series name, and a label only at ticks |
| ChartWidget.SeriesOf | components/charts/DraggableResizableChart.tsx:234-244 | one point list per trimmed series |
| ChartWidget.TrimShape | components/charts/DraggableResizableChart.tsx:224-232 | labels and every series have length n |
| ChartWidget.AtMostThreeLabels | components/charts/DraggableResizableChart.tsx:240 | labels are non-empty only at 0, ⌊(n−1)/2⌋ and n−1 |
| ChartWidget.YDomain | components/charts/DraggableResizableChart.tsx:247-254 | (0, 1) with no values; otherwise every value is strictly inside, with padding at least 1 |
| ChartWidget.AllValues | components/charts/DraggableResizableChart.tsx:246 | every point's value is in the flattened list |
| ChartWidget.Flatten | components/charts/DraggableResizableChartFloating.tsx:268 | both directions: every value of every series, and nothing else |
| ChartWidget.PointsInsideDomain | components/charts/DraggableResizableChart.tsx:246-254 | minY < every plotted value < maxY |
| ChartWidget.ScaleMode | components/charts/DraggableResizableChartFloating.tsx:227-230 | auto becomes minmax exactly when there is more than one series, else raw; explicit modes are kept |
| ChartWidget.Percent | components/charts/DraggableResizableChartFloating.tsx:243 | (v−min)/(max−min)·100 lies in [0, 100]; min maps to 0, max to 100 |
| ChartWidget.PercentMonotone | components/charts/DraggableResizableChartFloating.tsx:243 | normalisation keeps order |
| ChartWidget.Normalize | components/charts/DraggableResizableChartFloating.tsx:234-244 | each value in [0, 100]; a constant series maps to all 50 |
| ChartWidget.NormalizeOrdered | components/charts/DraggableResizableChartFloating.tsx:234-244 | order is kept; the minimum maps to 0 and the maximum to 100 |
| ChartWidget.Normalized | components/charts/DraggableResizableChartFloating.tsx:232-245 | unchanged unless minmax; under minmax every value lies in [0, 100] |
| ChartWidget.ScaledDomain | components/charts/DraggableResizableChartFloating.tsx:269-277 | (0, 100) under minmax, (0, 1) with no values, else every value strictly inside |
| ChartWidget.DenseSpacing | components/charts/DraggableResizableChartFloating.tsx:315-319 | max(6, (innerW − 36)/points · 0.75), with points = max(1, (#labels or 2) − 1) |
| ResizableChart.PlotOf | components/charts/DraggableResizableChart.tsx:224-254 | at most 4 series of equal length ≤ #labels, each the points of its trimmed series, every value strictly inside the domain |
| ResizableChart.Card.constructor | components/charts/DraggableResizableChart.tsx:100-118 | floating starts at the initial floating width and is ready; docked at width 0; height 160 if compact, else 280 |
| ResizableChart.Card.OnDimensionsChange | components/charts/DraggableResizableChart.tsx:121-130 | new window width and maxW; a floating width is re-clamped |
| ResizableChart.Card.OnInsetsChange | components/charts/DraggableResizableChart.tsx:132-138 | new insets and maxW; a floating width is re-clamped |
| ResizableChart.Card.OnIdealHeight | components/charts/DraggableResizableChart.tsx:141-149 | docked: 160 if compact, else `DockedHeight` for a positive ideal height; otherwise unchanged |
| ResizableChart.Card.DragGrant | components/charts/DraggableResizableChart.tsx:159-164 | floating: the start position is the current one; docked: nothing |
| ResizableChart.Card.DragMove | components/charts/DraggableResizableChart.tsx:165-171 | floating: the position is `DragTarget` from the grant-time start, inside the window; docked: unchanged |
| ResizableChart.Card.DragRelease | components/charts/DraggableResizableChart.tsx:172-180 | the drop callback runs exactly when floating, both handlers are given and the zone is non-null |
| ResizableChart.Card.PinchGrant | components/charts/DraggableResizableChart.tsx:194-200 | the base is (distance, current width, current height) |
| ResizableChart.Card.PinchMove | components/charts/DraggableResizableChart.tsx:201-217 | ignored for a zero current or base distance; floating scales W and H and re-clamps x; docked changes only the height, when enabled |
| ResizableChart.Card.OnLayout | components/charts/DraggableResizableChart.tsx:317-325 | docked: a non-zero width that differs by more than 1 (or a zero container) is clamped in and makes the card ready |
| ResizableChart.PinchRoundTrip | components/charts/DraggableResizableChart.tsx:194-212 | pinching back to the grant distance gives the size at grant |
| FloatingChart.PlotOf | components/charts/DraggableResizableChartFloating.tsx:217-277 | at most 4 series; under minmax every value is in [0, 100] and the domain is (0, 100); otherwise the sanitised values are strictly inside the domain |
| FloatingChart.Card.constructor | components/charts/DraggableResizableChartFloating.tsx:96-109 | floating and free start at the initial floating width and are ready; docked at width 0 |
| FloatingChart.Card.OnDimensionsChange | components/charts/DraggableResizableChartFloating.tsx:123-132 | new window width and maxW; a floating width is re-clamped |
| FloatingChart.Card.OnInsetsChange | components/charts/DraggableResizableChartFloating.tsx:134-140 | new insets and maxW; a floating width is re-clamped |
| FloatingChart.Card.OnIdealHeight | components/charts/DraggableResizableChartFloating.tsx:142-150 | the same docked-height rule as the other card |
| FloatingChart.Card.DragGrant | components/charts/DraggableResizableChartFloating.tsx:161-166 | floating or free: the start position is the current one |
| FloatingChart.Card.DragMove | components/charts/DraggableResizableChartFloating.tsx:167-173 | floating or free: `DragTarget` from the grant-time start |
| FloatingChart.Card.DragRelease | components/charts/DraggableResizableChartFloating.tsx:174-182 | the drop callback runs exactly when floating or free, the handlers are given and the zone is non-null |
| FloatingChart.Card.PinchGrant | components/charts/DraggableResizableChartFloating.tsx:194-200 | the base is (distance, current width, current height) |
| FloatingChart.Card.PinchMove | components/charts/DraggableResizableChartFloating.tsx:201-211 | ignored for a zero distance; otherwise W and H are both scaled and clamped in every mode, and x is re-clamped |
| FloatingChart.Card.OnLayout | components/charts/DraggableResizableChartFloating.tsx:349-360 | docked: width as in the other card; chartH = clamp(h − 40, 120, 560) only when h is non-zero and differs from chartH by more than 1 (chartH is never 0, being at least 120) |
| TagLists.TogglePrepend | components/ChartSettingsModal.tsx:78-84 | a present tag is removed (all occurrences); an absent one is prepended; others unaffected |
| TagLists.ToggleAppend | components/ChartSettingsModal3.tsx:84-88 | a present tag is removed; an absent one is appended; others unaffected |
| TagLists.TogglePrependTwice | components/ChartSettingsModal.tsx:78-84 | toggling an absent tag twice gives the original list |
| TagLists.ToggleAppendTwice | app/tags/TagSelectionScreen.tsx:27-31 | toggling an absent tag twice gives the original list |
| TagLists.ToggleAppendDistinct | app/tags/TagSelectionScreen.tsx:27-31 | toggling keeps a duplicate-free list duplicate-free |
| TagLists.TogglePrependDistinct | components/ChartSettingsModal.tsx:78-84 | toggling keeps a duplicate-free list duplicate-free |
| TagLists.Search | app/tags/TagSelectionScreen.tsx:33-35 | the sub-list of tags that contain the search text, case-insensitively |
| TagLists.EmptySearchShowsAll | app/tags/TagSelectionScreen.tsx:33-35 | an empty search shows every tag |
| SettingsModal.WithClock | components/ChartSettingsModal.tsx:96-99 | the date's day with the hours and minutes of the picked time; seconds and milliseconds kept |
| SettingsModal.FilteredTags | components/ChartSettingsModal.tsx:122-129 | the selected tags first, then exactly the unselected options that match the search |
| SettingsModal.FilteredTagsDistinct | components/ChartSettingsModal.tsx:122-129 | no tag appears twice |
| SettingsModal.Form.constructor | components/ChartSettingsModal.tsx:47-66 | the fields come from the edit data, or are empty without it; picker closed |
| SettingsModal.Form.ToggleTag | components/ChartSettingsModal.tsx:78-84 | the tags become `TogglePrepend` of the old ones |
| SettingsModal.Form.OpenPicker | components/ChartSettingsModal.tsx:192-202 | the picker opens in date mode on the target |
| SettingsModal.Form.HandleDateChange | components/ChartSettingsModal.tsx:86-93 | a picked date is kept and switches to time mode; a cancel clears the target |
| SettingsModal.Form.HandleTimeChange | components/ChartSettingsModal.tsx:95-109 | a picked time writes only the targeted start or end; the picker always resets |
| SettingsModal.Form.QuickSelect | components/ChartSettingsModal.tsx:216-233 | end is now and start is one hour or one day earlier |
| SettingsModal.Form.Apply | components/ChartSettingsModal.tsx:111-120 | `onApply` with the fields passed through, then `onClose` |
| SettingsModal3.ToLocal | components/ChartSettingsModal3.tsx:35 | the instant shifted by the time-zone offset |
| SettingsModal3.FilteredOptions | components/ChartSettingsModal3.tsx:74-82 | exactly the options whose label or value contains the search text, case-insensitively |
| SettingsModal3.ShownOptionsOf | components/ChartSettingsModal3.tsx:141 | the first at most 50 of them |
| SettingsModal3.Form.constructor | components/ChartSettingsModal3.tsx:44-49 | no tags, end one hour after start, freq 300, sample type `raw` |
| SettingsModal3.Form.Reset | components/ChartSettingsModal3.tsx:55-72 | hidden: nothing; with edit data: its fields with defaults; without: no tags, end = start + 1 h, freq 300, `raw` |
| SettingsModal3.Form.ToggleTag | components/ChartSettingsModal3.tsx:84-88 | the tags become `ToggleAppend` of the old ones |
| SettingsModal3.Form.RemoveTag | components/ChartSettingsModal3.tsx:90-92 | every occurrence removed, others kept; no-op when absent |
| SettingsModal3.Form.HandleSave | components/ChartSettingsModal3.tsx:94-117 | refused exactly when tags are empty, the sample type is empty or end ≤ start, with the first failing check reported; a save passes tags, freq and sample type unchanged |
| SettingsModal3.RemoveAbsentIsNoOp | components/ChartSettingsModal3.tsx:90-92 | removing an absent tag changes nothing |
| TagSelection.Screen.constructor | app/tags/TagSelectionScreen.tsx:23-24 | no search, no tags |
| TagSelection.Screen.HandleTagPress | app/tags/TagSelectionScreen.tsx:27-31 | the tags become `ToggleAppend` of the old ones and stay duplicate-free |
| TagSelection.Screen.Proceed | app/tags/TagSelectionScreen.tsx:46-56 | refused exactly when no tag is selected; otherwise passes the selection on |
| Storage.Store.constructor | storage/savedTemplates.ts:2 | the store holds the given contents |
| Storage.Store.GetItem | storage/savedTemplates.ts:20 | the value under the key, or null when there is none |
| Storage.Store.SetItem | storage/savedTemplates.ts:32 | only the key changes |
| Storage.Store.RemoveItem | storage/savedTemplates.ts:60 | only the key is removed |
| SavedTemplates.ItemKey | storage/savedTemplates.ts:17 | `factorypulse/saves/item/<id>/v1` |
| SavedTemplates.ItemKeyDistinct | storage/savedTemplates.ts:16-17 | no item key equals the list key, and different ids have different keys |
| SavedTemplates.MetaOf | storage/savedTemplates.ts:30 | the snapshot's fields without its state |
| SavedTemplates.Ids | storage/savedTemplates.ts:31 | the ids of the list, in order |
| SavedTemplates.ListIn | storage/savedTemplates.ts:19-26 | the stored array, or [] when missing, empty, unparsable or not an array |
| SavedTemplates.TemplateIn | storage/savedTemplates.ts:42-46 | the stored snapshot, or null when missing, empty or unparsable |
| SavedTemplates.Without | storage/savedTemplates.ts:31 | exactly the entries with another id |
| SavedTemplates.UpdateWhere | storage/savedTemplates.ts:38 | same length and order; only entries with the id are passed through the updater |
| SavedTemplates.Renamed | storage/savedTemplates.ts:53 | the updater sets name and updatedAt |
| SavedTemplates.LoadList | storage/savedTemplates.ts:19-26 | reads `ListIn` of the store |
| SavedTemplates.SaveNewTemplate | storage/savedTemplates.ts:28-34 | the meta goes first in the list without its old entries, and the snapshot is stored under its key |
| SavedTemplates.UpdateTemplateMeta | storage/savedTemplates.ts:36-40 | the list is rewritten through `UpdateWhere` |
| SavedTemplates.GetTemplate | storage/savedTemplates.ts:42-46 | reads `TemplateIn` of the store |
| SavedTemplates.RenameTemplate | storage/savedTemplates.ts:48-54 | no-op when missing; otherwise the snapshot and its list entries are renamed and stamped |
| SavedTemplates.DeleteTemplate | storage/savedTemplates.ts:56-61 | list entries with the id and the item key are removed |
| SavedTemplates.SaveNewLeadsList | storage/savedTemplates.ts:28-32 | after saving, the meta is first, the id occurs exactly once, and the other entries keep their order |
| SavedTemplates.SaveNewThenGet | storage/savedTemplates.ts:28-46 | reading a saved snapshot back gives it unchanged |
| SavedTemplates.SaveNewKeepsOthers | storage/savedTemplates.ts:33 | other snapshots are untouched |
| SavedTemplates.UpdateMetaKeepsSnapshots | storage/savedTemplates.ts:36-40 | updating the metadata keeps length and order and touches no snapshot |
| SavedTemplates.RenameAgrees | storage/savedTemplates.ts:48-54 | missing: no change; otherwise the item and its list entries get the same new name and updatedAt, and the list keeps its length |
| SavedTemplates.DeleteRemovesAll | storage/savedTemplates.ts:56-61 | no list entry and no snapshot left for the id; other entries kept |
| TemplateList.LoadedIn | app/saved-templates.tsx:16-27 | [] when missing, empty or unparsable; a stored array as it is; any other JSON value is not a list |
| TemplateList.RenameWhere | app/saved-templates.tsx:44-46 | same length; only entries with the id get the new name and stamp |
| TemplateList.LoadList | app/saved-templates.tsx:16-27 | reads `LoadedIn` of the store |
| TemplateList.SaveTemplate | app/saved-templates.tsx:30-38 | appends when the stored value is a list; otherwise the store is unchanged |
| TemplateList.RenameTemplate | app/saved-templates.tsx:41-51 | renames through `RenameWhere`, or leaves the store unchanged |
| TemplateList.DeleteTemplate | app/saved-templates.tsx:54-61 | filters out the id, or leaves the store unchanged |
| TemplateList.SaveAppends | app/saved-templates.tsx:30-35 | appended at the end without deduplication: the length and the template's count both grow by exactly 1 |
| TemplateList.RenameKeepsShape | app/saved-templates.tsx:41-48 | length, order, ids and other fields kept; only matching entries get the new name and updatedAt |
| TemplateList.DeleteRemovesId | app/saved-templates.tsx:54-58 | exactly the entries with other ids remain |
| TemplateList.FailureLeavesStore | app/saved-templates.tsx:36-38 | when the stored value is not a list, every operation fails and leaves the store as it was |

## Left out

- Gesture plumbing: PanResponder and reanimated wiring, `Animated` springs, haptics, `measureInWindow`, the drop zone's 100 ms polling timer, and the floating card's delay before it accepts touches. Each gesture callback is a method call in grant → move* → release or terminate order.
- `pinchDistance` uses `Math.hypot`; the touch distance is an input of type `real`.
- Floating point: all arithmetic is exact on `real`, so IEEE rounding is not modelled.
- React state timing: batching and stale closures are not modelled. For example, the card responders are built once and read first-render state, and `finishDrag` reads the hover from its closure. Each handler is one atomic update of the current state.
- Dates and locale formatting: `toLocaleTimeString`, `toISOString`, `getTimezoneOffset` and `padStart` are left out. Instants are integer milliseconds and labels are plain strings. `SettingsModal.WithClock` takes days as fixed 24-hour spans, so daylight-saving shifts are not modelled.
- The floating card's whole-hour tick labels (`hhmm`, DraggableResizableChartFloating.tsx:248-266) need date parsing and are left out. Its values and domain are modelled.
- Text.LowerChar: `toLowerCase` is modelled for the ASCII letters A–Z only; letters outside ASCII (and their multi-character lower cases) are kept unchanged. `trim` is modelled exactly: `Text.IsSpace` holds the WhiteSpace and LineTerminator code points of ECMA-262 (tab, vertical tab, form feed, space, U+00A0, U+FEFF, U+1680, U+2000–U+200A, U+202F, U+205F, U+3000, line feed, carriage return, U+2028, U+2029).
- JavaScript objects iterate integer-like keys first; the model uses plain insertion order for all keys.
- Some files are wired to APIs that do not exist. The drop zone calls a `registerSlot` the provider does not export, and the grid screen passes an object-shaped `onDrop` the floating card does not accept. Each file is modelled on its own terms, and the zone's registration is an output of `DropZone.Zone.Measure`.
- A patch field that is explicitly `undefined` in `upsertSlotMeta` is treated as not supplied.
- Template2's `saveState`, the autosave effect and its toast, plus the screens' template save and load effects, are storage wiring around the modelled state; they are not part of this model.
- Random ids and colours (`uid`, `Math.random`) and the mock data fixtures are parameters. Chart rendering, `CARD_PAD` styling and the `onHeightChange` callback are not modelled.
- Template3 cell keys are `r-c` strings in the source and pairs `(r, c)` in the model.
- The grid canvas highlight is taken as whole cells (integers).
- AsyncStorage returns text. Empty text is falsy and is read like a missing key. Parse failure is its own case.
- SavedTemplates.TemplateIn: a parsed value under an item key that is not a single record (an array or a scalar) is read as missing, where the source would return it as is.
- TemplateList.LoadedIn: a stored JSON string would be spread character by character by `saveTemplate`; the model treats every non-array JSON value as a failure that leaves the store unchanged.
- Plain setters with no logic (the frequency and sample-type buttons of the settings modals, the search text fields) are not modelled.
- ChartWidget.InitialFloatingWidth uses the corrected ratio (see Findings). The code as written is `ChartWidget.InitialRatioAsWritten`.

## Findings

| source | as written | input that shows it | evidently intended | confidence | as-written member | corrected member |
|---|---|---|---|---|---|---|
| components/charts/DraggableResizableChart.tsx:104-111 (same code at components/charts/DraggableResizableChartFloating.tsx:98-105) | `else if (w >= 430) ratio = 0.80; else if (w >= 768) ratio = 0.60;` tests 430 first, so the 768 branch can never run | w = 800 gives ratio 0.80 | windows of 768 and wider start at ratio 0.60 | high (not executed) | ChartWidget.InitialRatioAsWritten, ChartWidget.TabletRatioUnreachable | ChartWidget.InitialRatio, ChartWidget.InitialRatioNarrowsWithWindow |
