/**
 * The second dashboard screen: four draggable last-value cards in slots
 * `lv1`..`lv4`, and floating charts with two chart slots, `chartA` and `chartB`.
 */
module Template2 {
  import opened Options
  import opened Geometry
  import opened Numbers
  import opened Seqs
  import opened Text
  import opened DragDrop
  import opened ChartDock
  import opened ChartWidget

  /** `onDropGesture`: `chartA` is reported as `slot1`, `chartB` as `slot2`, no zone as nothing. */
  function DropNameOf(z: Option<Zone>): (n: Option<DropName>)
    ensures n.None? <==> z.None?
  {
    match z
    case None => None
    case Some(First) => Some(Slot1)
    case Some(Second) => Some(Slot2)
  }

  /** `onDrop`: `slot1` attaches to `chartA`, anything else to `chartB`. */
  function ZoneOfDropName(n: DropName): (z: Zone)
    ensures z == First <==> n == Slot1
  {
    if n == Slot1 then First else Second
  }

  /** The two mappings are inverse: a chart dropped over a slot is attached to that slot. */
  lemma DropNameRoundTrip(z: Zone)
    ensures DropNameOf(Some(z)).Some? && ZoneOfDropName(DropNameOf(Some(z)).value) == z
  {
  }

  /** The four last-value slot ids. */
  const LVIds: seq<SlotId> := ["lv1", "lv2", "lv3", "lv4"]

  predicate IsLVSlot(s: Slot)
  {
    s.id in LVIds
  }

  /** The slot a last-value card starts in: it accepts only `lastValue` and holds `lastValue:<id>`. */
  function DefaultLVSlot(id: SlotId): (s: Slot)
    ensures s.id == id && s.accepts == ["lastValue"] && s.widgetId == Some("lastValue:" + id)
  {
    Slot(id, ["lastValue"], Some("lastValue:" + id))
  }

  /** The default slots: one per id `lv1`..`lv4`, in that order. */
  function DefaultLVSlots(): (r: seq<Slot>)
    ensures |r| == 4 && forall i :: 0 <= i < 4 ==> r[i] == DefaultLVSlot(LVIds[i])
  {
    seq(4, i requires 0 <= i < 4 => DefaultLVSlot(LVIds[i]))
  }

  /** The slots taken from a stored state: the stored ones with a known id when they form an array, else the defaults. */
  function LoadedLVSlots(stored: Option<seq<Slot>>): (r: seq<Slot>)
    ensures stored.None? ==> r == DefaultLVSlots()
    ensures stored.Some? ==>
              (forall i :: 0 <= i < |r| ==> r[i] in stored.value && r[i].id in LVIds)
              && forall i :: 0 <= i < |stored.value| && stored.value[i].id in LVIds ==> stored.value[i] in r
  {
    if stored.None? then DefaultLVSlots() else Filter(stored.value, IsLVSlot)
  }

  /** A last-value card's settings. */
  datatype LVSettings = LVSettings(tag: string, title: string)

  /** The parsed storage object; a field is `None` when absent (or, for `slots`, not an array). */
  datatype SavedState = SavedState(
    slots: Option<seq<Slot>>, pageTitle: Option<string>,
    lvSettings: Option<map<string, Option<LVSettings>>>,
    chartSlots: Option<Docked>, floatingCharts: Option<seq<FloatingChart>>,
    lastSavedAt: Option<int>)

  /** What reading the storage key gives: nothing (or an empty string), text that does not parse, or a state. */
  datatype Stored = Missing | Unparsable | Parsed(state: SavedState)

  /** The widget id an `LVSlot` uses: the slot's own when it has a non-empty one, else `lastValue:<id>`. */
  function WidgetIdFor(slots: map<SlotId, Slot>, id: SlotId): (w: string)
    ensures id !in slots ==> w == "lastValue:" + id
    ensures w != ""
  {
    if id in slots && slots[id].widgetId.Some? && slots[id].widgetId.value != "" then slots[id].widgetId.value
    else "lastValue:" + id
  }

  /** The settings shown for a widget: `lvSettings[widgetId] ?? null`. */
  function SettingsFor(lvSettings: map<string, Option<LVSettings>>, widgetId: string): Option<LVSettings>
  {
    if widgetId in lvSettings then lvSettings[widgetId] else None
  }

  /** After a committed swap, the target slot's card is the dragged widget, so the settings travel with it. */
  lemma SettingsFollowWidget(prev: map<SlotId, Slot>, drag: DragToken, to: SlotId, meta: map<SlotId, SlotMeta>, lv: map<string, Option<LVSettings>>)
    requires Commits(prev, drag, Some(to), meta) && drag.widgetId != ""
    requires prev[drag.from].widgetId == Some(drag.widgetId)
    ensures SettingsFor(lv, WidgetIdFor(SwapUpdate(prev, drag, Some(to), meta), to)) == SettingsFor(lv, WidgetIdFor(prev, drag.from))
  {
  }

  /**
   * The render-time repair in `LVSlot`: a slot present without a (non-empty)
   * widget id gets `lastValue:<id>` written into it in place. Returns the widget
   * id the card uses.
   */
  method LVSlotWidgetId(p: Provider, id: SlotId) returns (widgetId: string)
    modifies p`slots
    ensures widgetId == WidgetIdFor(old(p.slots), id)
    ensures p.slots.Keys == old(p.slots).Keys
    ensures id in p.slots ==> p.slots[id] == old(p.slots)[id].(widgetId := Some(widgetId))
    ensures forall k :: k in p.slots && k != id ==> p.slots[k] == old(p.slots)[k]
    ensures WidgetIdFor(p.slots, id) == widgetId
  {
    if id in p.slots && (p.slots[id].widgetId.None? || p.slots[id].widgetId.value == "") {
      p.slots := p.slots[id := p.slots[id].(widgetId := Some("lastValue:" + id))];
    }
    widgetId := WidgetIdFor(p.slots, id);
  }

  /**
   * `TagPickerModal`'s save button: with no tag selected nothing is applied;
   * otherwise the tag with the trimmed title, or `Last Value` when that is empty.
   */
  function PickerApply(selected: Option<string>, title: string): (r: Option<LVSettings>)
    ensures selected.None? || selected.value == "" ==> r.None?
    ensures selected.Some? && selected.value != "" ==>
              r.Some? && r.value.tag == selected.value
              && (Trim(title) != "" ==> r.value.title == Trim(title))
              && (Trim(title) == "" ==> r.value.title == "Last Value")
  {
    if selected.None? || selected.value == "" then None
    else Some(LVSettings(selected.value, if Trim(title) != "" then Trim(title) else "Last Value"))
  }

  /** A title of white space only falls back to `Last Value`. */
  lemma BlankTitleFallsBack(tag: string, title: string)
    requires tag != "" && forall i :: 0 <= i < |title| ==> IsSpace(title[i])
    ensures PickerApply(Some(tag), title) == Some(LVSettings(tag, "Last Value"))
  {
    TrimAllSpace(title);
  }

  /** The screen's state. */
  class Screen {
    /** `insets.top`, fixed for the screen's lifetime. */
    const insetsTop: real
    var pageTitle: string
    var titleInput: string
    /** `initialSlots`; `None` until loading has finished. */
    var initialSlots: Option<seq<Slot>>
    /** `lvSettings`, keyed by widget id. */
    var lvSettings: map<string, Option<LVSettings>>
    /** `chartSlots`: `chartA` is `First`, `chartB` is `Second`. */
    var docked: Docked
    /** `floatingCharts`. */
    var floating: seq<FloatingChart>
    var hovered: Option<Zone>
    var modalVisible: bool
    var lastSavedAt: Option<int>
    /** `slotRects.chartA` and `slotRects.chartB`. */
    var chartARect: Option<Rect>
    var chartBRect: Option<Rect>

    constructor (insetsTop: real)
      ensures this.insetsTop == insetsTop
      ensures pageTitle == "Template 2" && titleInput == "Template 2" && initialSlots == None
      ensures lvSettings == map[] && docked == Docked(None, None) && floating == [] && hovered == None
      ensures !modalVisible && lastSavedAt == None && chartARect == None && chartBRect == None
    {
      this.insetsTop := insetsTop;
      pageTitle := "Template 2";
      titleInput := "Template 2";
      initialSlots := None;
      lvSettings := map[];
      docked := Docked(None, None);
      floating := [];
      hovered := None;
      modalVisible := false;
      lastSavedAt := None;
      chartARect := None;
      chartBRect := None;
    }

    /** Where new and undocked charts appear: `(16, max(140, insets.top + 96))`. */
    function SpawnY(): (y: real)
      ensures y >= 140.0 && y >= insetsTop + 96.0
    {
      Max(140.0, insetsTop + 96.0)
    }

    /** `whichZoneSync(x, y)`. */
    function WhichZone(x: real, y: real): (z: Option<Zone>)
      reads this
      ensures z == Some(First) <==> PointInRect(x, y, chartARect)
      ensures z == Some(Second) ==> PointInRect(x, y, chartBRect)
    {
      ZoneAt(chartARect, chartBRect, x, y)
    }

    /** The load effect: restore what was stored, or start from the four default slots. */
    method Load(stored: Stored)
      modifies this
      ensures stored.Parsed? ==>
                var st := stored.state;
                initialSlots == Some(LoadedLVSlots(st.slots))
                && pageTitle == st.pageTitle.GetOr("Template 2") && titleInput == pageTitle
                && lvSettings == st.lvSettings.GetOr(map[])
                && docked == st.chartSlots.GetOr(old(docked))
                && floating == st.floatingCharts.GetOr(old(floating))
                && lastSavedAt == st.lastSavedAt
      ensures !stored.Parsed? ==>
                initialSlots == Some(DefaultLVSlots())
                && pageTitle == old(pageTitle) && titleInput == old(titleInput) && lvSettings == old(lvSettings)
                && docked == old(docked) && floating == old(floating) && lastSavedAt == old(lastSavedAt)
      ensures hovered == old(hovered) && modalVisible == old(modalVisible)
      ensures chartARect == old(chartARect) && chartBRect == old(chartBRect)
    {
      if stored.Parsed? {
        var st := stored.state;
        initialSlots := Some(LoadedLVSlots(st.slots));
        pageTitle := st.pageTitle.GetOr("Template 2");
        titleInput := st.pageTitle.GetOr("Template 2");
        lvSettings := st.lvSettings.GetOr(map[]);
        if st.chartSlots.Some? {
          docked := st.chartSlots.value;
        }
        if st.floatingCharts.Some? {
          floating := st.floatingCharts.value;
        }
        lastSavedAt := st.lastSavedAt;
        return;
      }
      initialSlots := Some(DefaultLVSlots());
    }

    /** `LVSlot`'s `onApply`: store the payload under the card's widget id. */
    method ApplyLV(widgetId: string, payload: LVSettings)
      modifies this`lvSettings
      ensures lvSettings == old(lvSettings)[widgetId := Some(payload)]
      ensures SettingsFor(lvSettings, widgetId) == Some(payload)
      ensures forall w :: w != widgetId ==> SettingsFor(lvSettings, w) == SettingsFor(old(lvSettings), w)
    {
      lvSettings := lvSettings[widgetId := Some(payload)];
    }

    /** `LVSlot`'s `onClear`: the card's entry becomes `null`. */
    method ClearLV(widgetId: string)
      modifies this`lvSettings
      ensures lvSettings == old(lvSettings)[widgetId := None]
      ensures SettingsFor(lvSettings, widgetId) == None
      ensures forall w :: w != widgetId ==> SettingsFor(lvSettings, w) == SettingsFor(old(lvSettings), w)
    {
      lvSettings := lvSettings[widgetId := None];
    }

    /** `handleApplySettings(settings, editingId)`, spawning new charts at `(16, SpawnY())`. */
    method HandleApplySettings(st: Settings, editingId: Option<string>, freshId: string, color: string) returns (accepted: bool)
      modifies this`docked, this`floating, this`modalVisible
      ensures accepted == Complete(st)
      ensures !accepted ==> docked == old(docked) && floating == old(floating) && modalVisible == old(modalVisible)
      ensures accepted && Truthy(editingId) ==>
                docked == ApplyEdit(old(docked), editingId.value, st) && floating == old(floating) && !modalVisible
      ensures accepted && !Truthy(editingId) ==>
                docked == old(docked) && floating == old(floating) + [NewChart(st, freshId, color, 16.0, SpawnY())]
                && !modalVisible
    {
      if !Complete(st) {
        return false;
      }
      if Truthy(editingId) {
        docked := ApplyEdit(docked, editingId.value, st);
        modalVisible := false;
        return true;
      }
      floating := floating + [NewChart(st, freshId, color, 16.0, SpawnY())];
      modalVisible := false;
      return true;
    }

    /** `attachToSlot(chartId, zone)`. */
    method AttachToSlot(chartId: string, zone: Zone)
      modifies this`docked, this`floating, this`hovered
      ensures (docked, floating) == Attach(old(docked), old(floating), chartId, zone)
      ensures hovered == if FindChart(old(floating), chartId).None? then old(hovered) else None
    {
      var item := FindChart(floating, chartId);
      if item.None? {
        return;
      }
      var r := Attach(docked, floating, chartId, zone);
      docked := r.0;
      floating := r.1;
      hovered := None;
    }

    /** A floating chart released at a point: `onDropGesture`, then `onDrop` when a zone was hit. */
    method DropChartAt(chartId: string, absX: real, absY: real)
      modifies this`docked, this`floating, this`hovered
      ensures WhichZone(absX, absY).None? ==> docked == old(docked) && floating == old(floating) && hovered == old(hovered)
      ensures WhichZone(absX, absY).Some? ==>
                (docked, floating) == Attach(old(docked), old(floating), chartId, WhichZone(absX, absY).value)
    {
      var name := DropNameOf(WhichZone(absX, absY));
      if name.Some? {
        DropNameRoundTrip(WhichZone(absX, absY).value);
        AttachToSlot(chartId, ZoneOfDropName(name.value));
      }
    }

    /** `removeFromSlot(zone)`. */
    method RemoveFromSlot(zone: Zone)
      modifies this`docked
      ensures docked == Remove(old(docked), zone)
    {
      docked := Remove(docked, zone);
    }

    /** `undockFromSlot(zone)`. */
    method UndockFromSlot(zone: Zone)
      modifies this`docked, this`floating
      ensures (docked, floating) == Undock(old(docked), old(floating), zone, 16.0, SpawnY())
      ensures docked.Occupied() + |floating| == old(docked.Occupied()) + |old(floating)|
    {
      var cfg := docked.Get(zone);
      if cfg.None? {
        return;
      }
      floating := floating + [FloatingChart(cfg.value.id, cfg.value, 16.0, SpawnY())];
      RemoveFromSlot(zone);
    }
  }
}
