/**
 * The drag-and-drop slot engine: the provider that owns the slot map, the
 * measured slot frames, the current drag token and the hovered slot.
 */
module DragDrop {
  import opened Options
  import opened Geometry
  import opened Seqs

  type SlotId = string
  type WidgetType = string

  /** A drop target and the widget it currently holds. */
  datatype Slot = Slot(id: SlotId, accepts: seq<WidgetType>, widgetId: Option<string>)

  /** What is being dragged: the widget, the slot it left, and its kind (`type` in the source). */
  datatype DragToken = DragToken(widgetId: string, from: SlotId, kind: WidgetType)

  /** Measurements and accept list a slot has reported; both parts optional. */
  datatype SlotMeta = SlotMeta(frame: Option<Rect>, accepts: Option<seq<WidgetType>>)

  /** A partial `SlotMeta`: `None` means the caller did not supply that field. */
  datatype MetaPatch = MetaPatch(frame: Option<Rect>, accepts: Option<seq<WidgetType>>)

  /** The initial slot map: `initialSlots.forEach(s => map[s.id] = {...s})`. */
  function SlotsFrom(initial: seq<Slot>): (m: map<SlotId, Slot>)
    ensures forall i :: 0 <= i < |initial| ==> initial[i].id in m
    ensures forall k :: k in m ==> exists i :: 0 <= i < |initial| && initial[i].id == k && m[k] == initial[i]
  {
    if initial == [] then map[]
    else
      var prefix := initial[..|initial| - 1];
      var last := initial[|initial| - 1];
      var m := SlotsFrom(prefix)[last.id := last];
      assert forall i :: 0 <= i < |prefix| ==> prefix[i] == initial[i];
      m
  }

  /** When an id occurs more than once, the slot that comes last is the one kept. */
  lemma {:induction false} SlotsFromLastWins(initial: seq<Slot>, j: nat)
    requires j < |initial|
    requires forall i :: j < i < |initial| ==> initial[i].id != initial[j].id
    ensures SlotsFrom(initial)[initial[j].id] == initial[j]
  {
    if j < |initial| - 1 {
      var prefix := initial[..|initial| - 1];
      assert prefix[j] == initial[j];
      SlotsFromLastWins(prefix, j);
    }
  }

  /** Merge into an existing meta entry (or `{}`) the fields the patch supplies. */
  function MergeMeta(existing: Option<SlotMeta>, patch: MetaPatch): (m: SlotMeta)
    ensures patch.frame.Some? ==> m.frame == patch.frame
    ensures patch.accepts.Some? ==> m.accepts == patch.accepts
    ensures patch.frame.None? ==> m.frame == (if existing.Some? then existing.value.frame else None)
    ensures patch.accepts.None? ==> m.accepts == (if existing.Some? then existing.value.accepts else None)
  {
    var base := existing.GetOr(SlotMeta(None, None));
    SlotMeta(if patch.frame.Some? then patch.frame else base.frame,
             if patch.accepts.Some? then patch.accepts else base.accepts)
  }

  /** `!hoveredSlotId`: a missing hover or the empty string are both falsy. */
  predicate NoTarget(hover: Option<SlotId>)
  {
    hover.None? || hover.value == ""
  }

  /** The target's reported accept list, when there is one, excludes the token's kind. */
  predicate Rejects(meta: map<SlotId, SlotMeta>, target: SlotId, kind: WidgetType)
  {
    target in meta && meta[target].accepts.Some? && kind !in meta[target].accepts.value
  }

  /** The drop is carried out: a real target other than the origin, accepted, both slots present. */
  predicate Commits(prev: map<SlotId, Slot>, drag: DragToken, hover: Option<SlotId>, meta: map<SlotId, SlotMeta>)
  {
    !NoTarget(hover) && hover.value != drag.from && !Rejects(meta, hover.value, drag.kind)
    && drag.from in prev && hover.value in prev
  }

  /**
   * The state updater `finishDrag` passes to `setSlots`: when the drop commits,
   * the target receives the dragged widget and the origin receives whatever the
   * target held (nothing, if it was empty); otherwise `prev` is returned as is.
   */
  function SwapUpdate(prev: map<SlotId, Slot>, drag: DragToken, hover: Option<SlotId>, meta: map<SlotId, SlotMeta>): (r: map<SlotId, Slot>)
    ensures !Commits(prev, drag, hover, meta) ==> r == prev
    ensures r.Keys == prev.Keys
    ensures forall k :: k in r ==> r[k].id == prev[k].id && r[k].accepts == prev[k].accepts
    ensures forall k :: k in r && k != drag.from && (hover.None? || k != hover.value) ==> r[k] == prev[k]
    ensures Commits(prev, drag, hover, meta) ==>
              r[hover.value].widgetId == Some(drag.widgetId) && r[drag.from].widgetId == prev[hover.value].widgetId
  {
    if NoTarget(hover) || hover.value == drag.from then prev
    else if Rejects(meta, hover.value, drag.kind) then prev
    else if drag.from !in prev || hover.value !in prev then prev
    else
      var to := hover.value;
      var tmp := prev[to].widgetId;
      prev[to := prev[to].(widgetId := Some(drag.widgetId))][drag.from := prev[drag.from].(widgetId := tmp)]
  }

  /**
   * A committed drop of the widget its origin really holds exchanges the two
   * slots' contents: no widget appears or disappears.
   */
  lemma SwapConservesWidgets(prev: map<SlotId, Slot>, drag: DragToken, hover: Option<SlotId>, meta: map<SlotId, SlotMeta>)
    requires Commits(prev, drag, hover, meta)
    requires prev[drag.from].widgetId == Some(drag.widgetId)
    ensures var r := SwapUpdate(prev, drag, hover, meta);
            multiset{r[drag.from].widgetId, r[hover.value].widgetId}
            == multiset{prev[drag.from].widgetId, prev[hover.value].widgetId}
  {
  }

  /** Dragging the widget straight back to where it came from restores the slot map. */
  lemma SwapBackRestores(prev: map<SlotId, Slot>, drag: DragToken, to: SlotId, meta: map<SlotId, SlotMeta>)
    requires Commits(prev, drag, Some(to), meta)
    requires prev[drag.from].widgetId == Some(drag.widgetId)
    requires !Rejects(meta, drag.from, drag.kind) && drag.from != ""
    ensures SwapUpdate(SwapUpdate(prev, drag, Some(to), meta), DragToken(drag.widgetId, to, drag.kind), Some(drag.from), meta) == prev
  {
    var r1 := SwapUpdate(prev, drag, Some(to), meta);
    var back := DragToken(drag.widgetId, to, drag.kind);
    assert Commits(r1, back, Some(drag.from), meta);
    var r2 := SwapUpdate(r1, back, Some(drag.from), meta);
    assert r2[to] == prev[to];
    assert r2[drag.from] == prev[drag.from];
  }

  /** The `DragDropProvider` component's state and refs. */
  class Provider {
    /** `slots` state. */
    var slots: map<SlotId, Slot>
    /** `slotMetaRef.current` and the order in which `for…in` visits its keys. */
    var metaOrder: seq<SlotId>
    var meta: map<SlotId, SlotMeta>
    /** `dragRef.current`. */
    var drag: Option<DragToken>
    /** `hoveredSlotId` state. */
    var hovered: Option<SlotId>
    /** The last value handed to the `setScrollLocked` callback. */
    var scrollLocked: bool

    ghost predicate Valid()
      reads this
    {
      Distinct(metaOrder) && (forall k :: k in meta <==> k in metaOrder)
    }

    /** The frames measured so far, keyed by slot; slots without a frame are absent. */
    ghost function Frames(): map<SlotId, Rect>
      reads this
    {
      map k | k in meta && meta[k].frame.Some? :: meta[k].frame.value
    }

    constructor (initialSlots: seq<Slot>)
      ensures Valid()
      ensures slots == SlotsFrom(initialSlots)
      ensures metaOrder == [] && meta == map[] && drag == None && hovered == None && !scrollLocked
    {
      var m: map<SlotId, Slot> := map[];
      for i := 0 to |initialSlots|
        invariant m == SlotsFrom(initialSlots[..i])
      {
        assert initialSlots[..i + 1][..i] == initialSlots[..i];
        m := m[initialSlots[i].id := initialSlots[i]];
      }
      assert initialSlots[..|initialSlots|] == initialSlots;
      slots := m;
      metaOrder := [];
      meta := map[];
      drag := None;
      hovered := None;
      scrollLocked := false;
    }

    /** `beginDrag(payload)`: remember the token and lock scrolling. */
    method BeginDrag(payload: DragToken)
      modifies this
      ensures drag == Some(payload) && scrollLocked
      ensures slots == old(slots) && meta == old(meta) && metaOrder == old(metaOrder) && hovered == old(hovered)
    {
      drag := Some(payload);
      scrollLocked := true;
    }

    /**
     * `updateHover(x, y)`: the hovered slot becomes the first slot, in meta
     * insertion order, whose frame contains the point; `None` when no frame does.
     * Accept lists play no part here.
     */
    method UpdateHover(x: real, y: real)
      requires Valid()
      modifies this`hovered
      ensures hovered == FirstHit(metaOrder, Frames(), x, y)
      ensures hovered.Some? ==> hovered.value in meta && PointInRect(x, y, meta[hovered.value].frame)
      ensures hovered.None? <==> forall k :: k in meta ==> !PointInRect(x, y, meta[k].frame)
    {
      var i := 0;
      while i < |metaOrder|
        invariant 0 <= i <= |metaOrder|
        invariant forall j :: 0 <= j < i ==> !Hits(Frames(), metaOrder[j], x, y)
      {
        var sid := metaOrder[i];
        var fr := meta[sid].frame;
        if PointInRect(x, y, fr) {
          FirstHitIndexIs(metaOrder, Frames(), x, y, i);
          hovered := Some(sid);
          return;
        }
        i := i + 1;
      }
      FirstHitIndexIs(metaOrder, Frames(), x, y, i);
      hovered := None;
      forall k | k in meta ensures !PointInRect(x, y, meta[k].frame) {
        var j :| 0 <= j < |metaOrder| && metaOrder[j] == k;
      }
    }

    /**
     * `finishDrag()`: without a drag token nothing happens; otherwise scrolling
     * is unlocked, the slot map goes through `SwapUpdate` with the current
     * hover, and drag and hover are cleared.
     */
    method FinishDrag()
      modifies this
      ensures old(drag).None? ==> slots == old(slots) && drag == None && hovered == old(hovered) && scrollLocked == old(scrollLocked)
      ensures old(drag).Some? ==>
                slots == SwapUpdate(old(slots), old(drag).value, old(hovered), old(meta))
                && drag == None && hovered == None && !scrollLocked
      ensures meta == old(meta) && metaOrder == old(metaOrder)
    {
      if drag.None? {
        return;
      }
      scrollLocked := false;
      slots := SwapUpdate(slots, drag.value, hovered, meta);
      drag := None;
      hovered := None;
    }

    /** `cancelDrag()`: clear drag and hover, unlock scrolling; the slots stay as they are. */
    method CancelDrag()
      modifies this
      ensures drag == None && hovered == None && !scrollLocked
      ensures slots == old(slots) && meta == old(meta) && metaOrder == old(metaOrder)
    {
      drag := None;
      hovered := None;
      scrollLocked := false;
    }

    /** `setSlotFrame(id, rect)`: record the frame, keeping the slot's accept list. */
    method SetSlotFrame(id: SlotId, rect: Rect)
      requires Valid()
      modifies this`meta, this`metaOrder
      ensures Valid()
      ensures meta == old(meta)[id := SlotMeta(Some(rect), if id in old(meta) then old(meta)[id].accepts else None)]
      ensures metaOrder == if id in old(meta) then old(metaOrder) else old(metaOrder) + [id]
    {
      UpsertSlotMeta(id, MetaPatch(Some(rect), None));
    }

    /** `upsertSlotMeta(id, patch)`: supplied fields replace, the others are kept. */
    method UpsertSlotMeta(id: SlotId, patch: MetaPatch)
      requires Valid()
      modifies this`meta, this`metaOrder
      ensures Valid()
      ensures meta == old(meta)[id := MergeMeta(if id in old(meta) then Some(old(meta)[id]) else None, patch)]
      ensures metaOrder == if id in old(meta) then old(metaOrder) else old(metaOrder) + [id]
    {
      var existing := if id in meta then Some(meta[id]) else None;
      if id !in meta {
        metaOrder := metaOrder + [id];
      }
      meta := meta[id := MergeMeta(existing, patch)];
    }
  }
}
