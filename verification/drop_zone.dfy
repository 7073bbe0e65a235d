/** A drop zone: measures itself, re-registers only on a real change, reports hover edges. */
module DropZone {
  import opened Options
  import opened Geometry
  import opened Numbers
  import opened DragDrop

  /** Default tolerance of `rectChanged`, in points. */
  const Eps: real := 0.5

  /** `rectChanged(a, b)`: a missing rectangle counts as a change; otherwise some edge moved by more than `Eps`. */
  function RectChanged(a: Option<Rect>, b: Option<Rect>): (changed: bool)
    ensures a.None? || b.None? ==> changed
  {
    if a.None? || b.None? then true
    else
      Abs(a.value.x - b.value.x) > Eps || Abs(a.value.y - b.value.y) > Eps
      || Abs(a.value.width - b.value.width) > Eps || Abs(a.value.height - b.value.height) > Eps
  }

  /** Sub-threshold jitter is not a change, in either argument order. */
  lemma JitterIsNoChange(a: Rect, b: Rect)
    requires Abs(a.x - b.x) <= Eps && Abs(a.y - b.y) <= Eps
    requires Abs(a.width - b.width) <= Eps && Abs(a.height - b.height) <= Eps
    ensures !RectChanged(Some(a), Some(b)) && !RectChanged(Some(b), Some(a))
  {
  }

  /** The comparison is symmetric, and a rectangle never differs from itself. */
  lemma RectChangedSymmetric(a: Option<Rect>, b: Option<Rect>)
    ensures RectChanged(a, b) == RectChanged(b, a)
    ensures a.Some? ==> !RectChanged(a, a)
  {
  }

  /** The slot a zone registers: `widgetId` is `lastValue:<id>`. */
  function Descriptor(id: SlotId, accepts: seq<WidgetType>): (s: Slot)
    ensures s.id == id && s.accepts == accepts
    ensures s.widgetId.Some? && |s.widgetId.value| >= 10 && s.widgetId.value[..10] == "lastValue:" && s.widgetId.value[10..] == id
  {
    Slot(id, accepts, Some("lastValue:" + id))
  }

  /** One mounted `DropZone`: its refs and the registrations it has issued. */
  class Zone {
    const id: SlotId
    const accepts: seq<WidgetType>
    /** `lastRectRef.current`. */
    var lastRect: Option<Rect>
    /** `lastHoverRef.current`. */
    var lastHover: bool
    /** Every `registerSlot(id, descriptor, rect)` call made so far, in order. */
    var registered: seq<(Slot, Rect)>

    constructor (id: SlotId, accepts: seq<WidgetType>)
      ensures this.id == id && this.accepts == accepts
      ensures lastRect == None && !lastHover && registered == []
    {
      this.id := id;
      this.accepts := accepts;
      lastRect := None;
      lastHover := false;
      registered := [];
    }

    /** One `measureAndRegister` callback with the measured rectangle. */
    method Measure(rect: Rect)
      modifies this`lastRect, this`registered
      ensures RectChanged(old(lastRect), Some(rect)) ==>
                lastRect == Some(rect) && registered == old(registered) + [(Descriptor(id, accepts), rect)]
      ensures !RectChanged(old(lastRect), Some(rect)) ==> lastRect == old(lastRect) && registered == old(registered)
      ensures lastRect.Some?
    {
      if RectChanged(lastRect, Some(rect)) {
        lastRect := Some(rect);
        registered := registered + [(Descriptor(id, accepts), rect)];
      }
    }

    /**
     * The hover effect: `onHoverChange` is called (the result) exactly when this
     * zone's hovered status differs from the last one reported.
     */
    method HoverEffect(hoveredSlotId: Option<SlotId>) returns (notified: Option<bool>)
      modifies this`lastHover
      ensures lastHover == (hoveredSlotId == Some(id))
      ensures notified.Some? <==> lastHover != old(lastHover)
      ensures notified.Some? ==> notified.value == lastHover
    {
      var isHover := hoveredSlotId == Some(id);
      notified := None;
      if isHover != lastHover {
        lastHover := isHover;
        notified := Some(isHover);
      }
    }

    /** Measuring the same rectangle twice registers it at most once. */
    method MeasureTwice(rect: Rect)
      modifies this`lastRect, this`registered
      ensures lastRect.Some?
      ensures registered == old(registered) || registered == old(registered) + [(Descriptor(id, accepts), rect)]
    {
      Measure(rect);
      Measure(rect);
    }
  }
}
