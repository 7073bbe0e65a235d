/** The first dashboard screen: floating charts and two chart slots, `slot1` and `slot2`. */
module Template1 {
  import opened Options
  import opened Geometry
  import opened ChartDock

  /** Height of the expanded header. */
  const HeaderExpanded: real := 132.0
  /** Where new and undocked charts appear: `(16, HEADER_EXPANDED + 12)`. */
  const SpawnX: real := 16.0
  const SpawnY: real := HeaderExpanded + 12.0

  /** The screen's chart state. */
  class Screen {
    /** `slots`: `slot1` is `First`, `slot2` is `Second`. */
    var docked: Docked
    /** `floating`. */
    var floating: seq<FloatingChart>
    /** `hoveredSlot`. */
    var hovered: Option<Zone>
    var modalVisible: bool
    /** `slotRects.slot1` and `slotRects.slot2`. */
    var slot1Rect: Option<Rect>
    var slot2Rect: Option<Rect>

    constructor ()
      ensures docked == Docked(None, None) && floating == [] && hovered == None && !modalVisible
      ensures slot1Rect == None && slot2Rect == None
    {
      docked := Docked(None, None);
      floating := [];
      hovered := None;
      modalVisible := false;
      slot1Rect := None;
      slot2Rect := None;
    }

    /** `whichZoneSync(x, y)`. */
    function WhichZone(x: real, y: real): (z: Option<Zone>)
      reads this
      ensures z == Some(First) <==> PointInRect(x, y, slot1Rect)
      ensures z == Some(Second) ==> PointInRect(x, y, slot2Rect)
    {
      ZoneAt(slot1Rect, slot2Rect, x, y)
    }

    /**
     * `handleApplySettings(settings, editingId)`. Incomplete settings are
     * rejected with nothing changed; with an editing id the docked configs with
     * that id are edited; otherwise a new chart (id and colour supplied by the
     * caller) is appended at the spawn point.
     */
    method HandleApplySettings(st: Settings, editingId: Option<string>, freshId: string, color: string) returns (accepted: bool)
      modifies this`docked, this`floating, this`modalVisible
      ensures accepted == Complete(st)
      ensures !accepted ==> docked == old(docked) && floating == old(floating) && modalVisible == old(modalVisible)
      ensures accepted && Truthy(editingId) ==>
                docked == ApplyEdit(old(docked), editingId.value, st) && floating == old(floating) && !modalVisible
      ensures accepted && !Truthy(editingId) ==>
                docked == old(docked) && floating == old(floating) + [NewChart(st, freshId, color, SpawnX, SpawnY)]
                && !modalVisible
    {
      if !Complete(st) {
        return false;
      }
      if Truthy(editingId) {
        docked := ApplyEdit(docked, editingId.value, st);
        modalVisible := false;
        return true;
      }
      floating := floating + [NewChart(st, freshId, color, SpawnX, SpawnY)];
      modalVisible := false;
      return true;
    }

    /** `attachToSlot(chartId, zone)`. */
    method AttachToSlot(chartId: string, zone: Zone)
      modifies this`docked, this`floating, this`hovered
      ensures (docked, floating) == Attach(old(docked), old(floating), chartId, zone)
      ensures hovered == if FindChart(old(floating), chartId).None? then old(hovered) else None
    {
      var item := FindChart(floating, chartId);
      if item.None? {
        return;
      }
      var r := Attach(docked, floating, chartId, zone);
      docked := r.0;
      floating := r.1;
      hovered := None;
    }

    /** `removeFromSlot(zone)`. */
    method RemoveFromSlot(zone: Zone)
      modifies this`docked
      ensures docked == Remove(old(docked), zone)
    {
      docked := Remove(docked, zone);
    }

    /** `undockFromSlot(zone)`. */
    method UndockFromSlot(zone: Zone)
      modifies this`docked, this`floating
      ensures (docked, floating) == Undock(old(docked), old(floating), zone, SpawnX, SpawnY)
      ensures docked.Occupied() + |floating| == old(docked.Occupied()) + |old(floating)|
    {
      var cfg := docked.Get(zone);
      if cfg.None? {
        return;
      }
      floating := floating + [FloatingChart(cfg.value.id, cfg.value, SpawnX, SpawnY)];
      RemoveFromSlot(zone);
    }
  }
}
