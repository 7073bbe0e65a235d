/** The module-level frame registry: slot id -> last measured screen rectangle. */
module SlotRegistry {
  import opened Options
  import opened Geometry
  import opened Seqs

  type SlotId = string

  /**
   * The `frames` record. `order` is the iteration order of its keys: a new key is
   * added at the end, overwriting a key keeps its place, `delete` removes it.
   */
  class Registry {
    var order: seq<SlotId>
    var frames: map<SlotId, Rect>

    ghost predicate Valid()
      reads this
    {
      Distinct(order) && (forall k :: k in frames <==> k in order)
    }

    constructor ()
      ensures Valid() && order == [] && frames == map[]
    {
      order := [];
      frames := map[];
    }

    /** `registerSlotFrame(id, rect)`: store `rect` for `id`; every other id keeps its frame. */
    method RegisterSlotFrame(id: SlotId, rect: Rect)
      requires Valid()
      modifies this
      ensures Valid()
      ensures frames == old(frames)[id := rect]
      ensures order == if id in old(frames) then old(order) else old(order) + [id]
    {
      if id !in frames {
        order := order + [id];
      }
      frames := frames[id := rect];
    }

    /** `unregisterSlotFrame(id)`: `delete frames[id]`. */
    method UnregisterSlotFrame(id: SlotId)
      requires Valid()
      modifies this
      ensures Valid()
      ensures frames == old(frames) - {id} && id !in frames
      ensures order == RemoveAll(old(order), id)
    {
      RemoveAllDistinct(order, id);
      order := RemoveAll(order, id);
      frames := frames - {id};
    }

    /**
     * `getSlotAtPoint(x, y)`: the first id, in insertion order, whose rectangle
     * contains the point with all four edges included; `None` when none does.
     */
    method GetSlotAtPoint(x: real, y: real) returns (r: Option<SlotId>)
      requires Valid()
      ensures r == FirstHit(order, frames, x, y)
      ensures r.Some? ==> r.value in frames && Contains(frames[r.value], x, y)
      ensures r.None? <==> forall k :: k in frames ==> !Contains(frames[k], x, y)
    {
      var i := 0;
      while i < |order|
        invariant 0 <= i <= |order|
        invariant forall j :: 0 <= j < i ==> !Hits(frames, order[j], x, y)
      {
        var id := order[i];
        var rect := frames[id];
        if x >= rect.x && x <= rect.x + rect.width && y >= rect.y && y <= rect.y + rect.height {
          FirstHitIndexIs(order, frames, x, y, i);
          return Some(id);
        }
        i := i + 1;
      }
      FirstHitIndexIs(order, frames, x, y, i);
      r := None;
      forall k | k in frames ensures !Contains(frames[k], x, y) {
        var j :| 0 <= j < |order| && order[j] == k;
      }
    }
  }
}
