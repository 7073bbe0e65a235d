/** A draggable card: a pan responder that drives the drag-and-drop provider. */
module DraggableCard {
  import opened Options
  import opened Geometry
  import opened Numbers
  import opened DragDrop

  /** Movement, in points, below which a touch stays a tap. */
  const Threshold: real := 6.0

  /** `onMoveShouldSetPanResponder`: claim once the Manhattan distance exceeds the threshold. */
  predicate ClaimsMove(dx: real, dy: real)
  {
    Abs(dx) + Abs(dy) > Threshold
  }

  /** A movement of at most 3 points on each axis never claims; more than 6 on one axis always does. */
  lemma ClaimNeedsTravel(dx: real, dy: real)
    ensures -3.0 <= dx <= 3.0 && -3.0 <= dy <= 3.0 ==> !ClaimsMove(dx, dy)
    ensures (dx > Threshold || dx < -Threshold || dy > Threshold || dy < -Threshold) ==> ClaimsMove(dx, dy)
  {
  }

  /** The hover the card ends on after a sequence of moves; with no move it is the one it started with. */
  ghost function LastHover(start: Option<SlotId>, moves: seq<(real, real)>, order: seq<SlotId>, frames: map<SlotId, Rect>): Option<SlotId>
  {
    if moves == [] then start else FirstHit(order, frames, moves[|moves| - 1].0, moves[|moves| - 1].1)
  }

  /** One mounted `DraggableCard` and the provider it talks to. */
  class Card {
    const provider: Provider
    const widgetId: string
    const widgetType: WidgetType
    const fromSlotId: SlotId

    constructor (provider: Provider, widgetId: string, widgetType: WidgetType, fromSlotId: SlotId)
      ensures this.provider == provider && this.widgetId == widgetId && this.widgetType == widgetType
      ensures this.fromSlotId == fromSlotId
    {
      this.provider := provider;
      this.widgetId := widgetId;
      this.widgetType := widgetType;
      this.fromSlotId := fromSlotId;
    }

    /** The token the card hands to `beginDrag`. */
    function Token(): (t: DragToken)
      ensures t.widgetId == widgetId && t.from == fromSlotId && t.kind == widgetType
    {
      DragToken(widgetId, fromSlotId, widgetType)
    }

    /** `onPanResponderGrant`: start a drag of this card's widget from its slot. */
    method Grant()
      requires provider.Valid()
      modifies provider
      ensures provider.Valid()
      ensures provider.drag == Some(Token()) && provider.scrollLocked
      ensures provider.slots == old(provider.slots) && provider.hovered == old(provider.hovered)
      ensures provider.meta == old(provider.meta) && provider.metaOrder == old(provider.metaOrder)
    {
      provider.BeginDrag(Token());
    }

    /** `onPanResponderMove`: recompute the hover at the finger's screen position. */
    method Move(moveX: real, moveY: real)
      requires provider.Valid()
      modifies provider`hovered
      ensures provider.hovered == FirstHit(provider.metaOrder, provider.Frames(), moveX, moveY)
    {
      provider.UpdateHover(moveX, moveY);
    }

    /** `onPanResponderRelease`: finish the drag, dropping on the hovered slot. */
    method Release()
      requires provider.Valid()
      modifies provider
      ensures provider.Valid()
      ensures provider.drag == None
      ensures old(provider.drag).None? ==> provider.slots == old(provider.slots)
      ensures old(provider.drag).Some? ==>
                provider.slots == SwapUpdate(old(provider.slots), old(provider.drag).value, old(provider.hovered), old(provider.meta))
                && provider.hovered == None && !provider.scrollLocked
      ensures provider.meta == old(provider.meta) && provider.metaOrder == old(provider.metaOrder)
    {
      provider.FinishDrag();
    }

    /** `onPanResponderTerminate`: the gesture was taken away; the slots are left as they were. */
    method Terminate()
      requires provider.Valid()
      modifies provider
      ensures provider.Valid()
      ensures provider.slots == old(provider.slots)
      ensures provider.drag == None && provider.hovered == None && !provider.scrollLocked
      ensures provider.meta == old(provider.meta) && provider.metaOrder == old(provider.metaOrder)
    {
      provider.CancelDrag();
    }

    /**
     * A whole gesture: grant, the moves, then a release (`released`) or a
     * termination. A terminated gesture never changes the slots; a released one
     * drops this card's widget on the slot hovered after the last move.
     */
    method Drag(moves: seq<(real, real)>, released: bool)
      requires provider.Valid()
      modifies provider
      ensures provider.Valid()
      ensures provider.drag == None && provider.hovered == None && !provider.scrollLocked
      ensures provider.meta == old(provider.meta) && provider.metaOrder == old(provider.metaOrder)
      ensures !released ==> provider.slots == old(provider.slots)
      ensures released ==>
                provider.slots == SwapUpdate(old(provider.slots), Token(),
                                             LastHover(old(provider.hovered), moves, provider.metaOrder, provider.Frames()),
                                             provider.meta)
    {
      Grant();
      for i := 0 to |moves|
        invariant provider.Valid()
        invariant provider.drag == Some(Token())
        invariant provider.slots == old(provider.slots)
        invariant provider.meta == old(provider.meta) && provider.metaOrder == old(provider.metaOrder)
        invariant provider.hovered == LastHover(old(provider.hovered), moves[..i], provider.metaOrder, provider.Frames())
      {
        Move(moves[i].0, moves[i].1);
        assert moves[..i + 1][i] == moves[i];
      }
      assert moves[..|moves|] == moves;
      if released {
        Release();
      } else {
        Terminate();
      }
    }
  }
}
