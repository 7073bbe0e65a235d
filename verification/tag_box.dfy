/** Draggable tag boxes that swap places when one is dropped on another. */
module TagBox {
  import opened Options
  import opened Geometry
  import opened Seqs

  /** The shared `boxRects` ref: box id -> layout rectangle, with key insertion order. */
  class Board {
    var order: seq<string>
    var rects: map<string, Rect>

    ghost predicate Valid()
      reads this
    {
      Distinct(order) && (forall k :: k in rects <==> k in order)
    }

    constructor ()
      ensures Valid() && order == [] && rects == map[]
    {
      order := [];
      rects := map[];
    }
  }

  /**
   * The box a drop at the point lands on: the first other box, in key order,
   * whose rectangle contains it (edges included).
   */
  ghost function DropTarget(board: Board, self: string, x: real, y: real): Option<string>
    reads board
  {
    FirstHit(board.order, board.rects - {self}, x, y)
  }

  /** A box is never swapped with itself, and only with a box that is on the board and under the point. */
  lemma DropTargetIsAnotherBox(board: Board, self: string, x: real, y: real)
    ensures var t := DropTarget(board, self, x, y);
            t.Some? ==> t.value != self && t.value in board.rects && Contains(board.rects[t.value], x, y)
  {
    FirstHitNeverUnregistered(board.order, board.rects - {self}, x, y, self);
    var t := DropTarget(board, self, x, y);
    if t.Some? {
      FirstHitSound(board.order, board.rects - {self}, x, y);
    }
  }

  /** One `DraggableTagBox`: its translation shared values, gesture context and dragging flag. */
  class Box {
    const id: string
    const board: Board
    var translateX: real
    var translateY: real
    /** `ctx.offsetX` / `ctx.offsetY` of the gesture handler. */
    var offsetX: real
    var offsetY: real
    var dragging: bool

    constructor (id: string, board: Board)
      ensures this.id == id && this.board == board
      ensures translateX == 0.0 && translateY == 0.0 && !dragging
    {
      this.id := id;
      this.board := board;
      translateX := 0.0;
      translateY := 0.0;
      offsetX := 0.0;
      offsetY := 0.0;
      dragging := false;
    }

    /** `onStart`: remember where the box is and mark it as dragged. */
    method OnStart()
      modifies this
      ensures offsetX == old(translateX) && offsetY == old(translateY) && dragging
      ensures translateX == old(translateX) && translateY == old(translateY)
    {
      offsetX := translateX;
      offsetY := translateY;
      dragging := true;
    }

    /** `onActive`: follow the finger from the remembered offset. */
    method OnActive(translationX: real, translationY: real)
      modifies this`translateX, this`translateY
      ensures translateX == offsetX + translationX && translateY == offsetY + translationY
    {
      translateX := offsetX + translationX;
      translateY := offsetY + translationY;
    }

    /**
     * `onEnd`: the box is released at an absolute point. The result is the
     * `onSwap(id, key)` call made, if any (at most one); the box then springs
     * back to its resting place.
     */
    method OnEnd(absoluteX: real, absoluteY: real) returns (swap: Option<(string, string)>)
      requires board.Valid()
      modifies this`dragging, this`translateX, this`translateY
      ensures !dragging && translateX == 0.0 && translateY == 0.0
      ensures var t := DropTarget(board, id, absoluteX, absoluteY);
              swap == if t.Some? then Some((id, t.value)) else None
      ensures swap.Some? ==> swap.value.0 == id && swap.value.1 != id
    {
      dragging := false;
      swap := None;
      var frames := board.rects - {id};
      var i := 0;
      while i < |board.order|
        invariant 0 <= i <= |board.order|
        invariant forall j :: 0 <= j < i ==> !Hits(frames, board.order[j], absoluteX, absoluteY)
      {
        var key := board.order[i];
        if key != id {
          var rect := board.rects[key];
          if absoluteX >= rect.x && absoluteX <= rect.x + rect.width
             && absoluteY >= rect.y && absoluteY <= rect.y + rect.height {
            FirstHitIndexIs(board.order, frames, absoluteX, absoluteY, i);
            swap := Some((id, key));
            break;
          }
        }
        i := i + 1;
      }
      if swap.None? {
        FirstHitIndexIs(board.order, frames, absoluteX, absoluteY, i);
      }
      translateX := 0.0;
      translateY := 0.0;
    }

    /** `onLayout`: record this box's rectangle in the shared board. */
    method OnLayout(x: real, y: real, width: real, height: real)
      requires board.Valid()
      modifies board
      ensures board.Valid()
      ensures board.rects == old(board.rects)[id := Rect(x, y, width, height)]
      ensures board.order == if id in old(board.rects) then old(board.order) else old(board.order) + [id]
    {
      if id !in board.rects {
        board.order := board.order + [id];
      }
      board.rects := board.rects[id := Rect(x, y, width, height)];
    }
  }
}
