/** Axis-aligned rectangles in screen coordinates and the hit tests run against them. */
module Geometry {
  import opened Options

  /** `LayoutRectangle` / `SlotRect`: origin and size in absolute screen coordinates. */
  datatype Rect = Rect(x: real, y: real, width: real, height: real)

  /** Inclusive containment: a point on any edge is inside. */
  predicate Contains(r: Rect, px: real, py: real) {
    px >= r.x && px <= r.x + r.width && py >= r.y && py <= r.y + r.height
  }

  /** `pointInRect(x, y, r)` / `isInside(r, x, y)`: false for a missing rect. */
  predicate PointInRect(px: real, py: real, r: Option<Rect>) {
    r.Some? && Contains(r.value, px, py)
  }

  /** Every corner of a rectangle of non-negative size is inside it, and a point one unit beyond an edge is not. */
  lemma EdgesAreInside(r: Rect)
    requires r.width >= 0.0 && r.height >= 0.0
    ensures PointInRect(r.x, r.y, Some(r))
    ensures PointInRect(r.x + r.width, r.y, Some(r))
    ensures PointInRect(r.x, r.y + r.height, Some(r))
    ensures PointInRect(r.x + r.width, r.y + r.height, Some(r))
    ensures !PointInRect(r.x - 1.0, r.y, Some(r)) && !PointInRect(r.x + r.width + 1.0, r.y, Some(r))
    ensures !PointInRect(r.x, r.y - 1.0, Some(r)) && !PointInRect(r.x, r.y + r.height + 1.0, Some(r))
  {
  }

  /** The key `k` has a registered frame that contains the point. */
  predicate Hits<K>(frames: map<K, Rect>, k: K, px: real, py: real) {
    k in frames && Contains(frames[k], px, py)
  }

  /**
   * Index of the first key, in iteration order, whose frame contains the point;
   * `|keys|` when there is none.
   */
  function FirstHitIndex<K>(keys: seq<K>, frames: map<K, Rect>, px: real, py: real): (j: nat)
    ensures j <= |keys|
    ensures j < |keys| ==> Hits(frames, keys[j], px, py)
    ensures forall i :: 0 <= i < j ==> !Hits(frames, keys[i], px, py)
  {
    if keys == [] then 0
    else if Hits(frames, keys[0], px, py) then 0
    else 1 + FirstHitIndex(keys[1..], frames, px, py)
  }

  /** A scan that has passed `i` misses and stops at a hit (or at the end) has found the first hit. */
  lemma {:induction false} FirstHitIndexIs<K>(keys: seq<K>, frames: map<K, Rect>, px: real, py: real, i: nat)
    requires i <= |keys|
    requires forall j :: 0 <= j < i ==> !Hits(frames, keys[j], px, py)
    requires i < |keys| ==> Hits(frames, keys[i], px, py)
    ensures FirstHitIndex(keys, frames, px, py) == i
  {
    if keys != [] && i > 0 {
      assert !Hits(frames, keys[0], px, py);
      assert forall j :: 0 <= j < i - 1 ==> keys[1..][j] == keys[j + 1];
      FirstHitIndexIs(keys[1..], frames, px, py, i - 1);
    }
  }

  /** The first key, in iteration order, whose frame contains the point (the for-loop with an early exit). */
  function FirstHit<K>(keys: seq<K>, frames: map<K, Rect>, px: real, py: real): Option<K> {
    var j := FirstHitIndex(keys, frames, px, py);
    if j < |keys| then Some(keys[j]) else None
  }

  /** A hit is a registered key whose frame contains the point, and no key before it in the order is one. */
  lemma FirstHitSound<K>(keys: seq<K>, frames: map<K, Rect>, px: real, py: real)
    requires FirstHit(keys, frames, px, py).Some?
    ensures var k := FirstHit(keys, frames, px, py).value;
      k in frames && Contains(frames[k], px, py)
      && exists j :: 0 <= j < |keys| && keys[j] == k && forall i :: 0 <= i < j ==> !Hits(frames, keys[i], px, py)
  {
    var j := FirstHitIndex(keys, frames, px, py);
    assert keys[j] == FirstHit(keys, frames, px, py).value;
  }

  /** There is no hit exactly when no key in the order has a frame containing the point. */
  lemma FirstHitNone<K>(keys: seq<K>, frames: map<K, Rect>, px: real, py: real)
    ensures FirstHit(keys, frames, px, py).None? <==> forall i :: 0 <= i < |keys| ==> !Hits(frames, keys[i], px, py)
  {
  }

  /** A key without a frame is never the hit: once a slot's frame is removed, no query returns it. */
  lemma FirstHitNeverUnregistered<K>(keys: seq<K>, frames: map<K, Rect>, px: real, py: real, k: K)
    requires k !in frames
    ensures FirstHit(keys, frames, px, py) != Some(k)
  {
  }
}
