/**
 * The floating chart card of the grid dashboard: like the slot card, but also
 * movable in `free` mode, dragged only with one finger, resized in width and
 * height by every pinch, sized in both directions by its slot while docked, and
 * optionally scaled to percentages.
 */
module FloatingChart {
  import opened Options
  import opened Numbers
  import opened ChartWidget

  datatype Mode = Floating | Docked | Free

  /** `isFloating`: both `floating` and `free` cards move on their own. */
  predicate IsFloating(m: Mode) {
    m == Floating || m == Free
  }

  /** What the card plots: the series values after scaling, and the y-domain. */
  datatype Plot = Plot(values: seq<seq<real>>, domain: Domain)

  /**
   * The data path: trim and sanitise, pick the scale mode, normalise, then take
   * the y-domain of every plotted value.
   */
  function PlotOf(labels: seq<string>, data: seq<Dataset>, visual: VisualScale): (p: Plot)
    ensures |p.values| <= 4 && |p.values| <= |data|
    ensures ScaleMode(visual, |p.values|) == MinMax ==>
              p.domain == Domain(0, 100) &&
              forall si, i :: 0 <= si < |p.values| && 0 <= i < |p.values[si]| ==> 0.0 <= p.values[si][i] <= 100.0
    ensures ScaleMode(visual, |p.values|) != MinMax ==>
              forall si, i :: 0 <= si < |p.values| && 0 <= i < |p.values[si]| ==>
                p.domain.minY as real < p.values[si][i] < p.domain.maxY as real
  {
    var t := TrimSeriesSanitized(labels, data);
    var raw := seq(|t.series|, i requires 0 <= i < |t.series| => t.series[i].values);
    var mode := ScaleMode(visual, |t.series|);
    var values := Normalized(mode, raw);
    Plot(values, ScaledDomain(mode, Flatten(values)))
  }

  /** The card's size and position state and the refs its gesture handlers keep. */
  class Card {
    const mode: Mode
    const variant: Variant
    const compact: bool
    const pinchEnabledInDocked: bool
    var insetLeft: real
    var insetRight: real
    var winW: real
    var maxW: real
    var containerW: real
    var chartH: real
    var ready: bool
    var pos: Pos
    var startPos: Pos
    var dragging: bool
    var pinchBase: PinchBase

    /**
     * `maxW` follows the window and insets; the height stays within
     * `[MIN_H, MAX_H]`; a moving card's width within `[MIN_W, maxW]`; a docked
     * card's width is unmeasured (0) or at least `MIN_W`.
     */
    ghost predicate Valid()
      reads this
    {
      maxW == ComputeMaxW(winW, insetLeft, insetRight) &&
      MinH <= chartH <= MaxH &&
      (IsFloating(mode) ==> MinW <= containerW <= maxW) &&
      (mode == Docked ==> containerW == 0.0 || MinW <= containerW)
    }

    constructor (mode: Mode, variant: Variant, compact: bool, pinchEnabledInDocked: bool,
                 initialPosition: Pos, windowWidth: real, insetLeft: real, insetRight: real)
      ensures Valid()
      ensures this.mode == mode && this.variant == variant && this.compact == compact
      ensures this.pinchEnabledInDocked == pinchEnabledInDocked
      ensures containerW == (if IsFloating(mode) then InitialFloatingWidth(windowWidth, insetLeft, insetRight) else 0.0)
      ensures chartH == (if compact then 160.0 else 280.0)
      ensures ready == IsFloating(mode) && !dragging && pos == initialPosition && winW == windowWidth
    {
      this.mode := mode;
      this.variant := variant;
      this.compact := compact;
      this.pinchEnabledInDocked := pinchEnabledInDocked;
      this.insetLeft := insetLeft;
      this.insetRight := insetRight;
      winW := windowWidth;
      maxW := ComputeMaxW(windowWidth, insetLeft, insetRight);
      containerW := if IsFloating(mode) then InitialFloatingWidth(windowWidth, insetLeft, insetRight) else 0.0;
      chartH := if compact then 160.0 else 280.0;
      ready := IsFloating(mode);
      pos := initialPosition;
      startPos := initialPosition;
      dragging := false;
      pinchBase := PinchBase(0.0, 0.0, 0.0);
    }

    /** The window changed size: new `maxW`, and a moving card's width is pulled back into range. */
    method OnDimensionsChange(windowWidth: real)
      requires Valid()
      modifies this`winW, this`maxW, this`containerW
      ensures Valid()
      ensures winW == windowWidth && maxW == ComputeMaxW(windowWidth, insetLeft, insetRight)
      ensures containerW == if IsFloating(mode) then Clamp(old(containerW), MinW, maxW) else old(containerW)
    {
      winW := windowWidth;
      maxW := ComputeMaxW(windowWidth, insetLeft, insetRight);
      if IsFloating(mode) {
        containerW := Clamp(containerW, MinW, maxW);
      }
    }

    /** The insets (or window) effect: new `maxW`; an unsized moving card gets its initial width. */
    method OnInsetsChange(left: real, right: real)
      requires Valid()
      modifies this`insetLeft, this`insetRight, this`maxW, this`containerW
      ensures Valid()
      ensures insetLeft == left && insetRight == right && maxW == ComputeMaxW(winW, left, right)
      ensures mode == Docked ==> containerW == old(containerW)
      ensures IsFloating(mode) ==> containerW == Clamp(old(containerW), MinW, maxW)
    {
      insetLeft := left;
      insetRight := right;
      maxW := ComputeMaxW(winW, left, right);
      if IsFloating(mode) {
        containerW := if containerW == 0.0 then InitialFloatingWidth(winW, left, right) else Clamp(containerW, MinW, maxW);
      }
    }

    /** The docked-height effect: 160 when compact, else the slot's ideal height, if one is given. */
    method OnIdealHeight(idealHeight: Option<real>)
      requires Valid()
      modifies this`chartH
      ensures Valid()
      ensures mode == Docked && compact ==> chartH == 160.0
      ensures mode == Docked && !compact && idealHeight.Some? && idealHeight.value > 0.0 ==>
                chartH == DockedHeight(idealHeight.value, variant)
      ensures IsFloating(mode) || (!compact && (idealHeight.None? || idealHeight.value <= 0.0)) ==> chartH == old(chartH)
    {
      if mode == Docked {
        if compact {
          chartH := 160.0;
          return;
        }
        if idealHeight.Some? && idealHeight.value > 0.0 {
          chartH := DockedHeight(idealHeight.value, variant);
        }
      }
    }

    /** Whether the drag handle claims a touch: exactly one finger, on a moving card. */
    predicate DragClaims(touches: nat)
      reads this
    {
      IsFloating(mode) && touches == 1
    }

    /** Drag granted: remember where the card was. */
    method DragGrant()
      modifies this`startPos, this`dragging
      ensures IsFloating(mode) ==> startPos == old(pos) && dragging
      ensures mode == Docked ==> startPos == old(startPos) && dragging == old(dragging)
    {
      if !IsFloating(mode) {
        return;
      }
      startPos := pos;
      dragging := true;
    }

    /** Drag move by `(dx, dy)` from where the gesture began. */
    method DragMove(dx: real, dy: real)
      modifies this`pos
      ensures IsFloating(mode) ==> pos == DragTarget(startPos, dx, dy, winW, containerW)
      ensures IsFloating(mode) ==> 0.0 <= pos.x <= Max(0.0, winW - containerW - 4.0) && pos.y >= 0.0
      ensures mode == Docked ==> pos == old(pos)
    {
      if !IsFloating(mode) {
        return;
      }
      pos := DragTarget(startPos, dx, dy, winW, containerW);
    }

    /** Drag released; the result is the zone `onDrop` is called with, if it is called at all. */
    method DragRelease(hasDropHandlers: bool, zone: Option<DropName>) returns (dropped: Option<DropName>)
      modifies this`dragging
      ensures IsFloating(mode) ==> !dragging
      ensures mode == Docked ==> dragging == old(dragging)
      ensures dropped.Some? <==> IsFloating(mode) && hasDropHandlers && zone.Some?
      ensures dropped.Some? ==> dropped == zone
    {
      dropped := None;
      if !IsFloating(mode) {
        return;
      }
      dragging := false;
      if hasDropHandlers && zone.Some? {
        dropped := zone;
      }
    }

    /** Whether the pinch handler claims a touch: two fingers, moving or docked with pinch enabled. */
    predicate PinchClaims(touches: nat)
      reads this
    {
      (IsFloating(mode) || (mode == Docked && pinchEnabledInDocked)) && touches >= 2
    }

    /** Pinch granted at finger distance `dist`: remember it with the current size. */
    method PinchGrant(dist: real)
      modifies this`pinchBase
      ensures pinchBase == PinchBase(dist, containerW, chartH)
    {
      pinchBase := PinchBase(dist, containerW, chartH);
    }

    /**
     * Pinch move to finger distance `d`: unless `d` or the base distance is 0,
     * width and height become the grant-time size scaled by `d / base.dist`, in
     * every mode, and `x` is pulled back into the window.
     */
    method PinchMove(d: real)
      requires Valid()
      modifies this`containerW, this`chartH, this`pos
      ensures Valid()
      ensures d == 0.0 || pinchBase.dist == 0.0 ==> containerW == old(containerW) && chartH == old(chartH) && pos == old(pos)
      ensures d != 0.0 && pinchBase.dist != 0.0 ==>
                containerW == PinchedWidth(pinchBase, d, maxW) && chartH == PinchedHeight(pinchBase, d) &&
                pos == Pos(KeepInWindow(old(pos).x, winW, containerW), old(pos).y)
    {
      if d == 0.0 || pinchBase.dist == 0.0 {
        return;
      }
      var newW := PinchedWidth(pinchBase, d, maxW);
      var newH := PinchedHeight(pinchBase, d);
      containerW := newW;
      chartH := newH;
      pos := Pos(KeepInWindow(pos.x, winW, newW), pos.y);
    }

    /**
     * A docked card measured at `w` by `h`: a width change of more than a point
     * resizes it within `[MIN_W, maxW]`; a height change of more than a point
     * sets the chart height to `h - 40` within `[MIN_H, MAX_H]`.
     */
    method OnLayout(w: real, h: real)
      requires Valid()
      modifies this`containerW, this`ready, this`chartH
      ensures Valid()
      ensures mode == Docked && w != 0.0 && (old(containerW) == 0.0 || Abs(w - old(containerW)) > 1.0) ==>
                containerW == Clamp(w, MinW, maxW) && ready
      ensures !(mode == Docked && w != 0.0 && (old(containerW) == 0.0 || Abs(w - old(containerW)) > 1.0)) ==>
                containerW == old(containerW) && ready == old(ready)
      ensures mode == Docked && h != 0.0 && Abs(h - old(chartH)) > 1.0 ==> chartH == Clamp(h - 40.0, MinH, MaxH)
      ensures !(mode == Docked && h != 0.0 && Abs(h - old(chartH)) > 1.0) ==> chartH == old(chartH)
    {
      if mode == Docked {
        if w != 0.0 && (containerW == 0.0 || Abs(w - containerW) > 1.0) {
          containerW := Clamp(w, MinW, maxW);
          if !ready {
            ready := true;
          }
        }
        if h != 0.0 && (chartH == 0.0 || Abs(h - chartH) > 1.0) {
          chartH := Clamp(h - 40.0, MinH, MaxH);
        }
      }
    }
  }
}
