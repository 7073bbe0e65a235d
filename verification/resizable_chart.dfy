/**
 * The resizable chart card of the two-slot dashboards: dragged by its handle while
 * floating, pinched to resize, and sized by its slot while docked.
 */
module ResizableChart {
  import opened Options
  import opened Numbers
  import opened ChartWidget

  datatype Mode = Floating | Docked

  /** What the card plots: one list of points per series, and the y-domain. */
  datatype Plot = Plot(series: seq<seq<Point>>, domain: Domain)

  /**
   * The data path: trim to the common length and at most four series, label
   * the first, middle and last points, then take the y-domain of every value.
   */
  function PlotOf(labels: seq<string>, data: seq<Dataset>, tags: seq<string>): (p: Plot)
    ensures |p.series| <= 4 && |p.series| <= |data|
    ensures forall si :: 0 <= si < |p.series| ==> |p.series[si]| == |p.series[0]| <= |labels|
    ensures forall si :: 0 <= si < |p.series| ==> p.series[si] == SeriesPoints(TrimSeries(labels, data), si, tags)
    ensures forall si, i :: 0 <= si < |p.series| && 0 <= i < |p.series[si]| ==>
              p.domain.minY as real < p.series[si][i].value < p.domain.maxY as real
  {
    var t := TrimSeries(labels, data);
    var series := SeriesOf(t, tags);
    var d := YDomain(AllValues(series));
    assert forall si, i :: 0 <= si < |series| && 0 <= i < |series[si]| ==> d.minY as real < series[si][i].value < d.maxY as real by {
      forall si, i | 0 <= si < |series| && 0 <= i < |series[si]|
        ensures d.minY as real < series[si][i].value < d.maxY as real
      {
        PointsInsideDomain(series, si, i);
      }
    }
    Plot(series, d)
  }

  /** The card's size and position state and the refs its gesture handlers keep. */
  class Card {
    const mode: Mode
    const variant: Variant
    const compact: bool
    const pinchEnabledInDocked: bool
    var insetLeft: real
    var insetRight: real
    var winW: real
    var maxW: real
    var containerW: real
    var chartH: real
    var ready: bool
    var pos: Pos
    /** `startPos`: the position when the current drag was granted. */
    var startPos: Pos
    var dragging: bool
    var pinchBase: PinchBase

    /**
     * `maxW` follows the window and insets; the height stays within
     * `[MIN_H, MAX_H]`; a floating card's width within `[MIN_W, maxW]`; a docked
     * card's width is unmeasured (0) or at least `MIN_W`.
     */
    ghost predicate Valid()
      reads this
    {
      maxW == ComputeMaxW(winW, insetLeft, insetRight) &&
      MinH <= chartH <= MaxH &&
      (mode == Floating ==> MinW <= containerW <= maxW) &&
      (mode == Docked ==> containerW == 0.0 || MinW <= containerW)
    }

    /** The first render: a floating card starts at its initial width, a docked one unmeasured. */
    constructor (mode: Mode, variant: Variant, compact: bool, pinchEnabledInDocked: bool,
                 initialPosition: Pos, windowWidth: real, insetLeft: real, insetRight: real)
      ensures Valid()
      ensures this.mode == mode && this.variant == variant && this.compact == compact
      ensures this.pinchEnabledInDocked == pinchEnabledInDocked
      ensures containerW == (if mode == Floating then InitialFloatingWidth(windowWidth, insetLeft, insetRight) else 0.0)
      ensures chartH == (if compact then 160.0 else 280.0)
      ensures ready == (mode == Floating) && !dragging && pos == initialPosition && winW == windowWidth
    {
      this.mode := mode;
      this.variant := variant;
      this.compact := compact;
      this.pinchEnabledInDocked := pinchEnabledInDocked;
      this.insetLeft := insetLeft;
      this.insetRight := insetRight;
      winW := windowWidth;
      maxW := ComputeMaxW(windowWidth, insetLeft, insetRight);
      containerW := if mode == Floating then InitialFloatingWidth(windowWidth, insetLeft, insetRight) else 0.0;
      chartH := if compact then 160.0 else 280.0;
      ready := mode == Floating;
      pos := initialPosition;
      startPos := initialPosition;
      dragging := false;
      pinchBase := PinchBase(0.0, 0.0, 0.0);
    }

    /** The window changed size: new `maxW`, and a floating card's width is pulled back into range. */
    method OnDimensionsChange(windowWidth: real)
      requires Valid()
      modifies this`winW, this`maxW, this`containerW
      ensures Valid()
      ensures winW == windowWidth && maxW == ComputeMaxW(windowWidth, insetLeft, insetRight)
      ensures containerW == if mode == Floating then Clamp(old(containerW), MinW, maxW) else old(containerW)
    {
      winW := windowWidth;
      maxW := ComputeMaxW(windowWidth, insetLeft, insetRight);
      if mode == Floating {
        containerW := Clamp(containerW, MinW, maxW);
      }
    }

    /** The safe-area insets changed: new `maxW`; an unsized floating card gets its initial width. */
    method OnInsetsChange(left: real, right: real)
      requires Valid()
      modifies this`insetLeft, this`insetRight, this`maxW, this`containerW
      ensures Valid()
      ensures insetLeft == left && insetRight == right && maxW == ComputeMaxW(winW, left, right)
      ensures mode == Docked ==> containerW == old(containerW)
      ensures mode == Floating ==> containerW == Clamp(old(containerW), MinW, maxW)
    {
      insetLeft := left;
      insetRight := right;
      maxW := ComputeMaxW(winW, left, right);
      if mode == Floating {
        containerW := if containerW == 0.0 then InitialFloatingWidth(winW, left, right) else Clamp(containerW, MinW, maxW);
      }
    }

    /** The docked-height effect: 160 when compact, else the slot's ideal height, if one is given. */
    method OnIdealHeight(idealHeight: Option<real>)
      requires Valid()
      modifies this`chartH
      ensures Valid()
      ensures mode == Docked && compact ==> chartH == 160.0
      ensures mode == Docked && !compact && idealHeight.Some? && idealHeight.value > 0.0 ==>
                chartH == DockedHeight(idealHeight.value, variant)
      ensures mode == Floating || (!compact && (idealHeight.None? || idealHeight.value <= 0.0)) ==> chartH == old(chartH)
    {
      if mode == Docked {
        if compact {
          chartH := 160.0;
          return;
        }
        if idealHeight.Some? && idealHeight.value > 0.0 {
          chartH := DockedHeight(idealHeight.value, variant);
        }
      }
    }

    /** Whether the drag handle claims a touch: only while floating. */
    predicate DragClaims()
      reads this
    {
      mode == Floating
    }

    /** Drag granted: remember where the card was. */
    method DragGrant()
      modifies this`startPos, this`dragging
      ensures mode == Floating ==> startPos == old(pos) && dragging
      ensures mode == Docked ==> startPos == old(startPos) && dragging == old(dragging)
    {
      if mode != Floating {
        return;
      }
      startPos := pos;
      dragging := true;
    }

    /** Drag move by `(dx, dy)` from where the gesture began. */
    method DragMove(dx: real, dy: real)
      modifies this`pos
      ensures mode == Floating ==> pos == DragTarget(startPos, dx, dy, winW, containerW)
      ensures mode == Floating ==> 0.0 <= pos.x <= Max(0.0, winW - containerW - 4.0) && pos.y >= 0.0
      ensures mode == Docked ==> pos == old(pos)
    {
      if mode != Floating {
        return;
      }
      pos := DragTarget(startPos, dx, dy, winW, containerW);
    }

    /**
     * Drag released. `zone` is what `onDropGesture` answered for the release point;
     * the result is the zone `onDrop` is called with, if it is called at all.
     */
    method DragRelease(hasDropHandlers: bool, zone: Option<DropName>) returns (dropped: Option<DropName>)
      modifies this`dragging
      ensures mode == Floating ==> !dragging
      ensures mode == Docked ==> dragging == old(dragging)
      ensures dropped.Some? <==> mode == Floating && hasDropHandlers && zone.Some?
      ensures dropped.Some? ==> dropped == zone
    {
      dropped := None;
      if mode != Floating {
        return;
      }
      dragging := false;
      if hasDropHandlers && zone.Some? {
        dropped := zone;
      }
    }

    /** Whether the pinch handler claims a touch: two fingers, floating or docked with pinch enabled. */
    predicate PinchClaims(touches: nat)
      reads this
    {
      (mode == Floating || (mode == Docked && pinchEnabledInDocked)) && touches >= 2
    }

    /** Pinch granted at finger distance `dist`: remember it with the current size. */
    method PinchGrant(dist: real)
      modifies this`pinchBase
      ensures pinchBase == PinchBase(dist, containerW, chartH)
    {
      pinchBase := PinchBase(dist, containerW, chartH);
    }

    /**
     * Pinch move to finger distance `d`. Nothing happens when `d` or the base
     * distance is 0; otherwise the size is the grant-time size scaled by
     * `d / base.dist`: width and height while floating (with `x` pulled back into
     * the window), the height only while docked.
     */
    method PinchMove(d: real)
      requires Valid()
      modifies this`containerW, this`chartH, this`pos
      ensures Valid()
      ensures d == 0.0 || pinchBase.dist == 0.0 ==> containerW == old(containerW) && chartH == old(chartH) && pos == old(pos)
      ensures d != 0.0 && pinchBase.dist != 0.0 && mode == Floating ==>
                containerW == PinchedWidth(pinchBase, d, maxW) && chartH == PinchedHeight(pinchBase, d) &&
                pos == Pos(KeepInWindow(old(pos).x, winW, containerW), old(pos).y)
      ensures d != 0.0 && pinchBase.dist != 0.0 && mode == Docked ==>
                containerW == old(containerW) && pos == old(pos) &&
                chartH == (if pinchEnabledInDocked then PinchedHeight(pinchBase, d) else old(chartH))
    {
      if d == 0.0 || pinchBase.dist == 0.0 {
        return;
      }
      if mode == Floating {
        var newW := PinchedWidth(pinchBase, d, maxW);
        var newH := PinchedHeight(pinchBase, d);
        containerW := newW;
        chartH := newH;
        pos := Pos(KeepInWindow(pos.x, winW, newW), pos.y);
      } else if mode == Docked && pinchEnabledInDocked {
        chartH := PinchedHeight(pinchBase, d);
      }
    }

    /** A docked card measured at width `w`: a change of more than a point resizes it, within `[MIN_W, maxW]`. */
    method OnLayout(w: real)
      requires Valid()
      modifies this`containerW, this`ready
      ensures Valid()
      ensures mode == Docked && w != 0.0 && (old(containerW) == 0.0 || Abs(w - old(containerW)) > 1.0) ==>
                containerW == Clamp(w, MinW, maxW) && ready
      ensures !(mode == Docked && w != 0.0 && (old(containerW) == 0.0 || Abs(w - old(containerW)) > 1.0)) ==>
                containerW == old(containerW) && ready == old(ready)
    {
      if mode == Docked {
        if w != 0.0 && (containerW == 0.0 || Abs(w - containerW) > 1.0) {
          containerW := Clamp(w, MinW, maxW);
          if !ready {
            ready := true;
          }
        }
      }
    }
  }

  /** A pinch that returns to its starting spread leaves a floating card's size as it was at grant time. */
  lemma PinchRoundTrip(c: Card, d: real)
    requires c.Valid() && c.mode == Floating && d != 0.0
    ensures PinchedWidth(PinchBase(d, c.containerW, c.chartH), d, c.maxW) == c.containerW
    ensures PinchedHeight(PinchBase(d, c.containerW, c.chartH), d) == c.chartH
  {
    PinchBackRestores(PinchBase(d, c.containerW, c.chartH), c.maxW);
  }
}
