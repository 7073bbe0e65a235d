/**
 * The computations both resizable chart widgets share: width limits, the
 * starting width, the docked height, series trimming, tick labels,
 * normalisation, the y-domain and the point spacing.
 */
module ChartWidget {
  import opened Numbers

  const MinH: real := 120.0
  const MaxH: real := 560.0
  const MinW: real := 220.0
  const MinSpacing: real := 6.0
  const SpacingTightFactor: real := 0.75
  const CardPad: real := 10.0
  const CardHPadTotal: real := CardPad * 2.0

  datatype Variant = Card | Fill

  /** The zone names a widget reports on a drop, `'slot1' | 'slot2'`. */
  datatype DropName = Slot1 | Slot2

  /** `computeMaxW`: the window less 12 points a side and the safe-area insets, never below `MIN_W`. */
  function ComputeMaxW(w: real, insetLeft: real, insetRight: real): (m: real)
    ensures m >= MinW
    ensures m >= w - (24.0 + insetLeft + insetRight)
    ensures m == MinW || m == w - (24.0 + insetLeft + insetRight)
  {
    Max(MinW, w - (24.0 + insetLeft + insetRight))
  }

  /** A clamp into `[MIN_W, maxW]` lands in it, since `maxW` is never below `MIN_W`. */
  lemma ClampWidthInRange(v: real, w: real, insetLeft: real, insetRight: real)
    ensures MinW <= Clamp(v, MinW, ComputeMaxW(w, insetLeft, insetRight)) <= ComputeMaxW(w, insetLeft, insetRight)
  {
  }

  /** The width ratio of `computeInitialFloatingW` as written: the `>= 768` test comes after `>= 430`. */
  function InitialRatioAsWritten(w: real): (ratio: real)
    ensures ratio in {0.90, 0.84, 0.80}
  {
    if w <= 360.0 then 0.90
    else if w >= 430.0 then 0.80
    else if w >= 768.0 then 0.60
    else 0.84
  }

  /** As written, the tablet ratio is never chosen: an 800-point window still gets 0.80. */
  lemma TabletRatioUnreachable(w: real)
    ensures InitialRatioAsWritten(w) != 0.60
    ensures InitialRatioAsWritten(800.0) == 0.80
  {
  }

  /** The width ratio with the tablet test first, so windows of 768 points or more get 0.60. */
  function InitialRatio(w: real): (ratio: real)
    ensures w <= 360.0 ==> ratio == 0.90
    ensures 360.0 < w < 430.0 ==> ratio == 0.84
    ensures 430.0 <= w < 768.0 ==> ratio == 0.80
    ensures w >= 768.0 ==> ratio == 0.60
  {
    if w <= 360.0 then 0.90
    else if w >= 768.0 then 0.60
    else if w >= 430.0 then 0.80
    else 0.84
  }

  /** The corrected ratio never grows with the window, and agrees with the written one below 768 points. */
  lemma InitialRatioNarrowsWithWindow(w1: real, w2: real)
    ensures w1 <= w2 ==> InitialRatio(w2) <= InitialRatio(w1)
    ensures w1 < 768.0 ==> InitialRatio(w1) == InitialRatioAsWritten(w1)
  {
  }

  /** `computeInitialFloatingW`: a share of the safe width, kept within `[MIN_W, safe]`. */
  function InitialFloatingWidth(w: real, insetLeft: real, insetRight: real): (r: real)
    ensures MinW <= r <= ComputeMaxW(w, insetLeft, insetRight)
    ensures MinW <= ComputeMaxW(w, insetLeft, insetRight) * InitialRatio(w) ==>
              r == ComputeMaxW(w, insetLeft, insetRight) * InitialRatio(w)
  {
    var safe := ComputeMaxW(w, insetLeft, insetRight);
    assert safe * InitialRatio(w) <= safe;
    Clamp(safe * InitialRatio(w), MinW, safe)
  }

  /** The card's top-left corner on screen. */
  datatype Pos = Pos(x: real, y: real)

  /** Keeps a card of width `w` inside the window horizontally, 4 points clear of the right edge. */
  function KeepInWindow(x: real, winW: real, w: real): (r: real)
    ensures 0.0 <= r <= Max(0.0, winW - w - 4.0)
    ensures 0.0 <= x <= winW - w - 4.0 ==> r == x
  {
    Clamp(x, 0.0, Max(0.0, winW - w - 4.0))
  }

  /**
   * Where a drag move puts the card: the position at grant time plus the
   * gesture's offset, kept in the window horizontally and below the top.
   */
  function DragTarget(start: Pos, dx: real, dy: real, winW: real, containerW: real): (p: Pos)
    ensures 0.0 <= p.x <= Max(0.0, winW - containerW - 4.0) && p.y >= 0.0
    ensures 0.0 <= start.x + dx <= winW - containerW - 4.0 ==> p.x == start.x + dx
    ensures start.y + dy >= 0.0 ==> p.y == start.y + dy
    ensures start.y + dy < 0.0 ==> p.y == 0.0
  {
    Pos(KeepInWindow(start.x + dx, winW, containerW), Max(0.0, start.y + dy))
  }

  /** `pinchBase`: the finger distance and the size when the pinch was granted. */
  datatype PinchBase = PinchBase(dist: real, w: real, h: real)

  /** The width a pinch to finger distance `d` gives: the base width times `d / base.dist`, within `[MIN_W, maxW]`. */
  function PinchedWidth(base: PinchBase, d: real, maxW: real): (w: real)
    requires base.dist != 0.0
    ensures MinW <= maxW ==> MinW <= w <= maxW
  {
    Clamp(base.w * (d / base.dist), MinW, maxW)
  }

  /** The height a pinch to finger distance `d` gives: the base height times `d / base.dist`, within `[MIN_H, MAX_H]`. */
  function PinchedHeight(base: PinchBase, d: real): (h: real)
    ensures base.dist != 0.0 ==> MinH <= h <= MaxH
  {
    if base.dist == 0.0 then MinH else Clamp(base.h * (d / base.dist), MinH, MaxH)
  }

  /** Spreading the fingers back to where they started gives back the size at grant time. */
  lemma PinchBackRestores(base: PinchBase, maxW: real)
    requires base.dist != 0.0
    requires MinW <= base.w <= maxW && MinH <= base.h <= MaxH
    ensures PinchedWidth(base, base.dist, maxW) == base.w
    ensures PinchedHeight(base, base.dist) == base.h
  {
    assert base.dist / base.dist == 1.0;
  }

  /** Scaling a non-negative size by a larger factor never gives less. */
  lemma ScaleMonotone(x: real, s1: real, s2: real)
    requires x >= 0.0 && s1 <= s2
    ensures x * s1 <= x * s2
  {
    if x > 0.0 {
      MulStrict(s2, s1, x);
    }
  }

  /** Clamping a size scaled by a larger factor never gives less. */
  lemma ClampScaledMonotone(x: real, s1: real, s2: real, lo: real, hi: real)
    requires x >= 0.0 && s1 <= s2
    ensures Clamp(x * s1, lo, hi) <= Clamp(x * s2, lo, hi)
  {
    ScaleMonotone(x, s1, s2);
    ClampMonotone(x * s1, x * s2, lo, hi);
  }

  /** A wider spread never gives a narrower card. */
  lemma PinchWidthGrowsWithSpread(base: PinchBase, d1: real, d2: real, maxW: real)
    requires base.dist > 0.0 && base.w >= 0.0 && d1 <= d2
    ensures PinchedWidth(base, d1, maxW) <= PinchedWidth(base, d2, maxW)
  {
    var s1 := d1 / base.dist;
    var s2 := d2 / base.dist;
    QuotientMonotone(d1, d2, base.dist);
    ClampScaledMonotone(base.w, s1, s2, MinW, maxW);
  }

  /** A wider spread never gives a shorter card. */
  lemma PinchHeightGrowsWithSpread(base: PinchBase, d1: real, d2: real)
    requires base.dist > 0.0 && base.h >= 0.0 && d1 <= d2
    ensures PinchedHeight(base, d1) <= PinchedHeight(base, d2)
  {
    var s1 := d1 / base.dist;
    var s2 := d2 / base.dist;
    QuotientMonotone(d1, d2, base.dist);
    ClampScaledMonotone(base.h, s1, s2, MinH, MaxH);
  }

  /**
   * The docked height for an `idealHeight`: the whole of it in the `fill` variant,
   * 64 points less (at least 140) in the card variant, within `[MIN_H, MAX_H]`.
   */
  function DockedHeight(ideal: real, variant: Variant): (h: real)
    ensures MinH <= h <= MaxH
    ensures variant == Fill && MinH <= ideal <= MaxH ==> h == ideal
    ensures variant == Card && 204.0 <= ideal <= 624.0 ==> h == ideal - 64.0
    ensures variant == Card ==> h >= 140.0
  {
    Clamp(if variant == Fill then ideal else Max(140.0, ideal - 64.0), MinH, MaxH)
  }

  /** `innerW`: the container less the card padding, at least 1. */
  function InnerWidth(containerW: real, variant: Variant): (w: real)
    ensures w >= 1.0
    ensures variant == Card && containerW >= 21.0 ==> w + CardHPadTotal == containerW
    ensures variant == Fill && containerW >= 1.0 ==> w == containerW
  {
    Max(1.0, containerW - (if variant == Card then CardHPadTotal else 0.0))
  }

  /** A data set as handed to a widget; its colour function is kept as an uninterpreted value. */
  datatype Dataset = Dataset(data: seq<Num>, color: string)

  /** The shortest data set, with `labels.length` as the starting point. */
  function MinLength(start: nat, data: seq<Dataset>): (n: nat)
    ensures n <= start
    ensures forall i :: 0 <= i < |data| ==> n <= |data[i].data|
    ensures n == start || exists i :: 0 <= i < |data| && n == |data[i].data|
  {
    if |data| == 0 then start
    else
      var rest := MinLength(start, data[1..]);
      assert forall i :: 1 <= i < |data| ==> data[1..][i - 1] == data[i];
      if |data[0].data| < rest then |data[0].data| else rest
  }

  /** One trimmed series: its colour and its first `n` values. */
  datatype TrimmedSeries<V> = TrimmedSeries(color: string, values: seq<V>)

  /** `trimmed`: the first `n` labels and at most four series of `n` values each. */
  datatype Trimmed<V> = Trimmed(labels: seq<string>, series: seq<TrimmedSeries<V>>, n: nat)

  /** The first four data sets, each cut to `n` values. */
  function TakeSeries(data: seq<Dataset>, n: nat): (s: seq<TrimmedSeries<Num>>)
    requires forall i :: 0 <= i < |data| ==> n <= |data[i].data|
    ensures |s| == if |data| < 4 then |data| else 4
    ensures forall i :: 0 <= i < |s| ==> s[i] == TrimmedSeries(data[i].color, data[i].data[..n])
  {
    var k := if |data| < 4 then |data| else 4;
    seq(k, i requires 0 <= i < k => TrimmedSeries(data[i].color, data[i].data[..n]))
  }

  /** `trimmed` in the docked widget: values are kept as given. */
  function TrimSeries(labels: seq<string>, data: seq<Dataset>): (t: Trimmed<Num>)
    ensures t.n <= |labels| && t.labels == labels[..t.n]
    ensures forall i :: 0 <= i < |data| ==> t.n <= |data[i].data|
    ensures |t.series| <= 4 && |t.series| <= |data|
    ensures forall i :: 0 <= i < |t.series| ==> t.series[i].color == data[i].color && t.series[i].values == data[i].data[..t.n]
  {
    var n := MinLength(|labels|, data);
    Trimmed(labels[..n], TakeSeries(data, n), n)
  }

  /** Sanitising every value of a series. */
  function SanitizeAll(vs: seq<Num>): (r: seq<real>)
    ensures |r| == |vs| && forall i :: 0 <= i < |r| ==> r[i] == Sanitize(vs[i])
  {
    seq(|vs|, i requires 0 <= i < |vs| => Sanitize(vs[i]))
  }

  /** `trimmed` in the floating widget: as above, with non-finite values turned into 0. */
  function TrimSeriesSanitized(labels: seq<string>, data: seq<Dataset>): (t: Trimmed<real>)
    ensures t.n <= |labels| && t.labels == labels[..t.n]
    ensures |t.series| <= 4 && |t.series| <= |data|
    ensures forall i :: 0 <= i < |data| ==> t.n <= |data[i].data|
    ensures forall i :: 0 <= i < |t.series| ==>
              t.series[i].color == data[i].color && |t.series[i].values| == t.n &&
              forall j :: 0 <= j < t.n ==> t.series[i].values[j] == Sanitize(data[i].data[j])
  {
    var t := TrimSeries(labels, data);
    Trimmed(t.labels, seq(|t.series|, i requires 0 <= i < |t.series| =>
      TrimmedSeries(t.series[i].color, SanitizeAll(t.series[i].values))), t.n)
  }

  /** The name shown for series `si`: its tag, or `Series <si + 1>` when there is none. */
  datatype SeriesName = Tag(tag: string) | Numbered(ordinal: nat)

  function SeriesNameOf(tags: seq<string>, si: nat): (name: SeriesName)
    ensures si < |tags| ==> name == Tag(tags[si])
    ensures si >= |tags| ==> name == Numbered(si + 1)
  {
    if si < |tags| then Tag(tags[si]) else Numbered(si + 1)
  }

  /** One chart point. */
  datatype Point = Point(value: real, tick: string, name: SeriesName)

  /** The middle tick: `floor((n - 1) / 2)`, or 0 without points. */
  function Mid(n: nat): (m: nat)
    ensures n > 0 ==> m < n && m + m <= n - 1 <= m + m + 1
    ensures n == 0 ==> m == 0
  {
    if n > 0 then (n - 1) / 2 else 0
  }

  predicate IsTick(n: nat, i: nat) {
    i == 0 || i == Mid(n) || i == n - 1
  }

  /** The points of one series in the docked widget: labels only on the first, middle and last ticks. */
  function SeriesPoints(t: Trimmed<Num>, si: nat, tags: seq<string>): (ps: seq<Point>)
    requires si < |t.series| && |t.series[si].values| == t.n && |t.labels| == t.n
    ensures |ps| == t.n
    ensures forall i :: 0 <= i < t.n ==> ps[i].value == Sanitize(t.series[si].values[i]) && ps[i].name == SeriesNameOf(tags, si)
    ensures forall i :: 0 <= i < t.n ==> ps[i].tick == if IsTick(t.n, i) then t.labels[i] else ""
  {
    seq(t.n, i requires 0 <= i < t.n =>
      Point(Sanitize(t.series[si].values[i]), if IsTick(t.n, i) then t.labels[i] else "", SeriesNameOf(tags, si)))
  }

  /** The points of every trimmed series. */
  function SeriesOf(t: Trimmed<Num>, tags: seq<string>): (ss: seq<seq<Point>>)
    requires |t.labels| == t.n && forall si :: 0 <= si < |t.series| ==> |t.series[si].values| == t.n
    ensures |ss| == |t.series|
    ensures forall si :: 0 <= si < |ss| ==> ss[si] == SeriesPoints(t, si, tags)
  {
    seq(|t.series|, si requires 0 <= si < |t.series| => SeriesPoints(t, si, tags))
  }

  /** A docked-widget trim is well formed: every series has `n` values and there are `n` labels. */
  lemma TrimShape(labels: seq<string>, data: seq<Dataset>)
    ensures |TrimSeries(labels, data).labels| == TrimSeries(labels, data).n
    ensures forall si :: 0 <= si < |TrimSeries(labels, data).series| ==> |TrimSeries(labels, data).series[si].values| == TrimSeries(labels, data).n
  {
  }

  /** A label is shown at no more than three points. */
  lemma AtMostThreeLabels(t: Trimmed<Num>, si: nat, tags: seq<string>, i: nat)
    requires si < |t.series| && |t.series[si].values| == t.n && |t.labels| == t.n
    requires i < t.n && SeriesPoints(t, si, tags)[i].tick != ""
    ensures i == 0 || i == Mid(t.n) || i == t.n - 1
  {
  }

  /** The smallest value of a non-empty list, `Math.min(...vs)`. */
  function SeqMin(vs: seq<real>): (m: real)
    requires |vs| > 0
    ensures m in vs && forall i :: 0 <= i < |vs| ==> m <= vs[i]
  {
    if |vs| == 1 then vs[0]
    else
      var rest := SeqMin(vs[1..]);
      assert forall i :: 1 <= i < |vs| ==> vs[1..][i - 1] == vs[i];
      Min(vs[0], rest)
  }

  /** The largest value of a non-empty list, `Math.max(...vs)`. */
  function SeqMax(vs: seq<real>): (m: real)
    requires |vs| > 0
    ensures m in vs && forall i :: 0 <= i < |vs| ==> vs[i] <= m
  {
    if |vs| == 1 then vs[0]
    else
      var rest := SeqMax(vs[1..]);
      assert forall i :: 1 <= i < |vs| ==> vs[1..][i - 1] == vs[i];
      Max(vs[0], rest)
  }

  /** The y-axis bounds, whole numbers. */
  datatype Domain = Domain(minY: int, maxY: int)

  /**
   * `minY`/`maxY`: `[0, 1]` without values; otherwise the value range, widened by
   * one each way when flat, padded by a tenth of it (at least 1) and rounded outwards.
   */
  function YDomain(vals: seq<real>): (d: Domain)
    ensures |vals| == 0 ==> d == Domain(0, 1)
    ensures forall v :: v in vals ==> d.minY as real < v < d.maxY as real
    ensures |vals| > 0 ==> d.minY as real <= SeqMin(vals) - 1.0 && SeqMax(vals) + 1.0 <= d.maxY as real
  {
    if |vals| == 0 then Domain(0, 1)
    else
      var lo0 := SeqMin(vals);
      var hi0 := SeqMax(vals);
      var lo := if lo0 == hi0 then lo0 - 1.0 else lo0;
      var hi := if lo0 == hi0 then hi0 + 1.0 else hi0;
      var pad := Max(1.0, (hi - lo) * 0.1);
      Domain(Floor(lo - pad), Ceil(hi + pad))
  }

  /** Every value of every series, series by series: `series.flat().map(p => p.value)`. */
  function AllValues(series: seq<seq<Point>>): (vs: seq<real>)
    ensures forall si, i :: 0 <= si < |series| && 0 <= i < |series[si]| ==> series[si][i].value in vs
  {
    if |series| == 0 then []
    else
      var rest := AllValues(series[1..]);
      var first := seq(|series[0]|, i requires 0 <= i < |series[0]| => series[0][i].value);
      assert forall si :: 1 <= si < |series| ==> series[1..][si - 1] == series[si];
      assert forall i :: 0 <= i < |series[0]| ==> (first + rest)[i] == series[0][i].value;
      first + rest
  }

  /** All values of all series, series by series: `flat()` on plain numbers. */
  function Flatten(vss: seq<seq<real>>): (vs: seq<real>)
    ensures forall si, i :: 0 <= si < |vss| && 0 <= i < |vss[si]| ==> vss[si][i] in vs
    ensures forall v :: v in vs ==> exists si :: 0 <= si < |vss| && v in vss[si]
  {
    if |vss| == 0 then []
    else
      assert forall si :: 1 <= si < |vss| ==> vss[1..][si - 1] == vss[si];
      vss[0] + Flatten(vss[1..])
  }

  /** Every plotted point lies strictly inside the y-domain. */
  lemma PointsInsideDomain(series: seq<seq<Point>>, si: nat, i: nat)
    requires si < |series| && i < |series[si]|
    ensures YDomain(AllValues(series)).minY as real < series[si][i].value < YDomain(AllValues(series)).maxY as real
  {
    assert series[si][i].value in AllValues(series);
  }

  /** The y-axis scaling of the floating widget. */
  datatype VisualScale = Auto | Raw | MinMax

  /** `scaleMode`: `auto` means min-max for several series and raw for one. */
  function ScaleMode(visual: VisualScale, seriesCount: nat): (m: VisualScale)
    ensures m != Auto
    ensures visual != Auto ==> m == visual
    ensures visual == Auto ==> (m == MinMax <==> seriesCount > 1)
  {
    if visual == Auto then (if seriesCount > 1 then MinMax else Raw) else visual
  }

  /** `a / d` is in `[0, 1]` when `0 <= a <= d`. */
  lemma UnitQuotient(a: real, d: real)
    requires 0.0 <= a <= d && d > 0.0
    ensures 0.0 <= a / d <= 1.0
  {
    QuotientAtLeast(a, d, 0.0);
    assert (a / d) * d == a;
    MulStrict(1.0, a / d, d);
  }

  /** Dividing by a positive number keeps order. */
  lemma QuotientMonotone(a: real, b: real, d: real)
    requires a <= b && d > 0.0
    ensures a / d <= b / d
  {
    assert (a / d) * d == a && (b / d) * d == b;
    MulStrict(b / d, a / d, d);
  }

  /** `((v - min) / (max - min)) * 100`: where `v` sits in `[min, max]`, as a percentage. */
  function Percent(v: real, lo: real, hi: real): (p: real)
    requires lo < hi
    ensures lo <= v <= hi ==> 0.0 <= p <= 100.0
    ensures v == lo ==> p == 0.0
    ensures v == hi ==> p == 100.0
  {
    var q := (v - lo) / (hi - lo);
    assert lo <= v <= hi ==> 0.0 <= q <= 1.0 by {
      if lo <= v <= hi {
        UnitQuotient(v - lo, hi - lo);
      }
    }
    q * 100.0
  }

  /** A percentage grows with the value. */
  lemma PercentMonotone(v: real, w: real, lo: real, hi: real)
    requires lo < hi && v <= w
    ensures Percent(v, lo, hi) <= Percent(w, lo, hi)
  {
    QuotientMonotone(v - lo, w - lo, hi - lo);
  }

  /**
   * One series under min-max scaling: each value as a percentage of the
   * series' range, or 50 everywhere for a flat (or empty) series.
   */
  function Normalize(vs: seq<real>): (r: seq<real>)
    ensures |r| == |vs|
    ensures forall i :: 0 <= i < |r| ==> 0.0 <= r[i] <= 100.0
    ensures |vs| > 0 && SeqMin(vs) == SeqMax(vs) ==> forall i :: 0 <= i < |r| ==> r[i] == 50.0
    ensures |vs| > 0 && SeqMin(vs) < SeqMax(vs) ==> forall i :: 0 <= i < |r| ==> r[i] == Percent(vs[i], SeqMin(vs), SeqMax(vs))
  {
    if |vs| == 0 then []
    else
      var lo := SeqMin(vs);
      var hi := SeqMax(vs);
      if hi == lo then seq(|vs|, _ => 50.0)
      else seq(|vs|, i requires 0 <= i < |vs| => Percent(vs[i], lo, hi))
  }

  /** Min-max scaling keeps the order of values, sends the smallest to 0 and the largest to 100. */
  lemma NormalizeOrdered(vs: seq<real>, i: nat, j: nat)
    requires i < |vs| && j < |vs| && SeqMin(vs) < SeqMax(vs)
    ensures vs[i] <= vs[j] ==> Normalize(vs)[i] <= Normalize(vs)[j]
    ensures vs[i] == SeqMin(vs) ==> Normalize(vs)[i] == 0.0
    ensures vs[i] == SeqMax(vs) ==> Normalize(vs)[i] == 100.0
  {
    if vs[i] <= vs[j] {
      PercentMonotone(vs[i], vs[j], SeqMin(vs), SeqMax(vs));
    }
  }

  /** `normalized`: min-max scaling per series, or the values as they are. */
  function Normalized(mode: VisualScale, series: seq<seq<real>>): (r: seq<seq<real>>)
    ensures |r| == |series|
    ensures forall si :: 0 <= si < |r| ==> |r[si]| == |series[si]|
    ensures mode != MinMax ==> r == series
    ensures mode == MinMax ==> forall si, i :: 0 <= si < |r| && 0 <= i < |r[si]| ==> 0.0 <= r[si][i] <= 100.0
  {
    if mode != MinMax then series
    else seq(|series|, si requires 0 <= si < |series| => Normalize(series[si]))
  }

  /** The floating widget's y-domain: `[0, 100]` under min-max scaling, otherwise as in the docked one. */
  function ScaledDomain(mode: VisualScale, vals: seq<real>): (d: Domain)
    ensures mode == MinMax ==> d == Domain(0, 100)
    ensures mode != MinMax && |vals| == 0 ==> d == Domain(0, 1)
    ensures mode != MinMax ==> forall v :: v in vals ==> d.minY as real < v < d.maxY as real
  {
    if mode == MinMax then Domain(0, 100) else YDomain(vals)
  }

  /**
   * `denseSpacing`: the share of the inner width per gap between points, tightened
   * by 0.75, never under `MIN_SPACING`; no labels counts as two.
   */
  function DenseSpacing(innerW: real, labelCount: nat): (s: real)
    ensures s >= MinSpacing
    ensures s >= (innerW - 36.0) / (Max(1.0, (if labelCount == 0 then 2 else labelCount) as real - 1.0)) * SpacingTightFactor
    ensures s == MinSpacing || s == (innerW - 36.0) / (Max(1.0, (if labelCount == 0 then 2 else labelCount) as real - 1.0)) * SpacingTightFactor
  {
    var points := Max(1.0, (if labelCount == 0 then 2 else labelCount) as real - 1.0);
    var ideal := (innerW - 36.0) / points;
    Max(MinSpacing, ideal * SpacingTightFactor)
  }
}
