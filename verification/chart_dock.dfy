/**
 * Chart docking, shared by the two dashboard screens that hold a list of
 * floating chart configurations and two named chart slots (`slot1`/`slot2` in
 * one screen, `chartA`/`chartB` in the other).
 */
module ChartDock {
  import opened Options
  import opened Geometry
  import opened Numbers
  import opened Seqs

  /** A chart's configuration (`ChartConfig`). */
  datatype ChartConfig = ChartConfig(
    id: string, tags: seq<string>, startTime: string, endTime: string,
    freq: real, sampleType: string, color: string)

  /** An undocked chart and where it was spawned. */
  datatype FloatingChart = FloatingChart(id: string, cfg: ChartConfig, x: real, y: real)

  /** The two chart slots: `slot1`/`chartA` is `First`, `slot2`/`chartB` is `Second`. */
  datatype Zone = First | Second {
    function Other(): (z: Zone)
      ensures z != this
    {
      if this == First then Second else First
    }
  }

  /** The docked charts; an empty slot is `None`. */
  datatype Docked = Docked(first: Option<ChartConfig>, second: Option<ChartConfig>) {
    function Get(z: Zone): Option<ChartConfig>
    {
      if z == First then first else second
    }

    /** `{ ...p, [zone]: c }`. */
    function Set(z: Zone, c: Option<ChartConfig>): (d: Docked)
      ensures d.Get(z) == c && d.Get(z.Other()) == Get(z.Other())
    {
      if z == First then Docked(c, second) else Docked(first, c)
    }

    /** How many slots hold a chart. */
    function Occupied(): nat
    {
      (if first.Some? then 1 else 0) + (if second.Some? then 1 else 0)
    }
  }

  /** The settings object the settings modal hands to `handleApplySettings`. `tags` is `None` when it is not an array. */
  datatype Settings = Settings(
    tags: Option<seq<string>>, startTime: Option<string>, endTime: Option<string>,
    freq: real, sampleType: string)

  /** A JavaScript-truthy string: present and not empty. */
  predicate Truthy(s: Option<string>)
  {
    s.Some? && s.value != ""
  }

  /** The validation guard: every field present, `freq` non-zero, at least one tag. */
  predicate Complete(st: Settings)
  {
    Truthy(st.startTime) && Truthy(st.endTime) && st.sampleType != "" && st.freq != 0.0
    && st.tags.Some? && |st.tags.value| > 0
  }

  /** `whichZoneSync`: the first slot is tried first, so it wins where the two overlap. */
  function ZoneAt(first: Option<Rect>, second: Option<Rect>, x: real, y: real): (z: Option<Zone>)
    ensures z == Some(First) <==> PointInRect(x, y, first)
    ensures z == Some(Second) <==> !PointInRect(x, y, first) && PointInRect(x, y, second)
    ensures z.None? <==> !PointInRect(x, y, first) && !PointInRect(x, y, second)
  {
    if PointInRect(x, y, first) then Some(First)
    else if PointInRect(x, y, second) then Some(Second)
    else None
  }

  /** How many floating charts carry the id. */
  function IdCount(floating: seq<FloatingChart>, chartId: string): nat
  {
    if floating == [] then 0
    else (if floating[0].id == chartId then 1 else 0) + IdCount(floating[1..], chartId)
  }

  /** `floating.find(f => f.id === chartId)`: the first chart with the id. */
  function FindChart(floating: seq<FloatingChart>, chartId: string): (r: Option<FloatingChart>)
    ensures r.Some? ==> r.value.id == chartId
    ensures r.Some? ==> exists k :: 0 <= k < |floating| && floating[k] == r.value &&
                                  forall j :: 0 <= j < k ==> floating[j].id != chartId
    ensures r.None? <==> IdCount(floating, chartId) == 0
  {
    if floating == [] then None
    else if floating[0].id == chartId then Some(floating[0])
    else
      var r := FindChart(floating[1..], chartId);
      assert r.Some? ==> exists k :: 0 <= k < |floating| && floating[k] == r.value &&
                                    forall j :: 0 <= j < k ==> floating[j].id != chartId by {
        if r.Some? {
          var k :| 0 <= k < |floating[1..]| && floating[1..][k] == r.value &&
                   forall j :: 0 <= j < k ==> floating[1..][j].id != chartId;
          assert floating[k + 1] == r.value;
          forall j | 0 <= j < k + 1 ensures floating[j].id != chartId {
            if j > 0 {
              assert floating[j] == floating[1..][j - 1];
            }
          }
        }
      }
      r
  }

  /** The filter predicate of `attachToSlot`: keep the charts with another id. */
  function KeepOther(chartId: string): FloatingChart -> bool {
    (f: FloatingChart) => f.id != chartId
  }

  lemma {:induction false} KeepOtherCount(floating: seq<FloatingChart>, chartId: string)
    ensures |Filter(floating, KeepOther(chartId))| == |floating| - IdCount(floating, chartId)
  {
    if floating != [] {
      KeepOtherCount(floating[1..], chartId);
    }
  }

  /** `floating.filter(f => f.id !== chartId)`: the charts with another id, in their order. */
  function WithoutChart(floating: seq<FloatingChart>, chartId: string): (r: seq<FloatingChart>)
    ensures forall i :: 0 <= i < |r| ==> r[i].id != chartId && r[i] in floating
    ensures forall i :: 0 <= i < |floating| && floating[i].id != chartId ==> floating[i] in r
    ensures |r| == |floating| - IdCount(floating, chartId)
  {
    KeepOtherCount(floating, chartId);
    Filter(floating, KeepOther(chartId))
  }

  /**
   * Filtering out an id works piece by piece, so the kept charts stay in their
   * order: a single chart is kept exactly when its id differs.
   */
  lemma WithoutChartAppend(a: seq<FloatingChart>, b: seq<FloatingChart>, chartId: string, f: FloatingChart)
    ensures WithoutChart(a + b, chartId) == WithoutChart(a, chartId) + WithoutChart(b, chartId)
    ensures WithoutChart([f], chartId) == if f.id != chartId then [f] else []
  {
    FilterAppend(a, b, KeepOther(chartId));
    assert [f][1..] == [];
  }

  /** Dropping an id no chart carries changes nothing. */
  lemma {:induction false} WithoutAbsentChart(floating: seq<FloatingChart>, chartId: string)
    requires IdCount(floating, chartId) == 0
    ensures WithoutChart(floating, chartId) == floating
  {
    if floating != [] {
      WithoutAbsentChart(floating[1..], chartId);
    }
  }

  /** `attachToSlot(chartId, zone)`: the found chart's config goes into the zone, and every chart with that id leaves the floating list. */
  function Attach(d: Docked, floating: seq<FloatingChart>, chartId: string, zone: Zone): (r: (Docked, seq<FloatingChart>))
    ensures FindChart(floating, chartId).None? ==> r == (d, floating)
    ensures FindChart(floating, chartId).Some? ==>
              r.0.Get(zone) == Some(FindChart(floating, chartId).value.cfg)
              && r.0.Get(zone.Other()) == d.Get(zone.Other())
              && r.1 == WithoutChart(floating, chartId)
  {
    var item := FindChart(floating, chartId);
    if item.None? then (d, floating)
    else (d.Set(zone, Some(item.value.cfg)), WithoutChart(floating, chartId))
  }

  /** `removeFromSlot(zone)`. */
  function Remove(d: Docked, zone: Zone): (r: Docked)
    ensures r.Get(zone).None? && r.Get(zone.Other()) == d.Get(zone.Other())
  {
    d.Set(zone, None)
  }

  /** `undockFromSlot(zone)`: an occupied slot's config is appended to the floating list at the spawn point and the slot is emptied. */
  function Undock(d: Docked, floating: seq<FloatingChart>, zone: Zone, spawnX: real, spawnY: real): (r: (Docked, seq<FloatingChart>))
    ensures d.Get(zone).None? ==> r == (d, floating)
    ensures d.Get(zone).Some? ==>
              r.0 == Remove(d, zone)
              && r.1 == floating + [FloatingChart(d.Get(zone).value.id, d.Get(zone).value, spawnX, spawnY)]
  {
    var cfg := d.Get(zone);
    if cfg.None? then (d, floating)
    else (Remove(d, zone), floating + [FloatingChart(cfg.value.id, cfg.value, spawnX, spawnY)])
  }

  /** Undocking moves a chart and loses none: docked plus floating stays the same. */
  lemma UndockKeepsCount(d: Docked, floating: seq<FloatingChart>, zone: Zone, spawnX: real, spawnY: real)
    ensures var r := Undock(d, floating, zone, spawnX, spawnY);
            r.0.Occupied() + |r.1| == d.Occupied() + |floating|
  {
  }

  /** Attaching a uniquely named chart to an empty slot also loses none. */
  lemma AttachToEmptyKeepsCount(d: Docked, floating: seq<FloatingChart>, chartId: string, zone: Zone)
    requires IdCount(floating, chartId) == 1 && d.Get(zone).None?
    ensures var r := Attach(d, floating, chartId, zone);
            r.0.Occupied() + |r.1| == d.Occupied() + |floating|
  {
  }

  /**
   * Attaching to an occupied slot overwrites the occupant: one chart fewer is
   * shown, and the old occupant is neither docked there nor floating.
   */
  lemma AttachToOccupiedLosesOccupant(d: Docked, floating: seq<FloatingChart>, chartId: string, zone: Zone)
    requires IdCount(floating, chartId) == 1 && d.Get(zone).Some?
    requires FindChart(floating, chartId).value.cfg != d.Get(zone).value
    requires forall f :: f in floating ==> f.cfg != d.Get(zone).value
    ensures var r := Attach(d, floating, chartId, zone);
            r.0.Occupied() + |r.1| == d.Occupied() + |floating| - 1
            && r.0.Get(zone) != d.Get(zone)
            && forall f :: f in r.1 ==> f.cfg != d.Get(zone).value
  {
  }

  lemma {:induction false} FindAppended(floating: seq<FloatingChart>, item: FloatingChart)
    requires IdCount(floating, item.id) == 0
    ensures FindChart(floating + [item], item.id) == Some(item)
    ensures IdCount(floating + [item], item.id) == 1
  {
    if floating == [] {
    } else {
      assert (floating + [item])[1..] == floating[1..] + [item];
      FindAppended(floating[1..], item);
    }
  }

  lemma {:induction false} WithoutAppended(floating: seq<FloatingChart>, item: FloatingChart)
    requires IdCount(floating, item.id) == 0
    ensures WithoutChart(floating + [item], item.id) == floating
  {
    if floating == [] {
      assert [item][1..] == [];
    } else {
      assert (floating + [item])[1..] == floating[1..] + [item];
      WithoutAppended(floating[1..], item);
    }
  }

  /** Undocking a chart and dropping it back on the same slot restores both the slots and the floating list. */
  lemma UndockThenAttachRestores(d: Docked, floating: seq<FloatingChart>, zone: Zone, spawnX: real, spawnY: real)
    requires d.Get(zone).Some? && IdCount(floating, d.Get(zone).value.id) == 0
    ensures var u := Undock(d, floating, zone, spawnX, spawnY);
            Attach(u.0, u.1, d.Get(zone).value.id, zone) == (d, floating)
  {
    var cfg := d.Get(zone).value;
    var item := FloatingChart(cfg.id, cfg, spawnX, spawnY);
    FindAppended(floating, item);
    WithoutAppended(floating, item);
    var u := Undock(d, floating, zone, spawnX, spawnY);
    assert u.1 == floating + [item];
    var r := Attach(u.0, u.1, cfg.id, zone);
    assert r.0.Get(zone) == d.Get(zone) && r.0.Get(zone.Other()) == d.Get(zone.Other());
    assert r.0 == d by {
      if zone == First {
        assert r.0.first == d.first && r.0.second == d.second;
      } else {
        assert r.0.first == d.first && r.0.second == d.second;
      }
    }
  }

  /** A docked config after an edit: the new tags, times, frequency and sample type; id and colour kept. */
  function Edited(c: ChartConfig, st: Settings): (e: ChartConfig)
    requires Complete(st)
    ensures e.id == c.id && e.color == c.color
    ensures e.tags == st.tags.value && e.startTime == st.startTime.value && e.endTime == st.endTime.value
    ensures e.freq == st.freq && e.sampleType == st.sampleType
  {
    c.(tags := st.tags.value, startTime := st.startTime.value, endTime := st.endTime.value,
       freq := st.freq, sampleType := st.sampleType)
  }

  /** The edit branch of `handleApplySettings`: only slots whose config id is `editingId` change. */
  function ApplyEdit(d: Docked, editingId: string, st: Settings): (r: Docked)
    requires Complete(st)
    ensures forall z: Zone :: d.Get(z).Some? && d.Get(z).value.id == editingId ==> r.Get(z) == Some(Edited(d.Get(z).value, st))
    ensures forall z: Zone :: !(d.Get(z).Some? && d.Get(z).value.id == editingId) ==> r.Get(z) == d.Get(z)
    ensures r.Occupied() == d.Occupied()
  {
    var e1 := if d.first.Some? && d.first.value.id == editingId then Some(Edited(d.first.value, st)) else d.first;
    var e2 := if d.second.Some? && d.second.value.id == editingId then Some(Edited(d.second.value, st)) else d.second;
    Docked(e1, e2)
  }

  /** The create branch: a new floating chart built from the settings, with the generated id and colour. */
  function NewChart(st: Settings, id: string, color: string, x: real, y: real): (f: FloatingChart)
    requires Complete(st)
    ensures f.id == id && f.cfg.id == id && f.cfg.color == color && f.x == x && f.y == y
    ensures f.cfg == Edited(f.cfg, st)
  {
    FloatingChart(id, ChartConfig(id, st.tags.value, st.startTime.value, st.endTime.value, st.freq, st.sampleType, color), x, y)
  }

  /** The first `n` instants of the series `s`, `s + step`, `s + 2 * step`, ... */
  function Stamps(s: real, step: real, n: nat): (r: seq<real>)
    ensures |r| == n
  {
    if n == 0 then [] else Stamps(s, step, n - 1) + [s + (n - 1) as real * step]
  }

  lemma {:induction false} StampsAt(s: real, step: real, n: nat, i: nat)
    requires i < n
    ensures Stamps(s, step, n)[i] == s + i as real * step
  {
    if i < n - 1 {
      StampsAt(s, step, n - 1, i);
    }
  }

  /**
   * `generateTimeLabels(start, end, freqInSec)`, returning the instants (in
   * milliseconds) that are formatted as labels; a date is `None` when invalid.
   * The result is empty when a date is invalid, the frequency is not positive or
   * the start is after the end; otherwise it runs from the start in steps of
   * `freqInSec` seconds and its last instant is the last one not after the end.
   */
  method TimeStamps(start: Option<int>, end: Option<int>, freqInSec: real) returns (ts: seq<real>)
    ensures start.None? || end.None? || freqInSec <= 0.0 || start.value > end.value ==> ts == []
    ensures start.Some? && end.Some? && freqInSec > 0.0 && start.value <= end.value ==>
              |ts| == Floor((end.value - start.value) as real / (freqInSec * 1000.0)) + 1
              && ts == Stamps(start.value as real, freqInSec * 1000.0, |ts|)
              && ts[|ts| - 1] <= end.value as real < ts[|ts| - 1] + freqInSec * 1000.0
  {
    ts := [];
    if start.None? || end.None? || freqInSec <= 0.0 || start.value > end.value {
      return;
    }
    ts := StampsUntil(start.value as real, end.value as real, freqInSec * 1000.0);
  }

  lemma MulSucc(n: nat, step: real)
    ensures (n + 1) as real * step == n as real * step + step
  {
  }

  /** One turn of the labelling loop keeps its invariant and brings the end one step closer. */
  lemma StampStep(s: real, e: real, step: real, t: real, n: nat)
    requires step > 0.0 && t <= e && t == s + n as real * step
    ensures t + step == s + (n + 1) as real * step
    ensures Stamps(s, step, n + 1) == Stamps(s, step, n) + [t]
    ensures 0 <= Floor((e - (t + step)) / step) + 1 < Floor((e - t) / step) + 1
  {
    MulSucc(n, step);
    DivShift(e - t, step);
    assert e - (t + step) == (e - t) - step;
  }

  /** When the loop stops, the instants it produced are exactly `Floor((e - s) / step) + 1` of them. */
  lemma StampsDone(s: real, e: real, step: real, t: real, n: nat)
    requires step > 0.0 && s <= e && e < t && t == s + n as real * step
    requires n > 0 ==> t - step <= e
    ensures n > 0 && n == Floor((e - s) / step) + 1
    ensures Stamps(s, step, n)[n - 1] <= e < Stamps(s, step, n)[n - 1] + step
  {
    MulSucc(n - 1, step);
    FloorBetween(e - s, step, n - 1);
    StampsAt(s, step, n, n - 1);
  }

  /** The labelling loop: instants from `s` in steps of `step` while not after `e`. */
  method StampsUntil(s: real, e: real, step: real) returns (ts: seq<real>)
    requires step > 0.0 && s <= e
    ensures |ts| == Floor((e - s) / step) + 1
    ensures ts == Stamps(s, step, |ts|)
    ensures ts[|ts| - 1] <= e < ts[|ts| - 1] + step
  {
    ts := [];
    var t := s;
    var n: nat := 0;
    while t <= e
      invariant ts == Stamps(s, step, n)
      invariant t == s + n as real * step
      invariant n > 0 ==> t - step <= e
      decreases Floor((e - t) / step) + 1
    {
      StampStep(s, e, step, t, n);
      ts := ts + [t];
      t := t + step;
      n := n + 1;
    }
    StampsDone(s, e, step, t, n);
  }

  /** `mockChartData[tag]?.values || []`. */
  function RawValues(mock: map<string, seq<Num>>, tag: string): seq<Num>
  {
    if tag in mock then mock[tag] else []
  }

  /**
   * The datasets of `toChartProps`: one per tag, each as long as the shorter of
   * the label list and the tag's raw values, with non-finite values shown as 0.
   */
  function ChartData(cfg: ChartConfig, labelCount: nat, mock: map<string, seq<Num>>): (datasets: seq<seq<real>>)
    ensures |datasets| == |cfg.tags|
    ensures forall i :: 0 <= i < |datasets| ==>
              var raw := RawValues(mock, cfg.tags[i]);
              |datasets[i]| == (if labelCount <= |raw| then labelCount else |raw|)
              && forall j :: 0 <= j < |datasets[i]| ==>
                   (raw[j].Finite? ==> datasets[i][j] == raw[j].value) && (raw[j].NonFinite? ==> datasets[i][j] == 0.0)
  {
    seq(|cfg.tags|, i requires 0 <= i < |cfg.tags| =>
      var raw := RawValues(mock, cfg.tags[i]);
      seq(if labelCount <= |raw| then labelCount else |raw|, j requires 0 <= j < |raw| && j < labelCount => Sanitize(raw[j])))
  }
}
