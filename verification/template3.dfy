/** The grid dashboard screen: free-floating charts that snap to a 12-point grid. */
module Template3 {
  import opened Options
  import opened Numbers

  const CellSize: int := 10
  const CellMargin: int := 1
  /** `STEP = CELL_SIZE + CELL_MARGIN * 2`. */
  const Step: int := CellSize + CellMargin * 2

  /** `GRID_COLUMNS`: whole grid steps across the window width. */
  function GridColumns(screenWidth: real): (n: int)
    ensures n as real * 12.0 <= screenWidth < (n + 1) as real * 12.0
  {
    Floor(screenWidth / Step as real)
  }

  /** `GRID_ROWS`: grid steps needed to cover the window height, a partial one included. */
  function GridRows(screenHeight: real): (n: int)
    ensures (n - 1) as real * 12.0 < screenHeight <= n as real * 12.0
  {
    Ceil(screenHeight / Step as real)
  }

  /** A value lies on a grid line: it is a whole number of grid steps. */
  predicate OnGrid(v: real) {
    Floor(v / 12.0) as real * 12.0 == v
  }

  /** Scaling the rounding bounds of `v / 12` by 12. */
  lemma ScaledRound(v: real, k: int)
    requires v / 12.0 - 0.5 < k as real <= v / 12.0 + 0.5
    ensures v - 6.0 < (k * 12) as real <= v + 6.0
  {
    var q := v / 12.0;
    assert q * 12.0 == v;
    assert (q - 0.5) * 12.0 < k as real * 12.0;
    assert k as real * 12.0 <= (q + 0.5) * 12.0;
  }

  /** One coordinate snapped to the nearest grid line: `Math.round(v / STEP) * STEP`. */
  function Snap(v: real): (r: real)
    ensures OnGrid(r)
    ensures v - 6.0 < r <= v + 6.0
  {
    var k := Round(v / Step as real);
    ScaledRound(v, k);
    assert (k * 12) as real / 12.0 == k as real;
    (k * Step) as real
  }

  /** Snapping a snapped value changes nothing. */
  lemma SnapIdempotent(v: real)
    ensures Snap(Snap(v)) == Snap(v)
  {
    var k := Round(v / 12.0);
    assert Snap(v) / 12.0 == k as real;
    RoundInt(k);
  }

  /** A value already on a grid line is left where it is. */
  lemma SnapOnGrid(v: real)
    requires OnGrid(v)
    ensures Snap(v) == v
  {
    var k := Floor(v / 12.0);
    assert v / 12.0 == k as real;
    RoundInt(k);
  }

  /** The four numbers handed to `snapToGrid`. */
  datatype Box = Box(x: real, y: real, w: real, h: real)

  /** `snapToGrid(x, y, w, h)`: each number snapped on its own. */
  function SnapToGrid(b: Box): (s: Box)
    ensures OnGrid(s.x) && OnGrid(s.y) && OnGrid(s.w) && OnGrid(s.h)
    ensures Abs(s.x - b.x) <= 6.0 && Abs(s.y - b.y) <= 6.0 && Abs(s.w - b.w) <= 6.0 && Abs(s.h - b.h) <= 6.0
  {
    Box(Snap(b.x), Snap(b.y), Snap(b.w), Snap(b.h))
  }

  /** Snapping a snapped box changes nothing. */
  lemma SnapToGridIdempotent(b: Box)
    ensures SnapToGrid(SnapToGrid(b)) == SnapToGrid(b)
  {
    SnapIdempotent(b.x);
    SnapIdempotent(b.y);
    SnapIdempotent(b.w);
    SnapIdempotent(b.h);
  }

  /** The cells `(row, column)` with `startRow <= row < endRow` and `startCol <= column < endCol`. */
  function CellRange(startRow: int, endRow: int, startCol: int, endCol: int): set<(int, int)>
  {
    set r, c | startRow <= r < endRow && startCol <= c < endCol :: (r, c)
  }

  /** A cell range is empty exactly when one of its two ranges is. */
  lemma CellRangeEmpty(startRow: int, endRow: int, startCol: int, endCol: int)
    ensures CellRange(startRow, endRow, startCol, endCol) == {} <==> startRow >= endRow || startCol >= endCol
  {
    if startRow < endRow && startCol < endCol {
      assert (startRow, startCol) in CellRange(startRow, endRow, startCol, endCol);
    }
  }

  /** Adding cell `(r, c)` to row `r`'s columns `[startCol, c)` gives columns `[startCol, c + 1)`. */
  lemma CellRowGrows(r: int, startCol: int, c: int)
    requires startCol <= c
    ensures CellRange(r, r + 1, startCol, c) + {(r, c)} == CellRange(r, r + 1, startCol, c + 1)
  {
  }

  /** A finished row joins the rows above it. */
  lemma CellRowsJoin(startRow: int, r: int, startCol: int, endCol: int, c: int)
    requires startRow <= r
    requires c == endCol || (c == startCol && startCol >= endCol)
    ensures CellRange(startRow, r, startCol, endCol) + CellRange(r, r + 1, startCol, c)
            == CellRange(startRow, r + 1, startCol, endCol)
  {
  }

  /** Once the row loop stops, the rows it covered are exactly the rows asked for. */
  lemma CellRowsDone(startRow: int, r: int, endRow: int, startCol: int, endCol: int)
    requires r == endRow || (r == startRow && startRow >= endRow)
    ensures CellRange(startRow, r, startCol, endCol) == CellRange(startRow, endRow, startCol, endCol)
  {
  }

  /** The cells a rectangle in screen points touches: rows `floor(y / 12)` up to `ceil((y + h) / 12)`, likewise columns. */
  function CoveredCells(x: real, y: real, w: real, h: real): set<(int, int)>
  {
    CellRange(Floor(y / 12.0), Ceil((y + h) / 12.0), Floor(x / 12.0), Ceil((x + w) / 12.0))
  }

  /** A rectangle covers no cell exactly when its row range or its column range is empty. */
  lemma CoveredCellsEmpty(x: real, y: real, w: real, h: real)
    ensures CoveredCells(x, y, w, h) == {} <==>
              Floor(y / 12.0) >= Ceil((y + h) / 12.0) || Floor(x / 12.0) >= Ceil((x + w) / 12.0)
  {
    CellRangeEmpty(Floor(y / 12.0), Ceil((y + h) / 12.0), Floor(x / 12.0), Ceil((x + w) / 12.0));
  }

  datatype ChartKind = Line | Last

  /** This screen's `ChartConfig`, which also records the chart kind. */
  datatype GridChartConfig = GridChartConfig(
    id: string, kind: ChartKind, tags: seq<string>, startTime: string, endTime: string,
    freq: real, sampleType: string, color: string)

  /** A floating chart with its position and size. */
  datatype Item = Item(id: string, cfg: GridChartConfig, x: real, y: real, w: real, h: real)

  /** The payload of `handleApplySettings`; `None` stands for `null`. */
  datatype Payload = Payload(
    tags: seq<string>, startTime: Option<string>, endTime: Option<string>,
    freq: Option<real>, sampleType: Option<string>)

  /** The settings applied to one config, with `""`, `""`, `0` and `AVG` for the missing fields. */
  function WithPayload(c: GridChartConfig, p: Payload): (e: GridChartConfig)
    ensures e.id == c.id && e.kind == c.kind && e.color == c.color && e.tags == p.tags
    ensures e.startTime == p.startTime.GetOr("") && e.endTime == p.endTime.GetOr("")
    ensures e.freq == p.freq.GetOr(0.0) && e.sampleType == p.sampleType.GetOr("AVG")
  {
    c.(tags := p.tags, startTime := p.startTime.GetOr(""), endTime := p.endTime.GetOr(""),
       freq := p.freq.GetOr(0.0), sampleType := p.sampleType.GetOr("AVG"))
  }

  /** The `prev.map(f => f.id === id ? ... : f)` of `handleApplySettings`. */
  function ApplyPayload(floating: seq<Item>, id: string, p: Payload): (r: seq<Item>)
    ensures |r| == |floating|
    ensures forall i :: 0 <= i < |r| && floating[i].id != id ==> r[i] == floating[i]
    ensures forall i :: 0 <= i < |r| && floating[i].id == id ==>
              r[i] == floating[i].(cfg := WithPayload(floating[i].cfg, p))
  {
    seq(|floating|, i requires 0 <= i < |floating| =>
      if floating[i].id == id then floating[i].(cfg := WithPayload(floating[i].cfg, p)) else floating[i])
  }

  /** The list update of `onDrop`: the dropped item takes the snapped geometry. */
  function MoveTo(floating: seq<Item>, id: string, s: Box): (r: seq<Item>)
    ensures |r| == |floating|
    ensures forall i :: 0 <= i < |r| && floating[i].id != id ==> r[i] == floating[i]
    ensures forall i :: 0 <= i < |r| && floating[i].id == id ==>
              r[i].id == id && r[i].cfg == floating[i].cfg && r[i].x == s.x && r[i].y == s.y && r[i].w == s.w && r[i].h == s.h
  {
    seq(|floating|, i requires 0 <= i < |floating| =>
      if floating[i].id == id then floating[i].(x := s.x, y := s.y, w := s.w, h := s.h) else floating[i])
  }

  /** The screen's state. */
  class Screen {
    var floating: seq<Item>
    var modalVisible: bool
    /** `activeCells`, with each `"${r}-${c}"` key as the pair `(r, c)`. */
    var activeCells: set<(int, int)>

    constructor ()
      ensures floating == [] && !modalVisible && activeCells == {}
    {
      floating := [];
      modalVisible := false;
      activeCells := {};
    }

    /**
     * `createFloating(kind)`: append one chart at (50, 150), 160 by 120, with no
     * tags, start and end at `now`, frequency 60 and sample type `AVG`. The id and
     * colour come from the caller.
     */
    method CreateFloating(kind: ChartKind, id: string, color: string, now: string)
      modifies this`floating
      ensures |floating| == |old(floating)| + 1 && floating[..|old(floating)|] == old(floating)
      ensures floating[|floating| - 1] ==
                Item(id, GridChartConfig(id, kind, [], now, now, 60.0, "AVG", color), 50.0, 150.0, 160.0, 120.0)
    {
      var cfg := GridChartConfig(id, kind, [], now, now, 60.0, "AVG", color);
      floating := floating + [Item(cfg.id, cfg, 50.0, 150.0, 160.0, 120.0)];
    }

    /** `updateActiveCells(x, y, w, h)`: the two nested loops that fill the new set. */
    method UpdateActiveCells(x: real, y: real, w: real, h: real)
      modifies this`activeCells
      ensures activeCells == CoveredCells(x, y, w, h)
      ensures activeCells == {} <==> Floor(y / 12.0) >= Ceil((y + h) / 12.0) || Floor(x / 12.0) >= Ceil((x + w) / 12.0)
    {
      assert Step as real == 12.0;
      var newSet: set<(int, int)> := {};
      var startCol := Floor(x / Step as real);
      var startRow := Floor(y / Step as real);
      var endCol := Ceil((x + w) / Step as real);
      var endRow := Ceil((y + h) / Step as real);
      var r := startRow;
      while r < endRow
        invariant startRow <= r && (r <= endRow || r == startRow)
        invariant newSet == CellRange(startRow, r, startCol, endCol)
        decreases endRow - r
      {
        var c := startCol;
        while c < endCol
          invariant startCol <= c && (c <= endCol || c == startCol)
          invariant newSet == CellRange(startRow, r, startCol, endCol) + CellRange(r, r + 1, startCol, c)
          decreases endCol - c
        {
          CellRowGrows(r, startCol, c);
          newSet := newSet + {(r, c)};
          c := c + 1;
        }
        CellRowsJoin(startRow, r, startCol, endCol, c);
        r := r + 1;
      }
      CellRowsDone(startRow, r, endRow, startCol, endCol);
      activeCells := newSet;
      CoveredCellsEmpty(x, y, w, h);
    }

    /**
     * `handleApplySettings(payload, id)`: without an id nothing happens;
     * otherwise the charts with that id take the payload and the modal closes.
     */
    method HandleApplySettings(p: Payload, id: Option<string>)
      modifies this`floating, this`modalVisible
      ensures id.None? || id.value == "" ==> floating == old(floating) && modalVisible == old(modalVisible)
      ensures id.Some? && id.value != "" ==> floating == ApplyPayload(old(floating), id.value, p) && !modalVisible
    {
      if id.None? || id.value == "" {
        return;
      }
      floating := ApplyPayload(floating, id.value, p);
      modalVisible := false;
    }

    /** `onDrop` for the chart `id`: snap the reported box, move the chart there, clear the highlight. */
    method OnDrop(id: string, absX: real, absY: real, width: real, height: real)
      modifies this`floating, this`activeCells
      ensures floating == MoveTo(old(floating), id, SnapToGrid(Box(absX, absY, width, height)))
      ensures activeCells == {}
    {
      var snapped := SnapToGrid(Box(absX, absY, width, height));
      floating := MoveTo(floating, id, snapped);
      activeCells := {};
    }
  }
}
