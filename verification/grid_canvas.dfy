/** The grid background and the highlight drawn around the cells a dragged widget targets. */
module GridCanvas {
  import opened Options

  /** The drawable grid area: the canvas less the padding on each side. */
  datatype Area = Area(w: real, h: real)

  function GridArea(width: real, height: real, padding: real): (a: Area)
    ensures a.w + 2.0 * padding == width && a.h + 2.0 * padding == height
  {
    Area(width - padding * 2.0, height - padding * 2.0)
  }

  /** The targeted cell rectangle, in whole cells. */
  datatype Highlight = Highlight(col: int, row: int, w: int, h: int, valid: bool)

  /** The highlighted cells grown by one on every side, inclusive bounds. */
  datatype Region = Region(startR: int, endR: int, startC: int, endC: int)

  function Max(a: int, b: int): int { if a >= b then a else b }
  function Min(a: int, b: int): int { if a <= b then a else b }

  predicate InRegion(g: Region, r: int, c: int) {
    g.startR <= r <= g.endR && g.startC <= c <= g.endC
  }

  /** `region`: the highlight padded by one cell and cut to the grid; none without a highlight. */
  function RegionOf(highlight: Option<Highlight>, rows: int, cols: int): (g: Option<Region>)
    ensures g.None? <==> highlight.None?
    ensures g.Some? ==> 0 <= g.value.startR && g.value.endR <= rows - 1
    ensures g.Some? ==> 0 <= g.value.startC && g.value.endC <= cols - 1
  {
    match highlight
    case None => None
    case Some(hl) =>
      var pad := 1;
      Some(Region(Max(0, hl.row - pad), Min(rows - 1, hl.row + hl.h + pad - 1),
                  Max(0, hl.col - pad), Min(cols - 1, hl.col + hl.w + pad - 1)))
  }

  /**
   * A cell is in the region exactly when it is on the grid and at most one cell
   * away from the highlighted rectangle.
   */
  lemma RegionIsPaddedHighlight(hl: Highlight, rows: int, cols: int, r: int, c: int)
    ensures InRegion(RegionOf(Some(hl), rows, cols).value, r, c) <==>
              (0 <= r < rows && 0 <= c < cols &&
               hl.row - 1 <= r < hl.row + hl.h + 1 && hl.col - 1 <= c < hl.col + hl.w + 1)
  {
  }

  /** `Array.from({ length: end - start + 2 }, (_, i) => start + i)`; a negative length gives no lines. */
  function Lines(start: int, end: int): (ls: seq<int>)
    ensures |ls| == Max(0, end - start + 2)
    ensures forall i :: 0 <= i < |ls| ==> ls[i] == start + i
  {
    seq(Max(0, end - start + 2), i => start + i)
  }

  /** The column boundaries that jitter: none without a region. */
  function VLines(g: Option<Region>): (ls: seq<int>)
    ensures g.None? ==> ls == []
    ensures g.Some? ==> ls == Lines(g.value.startC, g.value.endC)
  {
    if g.None? then [] else Lines(g.value.startC, g.value.endC)
  }

  /** The row boundaries that jitter: none without a region. */
  function HLines(g: Option<Region>): (ls: seq<int>)
    ensures g.None? ==> ls == []
    ensures g.Some? ==> ls == Lines(g.value.startR, g.value.endR)
  {
    if g.None? then [] else Lines(g.value.startR, g.value.endR)
  }

  /** A non-empty run of cells has every boundary from its first cell's left edge to its last cell's right edge. */
  lemma LinesBoundCells(start: int, end: int, k: int)
    requires start <= end
    ensures Lines(start, end)[0] == start && Lines(start, end)[|Lines(start, end)| - 1] == end + 1
    ensures start <= k <= end + 1 <==> k in Lines(start, end)
  {
    if start <= k <= end + 1 {
      assert Lines(start, end)[k - start] == k;
    }
  }

  /** One row of micro cells, columns `c` through `endC`, in order. */
  function RowCells(r: int, c: int, endC: int): (cs: seq<(int, int)>)
    ensures |cs| == Max(0, endC - c + 1)
    ensures forall i :: 0 <= i < |cs| ==> cs[i] == (r, c + i)
    decreases endC - c
  {
    if c > endC then [] else [(r, c)] + RowCells(r, c + 1, endC)
  }

  /** Micro cells of rows `r` through `endR`, row by row. */
  function CellsFrom(r: int, g: Region): (cs: seq<(int, int)>)
    ensures |cs| == Max(0, g.endR - r + 1) * Max(0, g.endC - g.startC + 1)
    ensures forall rr, c :: (rr, c) in cs <==> r <= rr <= g.endR && g.startC <= c <= g.endC
    decreases g.endR - r
  {
    if r > g.endR then []
    else
      var row := RowCells(r, g.startC, g.endC);
      var rest := CellsFrom(r + 1, g);
      assert forall c :: (r, c) in row <==> g.startC <= c <= g.endC by {
        forall c | g.startC <= c <= g.endC ensures (r, c) in row {
          assert row[c - g.startC] == (r, c);
        }
      }
      assert |rest| == Max(0, g.endR - r) * Max(0, g.endC - g.startC + 1);
      assert Max(0, g.endR - r + 1) == Max(0, g.endR - r) + 1;
      row + rest
  }

  /** The micro cell tiles drawn over the region: one per cell, row-major, only with a highlight. */
  function MicroCells(highlight: Option<Highlight>, rows: int, cols: int): (cs: seq<(int, int)>)
    ensures highlight.None? ==> cs == []
    ensures highlight.Some? ==> forall r, c :: (r, c) in cs <==> InRegion(RegionOf(highlight, rows, cols).value, r, c)
  {
    var g := RegionOf(highlight, rows, cols);
    if highlight.None? then [] else CellsFrom(g.value.startR, g.value)
  }
}
