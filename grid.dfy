/** Grid geometry (src/grid.rs): a fence-post set of line rectangles for a
    table of `nrows` rows of height `rowHeight` and `ncols` columns of width
    `colWidth`, every rule `lineWidth` thick. */
module GridGeometry {
  import opened Coords
  import Line

  /** The grid's metrics, as `Grid::new` stores them. Row and column counts are
      `usize`, modelled as unbounded naturals. */
  datatype Grid = Grid(nrows: nat, ncols: nat, rowHeight: real, colWidth: real, lineWidth: real)
  {
    /** Number of line rectangles: one more rule than rows, one more than columns. */
    function NLines(): nat
    {
      nrows + ncols + 2
    }

    /** Pixel extent (width, height): the last rule's far edge on each axis. */
    function Size(): (real, real)
    {
      (ncols as real * colWidth + lineWidth, nrows as real * rowHeight + lineWidth)
    }

    /** The horizontal rule above row `i` (the bottom rule when `i == nrows`). */
    function HLine(i: nat): Line.Instance
    {
      Line.New((0.0, i as real * rowHeight), (Size().0, lineWidth))
    }

    /** The vertical rule left of column `j` (the right rule when `j == ncols`). */
    function VLine(j: nat): Line.Instance
    {
      Line.New((j as real * colWidth, 0.0), (lineWidth, Size().1))
    }

    /** All rules: the `nrows + 1` horizontal ones, then the `ncols + 1` vertical ones. */
    function LineInstances(): seq<Line.Instance>
    {
      var hlines := seq(nrows + 1, i requires 0 <= i => HLine(i));
      var vlines := seq(ncols + 1, j requires 0 <= j => VLine(j));
      hlines + vlines
    }
  }

  /** `Grid::new` keeps its five arguments unchanged. */
  function New(nrows: nat, ncols: nat, rowHeight: real, colWidth: real, lineWidth: real): (g: Grid)
    ensures g.nrows == nrows && g.ncols == ncols
    ensures g.rowHeight == rowHeight && g.colWidth == colWidth && g.lineWidth == lineWidth
  {
    Grid(nrows, ncols, rowHeight, colWidth, lineWidth)
  }

  /** `line_instances` yields exactly `NLines()` rules: `nrows + 1` horizontal
      ones and `ncols + 1` vertical ones (fence posts on both axes). */
  lemma LineCount(g: Grid)
    ensures |g.LineInstances()| == g.NLines() == (g.nrows + 1) + (g.ncols + 1)
  {
  }

  /** Element `i <= nrows` is horizontal rule `i`: it starts at the left edge at
      height `i * rowHeight` and spans the full width, `lineWidth` thick. */
  lemma HorizontalLineAt(g: Grid, i: nat)
    requires i <= g.nrows
    ensures i < |g.LineInstances()|
    ensures ToPair(g.LineInstances()[i].offset) == (0.0, i as real * g.rowHeight)
    ensures ToPair(g.LineInstances()[i].scale) == (g.Size().0, g.lineWidth)
  {
    assert g.LineInstances()[i] == g.HLine(i);
  }

  /** Element `nrows + 1 + j` for `j <= ncols` is vertical rule `j`: it starts at
      the top at `j * colWidth` and spans the full height, `lineWidth` thick. */
  lemma VerticalLineAt(g: Grid, j: nat)
    requires j <= g.ncols
    ensures g.nrows + 1 + j < |g.LineInstances()|
    ensures ToPair(g.LineInstances()[g.nrows + 1 + j].offset) == (j as real * g.colWidth, 0.0)
    ensures ToPair(g.LineInstances()[g.nrows + 1 + j].scale) == (g.lineWidth, g.Size().1)
  {
    assert g.LineInstances()[g.nrows + 1 + j] == g.VLine(j);
  }

  /** Which group the element at index `k` belongs to, read off its position. */
  predicate IsHorizontalIndex(g: Grid, k: nat)
  {
    k <= g.nrows
  }

  /** Every element is exactly one rule: the horizontal rule `k` when `k <= nrows`,
      otherwise the vertical rule `k - nrows - 1`; so all horizontal rules come
      first, each group in increasing rule order. */
  lemma LinesInOrder(g: Grid, k: nat)
    requires k < |g.LineInstances()|
    ensures IsHorizontalIndex(g, k) ==> g.LineInstances()[k] == g.HLine(k)
    ensures !IsHorizontalIndex(g, k) ==> k - g.nrows - 1 <= g.ncols && g.LineInstances()[k] == g.VLine(k - g.nrows - 1)
  {
  }

  /** With a positive row height, horizontal rules go strictly downwards. */
  lemma {:induction false} HorizontalOffsetsIncreasing(g: Grid, i: nat, j: nat)
    requires g.rowHeight > 0.0
    requires i < j <= g.nrows
    ensures g.LineInstances()[i].offset[1] < g.LineInstances()[j].offset[1]
  {
    HorizontalLineAt(g, i);
    HorizontalLineAt(g, j);
    MulStrictlyMonotone(i, j, g.rowHeight);
  }

  /** With a positive column width, vertical rules go strictly rightwards. */
  lemma {:induction false} VerticalOffsetsIncreasing(g: Grid, i: nat, j: nat)
    requires g.colWidth > 0.0
    requires i < j <= g.ncols
    ensures g.LineInstances()[g.nrows + 1 + i].offset[0] < g.LineInstances()[g.nrows + 1 + j].offset[0]
  {
    VerticalLineAt(g, i);
    VerticalLineAt(g, j);
    MulStrictlyMonotone(i, j, g.colWidth);
  }

  lemma MulStrictlyMonotone(i: nat, j: nat, h: real)
    requires i < j && h > 0.0
    ensures i as real * h < j as real * h
  {
    assert j as real * h - i as real * h == (j - i) as real * h;
  }

  lemma MulMonotone(i: nat, j: nat, h: real)
    requires i <= j && h >= 0.0
    ensures i as real * h <= j as real * h
  {
    assert j as real * h - i as real * h == (j - i) as real * h;
  }

  /** The far edge of the last horizontal rule is the grid's height,
      `nrows * rowHeight + lineWidth`, and the far edge of the last vertical rule
      is its width, `ncols * colWidth + lineWidth`. */
  lemma LastLinesReachSize(g: Grid)
    ensures g.LineInstances()[g.nrows].offset[1] + g.LineInstances()[g.nrows].scale[1] == g.Size().1
    ensures g.LineInstances()[g.NLines() - 1].offset[0] + g.LineInstances()[g.NLines() - 1].scale[0] == g.Size().0
    ensures g.Size().0 == g.ncols as real * g.colWidth + g.lineWidth
    ensures g.Size().1 == g.nrows as real * g.rowHeight + g.lineWidth
  {
    HorizontalLineAt(g, g.nrows);
    VerticalLineAt(g, g.ncols);
  }

  /** With non-negative metrics every rule is a proper rectangle lying inside
      the grid's extent. */
  lemma {:induction false} LinesWithinSize(g: Grid, k: nat)
    requires g.rowHeight >= 0.0 && g.colWidth >= 0.0 && g.lineWidth >= 0.0
    requires k < |g.LineInstances()|
    ensures 0.0 <= g.LineInstances()[k].offset[0]
    ensures 0.0 <= g.LineInstances()[k].offset[1]
    ensures g.LineInstances()[k].offset[0] + g.LineInstances()[k].scale[0] <= g.Size().0
    ensures g.LineInstances()[k].offset[1] + g.LineInstances()[k].scale[1] <= g.Size().1
    ensures 0.0 <= g.LineInstances()[k].scale[0] && 0.0 <= g.LineInstances()[k].scale[1]
  {
    var r := g.LineInstances()[k];
    if k <= g.nrows {
      HorizontalLineAt(g, k);
      MulMonotone(0, k, g.rowHeight);
      MulMonotone(k, g.nrows, g.rowHeight);
      MulMonotone(0, g.ncols, g.colWidth);
      assert r.offset[1] + r.scale[1] == k as real * g.rowHeight + g.lineWidth;
      assert r.offset[0] + r.scale[0] == g.Size().0;
    } else {
      var j := k - g.nrows - 1;
      VerticalLineAt(g, j);
      MulMonotone(0, j, g.colWidth);
      MulMonotone(j, g.ncols, g.colWidth);
      MulMonotone(0, g.nrows, g.rowHeight);
      assert r.offset[0] + r.scale[0] == j as real * g.colWidth + g.lineWidth;
      assert r.offset[1] + r.scale[1] == g.Size().1;
    }
  }

  /** A 3-row, 2-column grid with 20-pixel rows, 100-pixel columns and 2-pixel
      rules: 7 rules, the first at (0, 0) spanning 202 x 2, the last vertical one
      at (200, 0) spanning 2 x 62. */
  lemma SmallGridExample()
    ensures var g := New(3, 2, 20.0, 100.0, 2.0);
      && |g.LineInstances()| == 7
      && ToPair(g.LineInstances()[0].offset) == (0.0, 0.0)
      && ToPair(g.LineInstances()[0].scale) == (202.0, 2.0)
      && ToPair(g.LineInstances()[6].offset) == (200.0, 0.0)
      && ToPair(g.LineInstances()[6].scale) == (2.0, 62.0)
  {
  }
}
