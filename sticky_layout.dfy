/**
 * The sticky-area layout engine (src/miro/sticky-layout.ts): packs N square
 * stickies into a W x H area. The sticky size is searched downwards from a
 * start size, and for each size the row count upwards; the first
 * (size, rows, cols) whose grid fits is taken, the grid is centred, and the
 * centres are emitted row by row.
 *
 * Area, maximum size and separation are integers; centres are exact reals
 * because they contain halves.
 */
module StickyLayout {
  import opened Wrappers
  import opened TemplateTypes

  /** The inputs of `getStickyPositions`. */
  datatype LayoutParams = LayoutParams(
    areaWidth: int,
    areaHeight: int,
    maxStickySize: int,
    numStickies: nat,
    separation: int)

  /** Chosen sticky size and grid shape; `Layout(0, 0, 0)` when nothing fits. */
  datatype Layout = Layout(stickySize: int, rows: nat, cols: nat)

  /** `Math.ceil(a / b)` for a non-negative `a` and a positive `b`. */
  function CeilDiv(a: nat, b: nat): (r: nat)
    requires b > 0
    ensures r * b >= a
    ensures r > 0 ==> (r - 1) * b < a
  {
    (a + b - 1) / b
  }

  /** `separation * (ceil(N / 2) - 1)`: how much the area is shrunk before the start size is chosen. */
  function SeparationOffset(p: LayoutParams): int
  {
    p.separation * (CeilDiv(p.numStickies, 2) - 1)
  }

  /** The largest size the search tries: the smallest of the maximum size and the two shrunk dimensions. */
  function StartSize(p: LayoutParams): (r: int)
    ensures r <= p.maxStickySize
    ensures r <= p.areaWidth - SeparationOffset(p) && r <= p.areaHeight - SeparationOffset(p)
    ensures r == p.maxStickySize || r == p.areaWidth - SeparationOffset(p) || r == p.areaHeight - SeparationOffset(p)
  {
    var offset := SeparationOffset(p);
    Min(p.maxStickySize, Min(p.areaWidth - offset, p.areaHeight - offset))
  }

  /** Extent of `k` stickies of `size` in a line, with `sep` between neighbours. */
  function GridExtent(k: int, size: int, sep: int): int
  {
    k * size + (k - 1) * sep
  }

  /** A grid of `rows` rows and `ceil(N / rows)` columns of stickies of `size` fits in the area. */
  predicate Fits(p: LayoutParams, size: int, rows: nat)
    requires rows >= 1
  {
    var cols := CeilDiv(p.numStickies, rows);
    (size + p.separation) * (rows - 1) + size <= p.areaHeight
    && (size + p.separation) * (cols - 1) + size <= p.areaWidth
  }

  /** The inner loop: the first row count from `rows` up to N that fits at `size`. */
  function RowSearch(p: LayoutParams, size: int, rows: nat): (r: Option<nat>)
    requires rows >= 1
    ensures r.Some? ==> rows <= r.value <= p.numStickies && Fits(p, size, r.value)
    ensures r.Some? ==> forall k :: rows <= k < r.value ==> !Fits(p, size, k)
    ensures r.None? ==> forall k :: rows <= k <= p.numStickies ==> !Fits(p, size, k)
    decreases p.numStickies + 1 - rows
  {
    if rows > p.numStickies then None
    else if Fits(p, size, rows) then Some(rows)
    else RowSearch(p, size, rows + 1)
  }

  /**
   * `l` is the first fit of a search that starts at size `start`: no larger
   * size down from `start` fits any row count, and at the chosen size no
   * smaller row count fits. Nothing fitting at all gives `Layout(0, 0, 0)`.
   */
  ghost predicate FirstFitFrom(p: LayoutParams, start: int, l: Layout)
  {
    (forall s, k :: l.stickySize < s <= start && 1 <= k <= p.numStickies ==> !Fits(p, s, k))
    && if l.stickySize > 0 then
      l.stickySize <= start
      && 1 <= l.rows <= p.numStickies
      && l.cols == CeilDiv(p.numStickies, l.rows)
      && Fits(p, l.stickySize, l.rows)
      && forall k :: 1 <= k < l.rows ==> !Fits(p, l.stickySize, k)
    else
      l == Layout(0, 0, 0)
  }

  /** The first fit of the search that starts at `StartSize(p)`. */
  ghost predicate IsFirstFit(p: LayoutParams, l: Layout)
  {
    FirstFitFrom(p, StartSize(p), l)
  }

  /** The outer loop: sizes from `size` down to 1. */
  function SizeSearch(p: LayoutParams, size: int): (r: Layout)
    ensures FirstFitFrom(p, size, r)
    decreases size
  {
    if size <= 0 then Layout(0, 0, 0)
    else match RowSearch(p, size, 1)
      case Some(rows) => Layout(size, rows, CeilDiv(p.numStickies, rows))
      case None => SizeSearch(p, size - 1)
  }

  /** The layout `calculateLayout` computes, as a function of its inputs. */
  function LayoutOf(p: LayoutParams): (r: Layout)
    ensures IsFirstFit(p, r)
  {
    SizeSearch(p, StartSize(p))
  }

  /** The first-fit conditions single out one layout. */
  lemma FirstFitUnique(p: LayoutParams, a: Layout, b: Layout)
    requires IsFirstFit(p, a) && IsFirstFit(p, b)
    ensures a == b
  {
  }

  /** `calculateLayout`: nested search loops with an early return on the first fit. */
  method CalculateLayout(p: LayoutParams) returns (l: Layout)
    ensures IsFirstFit(p, l)
    ensures l == LayoutOf(p)
  {
    var size := StartSize(p);
    while size > 0
      invariant size <= StartSize(p)
      invariant forall s, k :: size < s <= StartSize(p) && 1 <= k <= p.numStickies ==> !Fits(p, s, k)
      decreases size
    {
      var rows := 1;
      while rows <= p.numStickies
        invariant 1 <= rows <= p.numStickies + 1
        invariant forall k :: 1 <= k < rows ==> !Fits(p, size, k)
        decreases p.numStickies + 1 - rows
      {
        var cols := CeilDiv(p.numStickies, rows);
        if (size + p.separation) * (rows - 1) + size <= p.areaHeight
          && (size + p.separation) * (cols - 1) + size <= p.areaWidth
        {
          l := Layout(size, rows, cols);
          FirstFitUnique(p, l, LayoutOf(p));
          return;
        }
        rows := rows + 1;
      }
      size := size - 1;
    }
    l := Layout(0, 0, 0);
    FirstFitUnique(p, l, LayoutOf(p));
  }

  /** `(totalDimension - totalSize) / 2`: the margin that centres the grid. */
  function CenterMargin(totalDimension: int, totalSize: int): real
  {
    (totalDimension - totalSize) as real / 2.0
  }

  /** Centre coordinate of the sticky at grid index `index` along one axis. */
  function Coordinate(index: int, margin: real, size: int, separation: int): real
  {
    margin + (index * (size + separation)) as real + size as real / 2.0
  }

  /** Centre of the `i`-th sticky in row-major order: column `i mod cols`, row `i div cols`. */
  function PositionAt(p: LayoutParams, l: Layout, i: nat): Position
    requires l.cols > 0
  {
    Position(Coordinate(i % l.cols, MarginX(p, l), l.stickySize, p.separation),
             Coordinate(i / l.cols, MarginY(p, l), l.stickySize, p.separation))
  }

  /** Horizontal margin of the centred grid. */
  function MarginX(p: LayoutParams, l: Layout): real
  {
    CenterMargin(p.areaWidth, GridExtent(l.cols, l.stickySize, p.separation))
  }

  /** Vertical margin of the centred grid. */
  function MarginY(p: LayoutParams, l: Layout): real
  {
    CenterMargin(p.areaHeight, GridExtent(l.rows, l.stickySize, p.separation))
  }

  /** The positions `calculatePositions` emits: the first `min(N, rows * cols)` grid cells, row-major. */
  function PositionsOf(p: LayoutParams, l: Layout): (r: seq<Position>)
    ensures |r| == if l.cols == 0 then 0 else Min(p.numStickies, l.rows * l.cols)
  {
    if l.cols == 0 then []
    else seq(Min(p.numStickies, l.rows * l.cols), i requires 0 <= i => PositionAt(p, l, i))
  }

  lemma MulAtLeast(a: int, b: int)
    requires a >= 1 && b >= 0
    ensures a * b >= b
  {
  }

  /** The cell at (row, col) is the one `PositionAt` places at index `row * cols + col`. */
  lemma CellPosition(p: LayoutParams, l: Layout, i: nat, row: int, col: int)
    requires l.cols > 0 && row >= 0 && 0 <= col < l.cols && i == row * l.cols + col
    ensures PositionAt(p, l, i)
      == Position(Coordinate(col, MarginX(p, l), l.stickySize, p.separation),
                  Coordinate(row, MarginY(p, l), l.stickySize, p.separation))
  {
    RowMajorIndex(i, row, col, l.cols);
  }

  lemma RowMajorIndex(i: int, row: int, col: int, cols: int)
    requires cols > 0 && row >= 0 && 0 <= col < cols && i == row * cols + col
    ensures i / cols == row && i % cols == col
  {
    var q, r := i / cols, i % cols;
    assert cols * q + r == cols * row + col;
    assert cols * (q - row) == col - r;
    if q > row {
      MulAtLeast(q - row, cols);
    } else if q < row {
      MulAtLeast(row - q, cols);
    }
  }

  lemma MulMonotone(a: int, b: int, c: int)
    requires 0 <= a <= b && c >= 0
    ensures a * c <= b * c
  {
  }

  /** `calculatePositions`: rows outer, columns inner, stopping once N positions are out. */
  method CalculatePositions(p: LayoutParams, l: Layout) returns (positions: seq<Position>)
    ensures positions == PositionsOf(p, l)
  {
    var marginX := CenterMargin(p.areaWidth, GridExtent(l.cols, l.stickySize, p.separation));
    var marginY := CenterMargin(p.areaHeight, GridExtent(l.rows, l.stickySize, p.separation));
    assert marginX == MarginX(p, l) && marginY == MarginY(p, l);
    positions := [];
    var row := 0;
    ghost var rowStart := 0;
    while row < l.rows
      invariant 0 <= row <= l.rows && rowStart == row * l.cols
      invariant |positions| == Min(p.numStickies, rowStart)
      invariant forall i :: 0 <= i < |positions| ==> l.cols > 0 && positions[i] == PositionAt(p, l, i)
    {
      var col := 0;
      while col < l.cols
        invariant 0 <= col <= l.cols
        invariant |positions| == Min(p.numStickies, rowStart + col)
        invariant forall i :: 0 <= i < |positions| ==> l.cols > 0 && positions[i] == PositionAt(p, l, i)
      {
        if |positions| == p.numStickies {
          break;
        }
        var x := Coordinate(col, marginX, l.stickySize, p.separation);
        var y := Coordinate(row, marginY, l.stickySize, p.separation);
        CellPosition(p, l, |positions|, row, col);
        positions := positions + [Position(x, y)];
        col := col + 1;
      }
      if |positions| == p.numStickies {
        assert rowStart + l.cols == (row + 1) * l.cols;
        MulMonotone(row + 1, l.rows, l.cols);
        break;
      }
      row := row + 1;
      rowStart := rowStart + l.cols;
    }
    MulMonotone(row, l.rows, l.cols);
    PositionsPointwise(p, l, positions);
  }

  lemma PositionsPointwise(p: LayoutParams, l: Layout, positions: seq<Position>)
    requires |positions| == if l.cols == 0 then 0 else Min(p.numStickies, l.rows * l.cols)
    requires forall i :: 0 <= i < |positions| ==> l.cols > 0 && positions[i] == PositionAt(p, l, i)
    ensures positions == PositionsOf(p, l)
  {
  }

  /** `getStickyPositions`: the sticky size of the first-fit layout and its centred positions. */
  method GetStickyPositions(p: LayoutParams) returns (stickySize: int, positions: seq<Position>)
    ensures stickySize == LayoutOf(p).stickySize
    ensures positions == PositionsOf(p, LayoutOf(p))
  {
    var l := CalculateLayout(p);
    stickySize := l.stickySize;
    positions := CalculatePositions(p, l);
  }

  /** A found layout has room for every sticky, and exactly N positions are emitted. */
  lemma LayoutHoldsAll(p: LayoutParams)
    requires LayoutOf(p).stickySize > 0
    ensures LayoutOf(p).rows * LayoutOf(p).cols >= p.numStickies
    ensures |PositionsOf(p, LayoutOf(p))| == p.numStickies
  {
    var l := LayoutOf(p);
    assert 1 <= l.rows && l.cols == CeilDiv(p.numStickies, l.rows);
    GridHoldsAll(p.numStickies, l.rows, l.cols);
  }

  /** `ceil(N / rows)` columns of `rows` rows hold N cells, and there are columns exactly when N > 0. */
  lemma GridHoldsAll(n: nat, rows: nat, cols: nat)
    requires rows >= 1 && cols == CeilDiv(n, rows)
    ensures rows * cols >= n
    ensures cols == 0 <==> n == 0
  {
    assert cols * rows >= n;
    if cols == 0 {
      assert n <= 0;
    }
  }

  /** With no stickies, or no positive start size, nothing is placed and nothing fails. */
  lemma DegenerateLayout(p: LayoutParams)
    requires p.numStickies == 0 || StartSize(p) <= 0
    ensures LayoutOf(p) == Layout(0, 0, 0)
    ensures PositionsOf(p, LayoutOf(p)) == []
  {
  }

  /** Centres of the grid lie at least half a sticky inside the area on both axes. */
  ghost predicate InsideArea(p: LayoutParams, size: int, pos: Position)
  {
    size as real / 2.0 <= pos.x <= p.areaWidth as real - size as real / 2.0
    && size as real / 2.0 <= pos.y <= p.areaHeight as real - size as real / 2.0
  }

  lemma CoordinateWithin(index: int, k: int, size: int, sep: int, total: int)
    requires 0 <= index < k && size > 0 && sep >= 0
    requires (size + sep) * (k - 1) + size <= total
    ensures var c := Coordinate(index, CenterMargin(total, GridExtent(k, size, sep)), size, sep);
      size as real / 2.0 <= c <= total as real - size as real / 2.0
  {
    assert GridExtent(k, size, sep) == (size + sep) * (k - 1) + size;
    MulMonotone(index, k - 1, size + sep);
    assert 0 <= index * (size + sep);
  }

  lemma RowBelow(i: int, rows: int, cols: int)
    requires cols > 0 && 0 <= i < rows * cols
    ensures 0 <= i / cols < rows
  {
    if i / cols >= rows {
      MulMonotone(rows, i / cols, cols);
      assert false;
    }
  }

  /**
   * When the separation is not negative, every emitted centre lies within
   * `[size / 2, area - size / 2]` on both axes: the margins are not negative
   * under the fit condition.
   */
  lemma PositionsInsideArea(p: LayoutParams)
    requires p.separation >= 0
    ensures forall pos :: pos in PositionsOf(p, LayoutOf(p)) ==> InsideArea(p, LayoutOf(p).stickySize, pos)
  {
    var l := LayoutOf(p);
    var ps := PositionsOf(p, l);
    forall i | 0 <= i < |ps|
      ensures InsideArea(p, l.stickySize, ps[i])
    {
      assert l.stickySize > 0;
      assert i < l.rows * l.cols;
      RowBelow(i, l.rows, l.cols);
      CoordinateWithin(i % l.cols, l.cols, l.stickySize, p.separation, p.areaWidth);
      CoordinateWithin(i / l.cols, l.rows, l.stickySize, p.separation, p.areaHeight);
    }
  }

  /** 210 x 210 area, maximum size 100, separation 5, four stickies: a 2 x 2 grid of size 100. */
  lemma FourStickiesExample()
    ensures LayoutOf(LayoutParams(210, 210, 100, 4, 5)) == Layout(100, 2, 2)
    ensures PositionsOf(LayoutParams(210, 210, 100, 4, 5), Layout(100, 2, 2))
      == [Position(52.5, 52.5), Position(157.5, 52.5), Position(52.5, 157.5), Position(157.5, 157.5)]
  {
    var p := LayoutParams(210, 210, 100, 4, 5);
    assert StartSize(p) == 100;
    assert !Fits(p, 100, 1);
    assert Fits(p, 100, 2);
    assert RowSearch(p, 100, 1) == Some(2);
    var ps := PositionsOf(p, Layout(100, 2, 2));
    assert |ps| == 4;
  }
}
