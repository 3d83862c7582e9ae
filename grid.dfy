/** The grid arithmetic of create_class_garden: ceiling division for the row
    count and the row-major pixel offset of each tile. */
module Grid {
  import opened PyInt
  import opened Geometry

  /** `-(-n // cols)`: the ceiling of n / cols, the fewest rows of `cols`
      cells that hold n tiles. */
  function Rows(n: nat, cols: int): (rows: int)
    requires cols > 0
    ensures rows >= 0
    ensures rows * cols >= n
    ensures n > 0 ==> (rows - 1) * cols < n
    ensures n == 0 ==> rows == 0
  {
    var q := FloorDiv(-(n as int), cols);
    NegatedFloorIsCeiling(n, cols, q);
    -q
  }

  /** If q is the floor of -n / cols then -q is the ceiling of n / cols. */
  lemma NegatedFloorIsCeiling(n: nat, cols: int, q: int)
    requires cols > 0 && q * cols <= -(n as int) < q * cols + cols
    ensures -q >= 0 && (-q) * cols >= n
    ensures n > 0 ==> (-q - 1) * cols < n
    ensures n == 0 ==> q == 0
  {
    assert (-q) * cols == -(q * cols);
    assert (-q - 1) * cols == -(q * cols) - cols;
    if q > 0 {
      MulMonotone(1, q, cols);
    }
    if n == 0 && q < 0 {
      assert (q + 1) * cols == q * cols + cols;
      MulMonotone(q + 1, 0, cols);
    }
  }

  /** A grid position: column (0 at the left) and row (0 at the top). */
  datatype Cell = Cell(col: int, row: int)

  /** The cell of tile `idx`: column `idx % cols`, row `idx // cols`. */
  function CellOf(idx: nat, cols: int): (c: Cell)
    requires cols > 0
    ensures 0 <= c.col < cols && 0 <= c.row
    ensures c.row * cols + c.col == idx
  {
    var q := FloorDiv(idx, cols);
    NonNegativeQuotient(idx, cols, q);
    Cell(FloorMod(idx, cols), q)
  }

  /** The floor of a non-negative number over a positive one is non-negative. */
  lemma NonNegativeQuotient(a: nat, b: int, q: int)
    requires b > 0 && q * b <= a < q * b + b
    ensures q >= 0
  {
    if q < 0 {
      MulMonotone(q, -1, b);
    }
  }

  /** The column count the application uses (the default of create_class_garden). */
  const DefaultColumns: int := 4

  /** The row-major index of a cell. */
  function IndexOf(c: Cell, cols: int): int {
    c.row * cols + c.col
  }

  /** CellOf and IndexOf are inverse: every cell of the grid is the cell of
      exactly the tile whose row-major index it has. */
  lemma {:induction false} CellOfIndexOf(c: Cell, cols: int)
    requires cols > 0 && 0 <= c.col < cols && 0 <= c.row
    ensures IndexOf(c, cols) >= 0 && CellOf(IndexOf(c, cols), cols) == c
  {
    MulMonotone(0, c.row, cols);
    var i := IndexOf(c, cols);
    var d := CellOf(i, cols);
    DivModUnique(d.row, d.col, c.row, c.col, cols);
  }

  /** Tile `idx` is pasted at `((idx % cols) * w, (idx // cols) * h)`. */
  function TileOffset(idx: nat, cols: int, w: int, h: int): Point
    requires cols > 0
  {
    Point(FloorMod(idx, cols) * w, FloorDiv(idx, cols) * h)
  }

  function TileRect(idx: nat, cols: int, w: int, h: int): Rect
    requires cols > 0
  {
    RectAt(TileOffset(idx, cols, w, h), w, h)
  }

  /** The offset is the cell's column and row scaled by the tile size. */
  lemma TileOffsetOfCell(idx: nat, cols: int, w: int, h: int)
    requires cols > 0
    ensures var c := CellOf(idx, cols);
      TileOffset(idx, cols, w, h) == Point(c.col * w, c.row * h)
  {
  }

  /** Each of the n tiles lies wholly inside the `cols * w` by `Rows(n, cols) * h` garden. */
  lemma {:induction false} TileInsideGarden(idx: nat, n: nat, cols: int, w: nat, h: nat)
    requires cols > 0 && idx < n
    ensures Inside(TileRect(idx, cols, w, h), Rect(0, 0, cols * w, Rows(n, cols) * h))
  {
    var c := CellOf(idx, cols);
    var rows := Rows(n, cols);
    MulMonotone(0, c.col, w);
    MulMonotone(c.col + 1, cols, w);
    assert (c.col + 1) * w == c.col * w + w;
    MulMonotone(0, c.row, h);
    if c.row >= rows {
      MulMonotone(rows, c.row, cols);
      assert false;
    }
    MulMonotone(c.row + 1, rows, h);
    assert (c.row + 1) * h == c.row * h + h;
  }

  /** Distinct indices land in distinct cells. */
  lemma {:induction false} DistinctCells(i: nat, j: nat, cols: int)
    requires cols > 0 && i != j
    ensures CellOf(i, cols) != CellOf(j, cols)
  {
  }

  /** Tiles of positive size at distinct indices never overlap. */
  lemma {:induction false} TilesDisjoint(i: nat, j: nat, cols: int, w: int, h: int)
    requires cols > 0 && w > 0 && h > 0 && i != j
    ensures Disjoint(TileRect(i, cols, w, h), TileRect(j, cols, w, h))
  {
    var ci, cj := CellOf(i, cols), CellOf(j, cols);
    if ci.col < cj.col {
      MulMonotone(ci.col + 1, cj.col, w);
      assert (ci.col + 1) * w == ci.col * w + w;
    } else if cj.col < ci.col {
      MulMonotone(cj.col + 1, ci.col, w);
      assert (cj.col + 1) * w == cj.col * w + w;
    } else if ci.row < cj.row {
      MulMonotone(ci.row + 1, cj.row, h);
      assert (ci.row + 1) * h == ci.row * h + h;
    } else if cj.row < ci.row {
      MulMonotone(cj.row + 1, ci.row, h);
      assert (cj.row + 1) * h == cj.row * h + h;
    } else {
      assert false;
    }
  }

  /** Row-major order: a later tile is in a later row, or further right in the same row. */
  lemma {:induction false} RowMajorOrder(i: nat, j: nat, cols: int)
    requires cols > 0 && i < j
    ensures var ci, cj := CellOf(i, cols), CellOf(j, cols);
      ci.row < cj.row || (ci.row == cj.row && ci.col < cj.col)
  {
    var ci, cj := CellOf(i, cols), CellOf(j, cols);
    if cj.row < ci.row {
      assert (cj.row + 1) * cols == cj.row * cols + cols;
      MulMonotone(cj.row + 1, ci.row, cols);
      assert false;
    }
  }

  /** Five tiles in the default four columns: two rows, and tile 4 opens the second row. */
  lemma FiveTilesFourColumns()
    ensures Rows(5, DefaultColumns) == 2
    ensures CellOf(4, DefaultColumns) == Cell(0, 1)
    ensures TileOffset(4, DefaultColumns, 100, 100) == Point(0, 100)
  {
  }
}
