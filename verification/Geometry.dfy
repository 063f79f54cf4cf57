/**
  Positions, the cells of the world map, and which cells are neighbours.

  Coordinates are integers, as in `mmo::Position`; the cell size is a positive integer
  and the conversion to a cell index truncates toward zero, so that cell 0 also holds
  the coordinates just below 0.
 */
module Geometry {
  datatype Position = Position(X: int, Y: int, Z: int, V: int)

  datatype Cell = Cell(row: int, col: int)

  type Size = n: int | n > 0 witness 1

  /** The constants of the AOI manager */
  datatype Layout = Layout(cellSize: Size, countX: nat, countY: nat)

  /** static_cast<int>(a / b), which rounds toward zero */
  function Trunc(a: int, b: Size): int {
    if a >= 0 then a / b else -((-a) / b)
  }

  function CellOf(l: Layout, p: Position): Cell {
    Cell(Trunc(p.Z, l.cellSize), Trunc(p.X, l.cellSize))
  }

  predicate IsValid(l: Layout, c: Cell) {
    0 <= c.row < l.countY && 0 <= c.col < l.countX
  }

  predicate OnMap(l: Layout, p: Position) {
    IsValid(l, CellOf(l, p))
  }

  predicate Adjacent(c: Cell, d: Cell) {
    -1 <= c.row - d.row <= 1 && -1 <= c.col - d.col <= 1
  }

  /** Whether players at these positions see each other: the same or a neighbouring cell */
  predicate Near(l: Layout, p: Position, q: Position) {
    Adjacent(CellOf(l, p), CellOf(l, q))
  }

  // ---- What truncation means for distances ----

  function Distance(a: int, b: int): nat {
    if a <= b then b - a else a - b
  }

  predicate Touching(a: int, b: int, size: Size) {
    -1 <= Trunc(a, size) - Trunc(b, size) <= 1
  }

  lemma Quotient(m: nat, b: Size)
    ensures m / b >= 0
    ensures b * (m / b) <= m < b * (m / b) + b
  {
  }

  lemma NegatedProduct(b: int, k: int)
    ensures b * (-k) == -(b * k)
  {
  }

  /** Trunc(a, b) brackets a, on the side of zero. */
  lemma TruncBounds(a: int, b: Size)
    ensures a >= 0 ==> Trunc(a, b) >= 0 && b * Trunc(a, b) <= a < b * Trunc(a, b) + b
    ensures a <= 0 ==> Trunc(a, b) <= 0 && b * Trunc(a, b) - b < a <= b * Trunc(a, b)
  {
    if a >= 0 {
      Quotient(a, b);
    } else {
      var k := (-a) / b;
      Quotient(-a, b);
      NegatedProduct(b, k);
    }
  }

  lemma CellGap(j: int, k: int, size: Size, gap: nat)
    requires j - k >= gap
    ensures size * j - size * k >= size * gap
  {
    assert size * (j - k) >= size * gap;
    assert size * (j - k) == size * j - size * k;
  }

  lemma OneSizeApartTouch(a: int, b: int, size: Size)
    requires a <= b <= a + size
    ensures Touching(a, b, size)
  {
    TruncBounds(a, size);
    TruncBounds(b, size);
    var i, j := Trunc(a, size), Trunc(b, size);
    if j - i >= 2 {
      CellGap(j, i, size, 2);
    }
    if i - j >= 1 {
      CellGap(i, j, size, 1);
    }
  }

  lemma TouchingBounds(a: int, b: int, size: Size)
    requires a <= b && Touching(a, b, size)
    ensures b - a < 3 * size
    ensures a >= 0 ==> b - a < 2 * size
  {
    TruncBounds(a, size);
    TruncBounds(b, size);
    var i, j := Trunc(a, size), Trunc(b, size);
    CellGap(i + 1, j, size, 0);
    assert size * (i + 1) == size * i + size;
  }

  /** No two touching coordinates of at least `lo` are two cell sizes or more apart. */
  ghost predicate SeparatesFrom(lo: int, size: Size) {
    forall a, b :: lo <= a && a + 2 * size <= b ==> !Touching(a, b, size)
  }

  /** The exact lower bound on coordinates for which two cell sizes mean out of sight */
  lemma SeparationIff(lo: int, size: Size)
    ensures SeparatesFrom(lo, size) <==> lo >= 0 || size == 1
  {
    if lo < 0 && size >= 2 {
      assert Trunc(-1, size) == 0 by { TruncIsZero(-1, size); }
      assert Trunc(2 * size - 1, size) == 1 by { QuotientIsOne(size); }
      assert Touching(-1, 2 * size - 1, size);
    } else {
      forall a, b | lo <= a && a + 2 * size <= b
        ensures !Touching(a, b, size)
      {
        if size == 1 {
          assert Trunc(a, 1) == a && Trunc(b, 1) == b;
        } else if Touching(a, b, size) {
          TouchingBounds(a, b, size);
        }
      }
    }
  }

  lemma TruncIsZero(a: int, size: Size)
    requires Distance(a, 0) < size
    ensures Trunc(a, size) == 0
  {
    TruncBounds(a, size);
    var k := Trunc(a, size);
    if k >= 1 {
      CellGap(k, 0, size, 1);
    } else if k <= -1 {
      CellGap(0, k, size, 1);
    }
  }

  lemma QuotientIsOne(size: Size)
    ensures Trunc(2 * size - 1, size) == 1
  {
    TruncBounds(2 * size - 1, size);
    var k := Trunc(2 * size - 1, size);
    if k >= 2 {
      CellGap(k, 0, size, 2);
    } else if k <= 0 {
      CellGap(0, k, size, 0);
    }
  }

  /** Players at most one cell size apart on both axes always see each other. */
  lemma CloseIsNear(l: Layout, p: Position, q: Position)
    requires Distance(p.X, q.X) <= l.cellSize && Distance(p.Z, q.Z) <= l.cellSize
    ensures Near(l, p, q)
  {
    if p.X <= q.X { OneSizeApartTouch(p.X, q.X, l.cellSize); } else { OneSizeApartTouch(q.X, p.X, l.cellSize); }
    if p.Z <= q.Z { OneSizeApartTouch(p.Z, q.Z, l.cellSize); } else { OneSizeApartTouch(q.Z, p.Z, l.cellSize); }
  }

  lemma TouchingDistance(a: int, b: int, size: Size)
    requires Touching(a, b, size)
    ensures Distance(a, b) < 3 * size
    ensures a >= 0 && b >= 0 ==> Distance(a, b) < 2 * size
  {
    if a <= b { TouchingBounds(a, b, size); } else { TouchingBounds(b, a, size); }
  }

  /**
    Players who see each other are less than three cell sizes apart on each axis, and
    less than two where both coordinates are non-negative.
   */
  lemma NearIsClose(l: Layout, p: Position, q: Position)
    requires Near(l, p, q)
    ensures Distance(p.X, q.X) < 3 * l.cellSize && Distance(p.Z, q.Z) < 3 * l.cellSize
    ensures p.X >= 0 && q.X >= 0 ==> Distance(p.X, q.X) < 2 * l.cellSize
    ensures p.Z >= 0 && q.Z >= 0 ==> Distance(p.Z, q.Z) < 2 * l.cellSize
  {
    TouchingDistance(p.X, q.X, l.cellSize);
    TouchingDistance(p.Z, q.Z, l.cellSize);
  }

  // ---- Which positions the map has a cell for ----

  predicate Within(a: int, count: nat, size: Size) {
    0 <= Trunc(a, size) < count
  }

  lemma WithinIff(a: int, count: nat, size: Size)
    ensures Within(a, count, size) <==> count > 0 && -a < size && a < size * count
  {
    TruncBounds(a, size);
    var k := Trunc(a, size);
    if k >= count {
      CellGap(k, count, size, 0);
    } else if k >= 0 {
      CellGap(count, k, size, 1);
    } else {
      CellGap(0, k, size, 1);
    }
    if a < 0 && -a < size {
      TruncIsZero(a, size);
    }
  }

  /**
    The positions with a cell: along X up to the columns' end, along Z up to the rows', and
    on both axes also less than one cell size below 0.
   */
  lemma OnMapIff(l: Layout, p: Position)
    ensures OnMap(l, p) <==>
            && l.countX > 0 && -p.X < l.cellSize && p.X < l.cellSize * l.countX
            && l.countY > 0 && -p.Z < l.cellSize && p.Z < l.cellSize * l.countY
  {
    WithinIff(p.X, l.countX, l.cellSize);
    WithinIff(p.Z, l.countY, l.cellSize);
  }

  /** Every position inside a world of these extents has a cell. */
  ghost predicate Covers(l: Layout, length: nat, width: nat) {
    forall p: Position :: 0 <= p.X < length && 0 <= p.Z < width ==> OnMap(l, p)
  }

  lemma CountedCells(length: nat, size: Size)
    ensures size * (length / size) <= length < size * (length / size) + size
    ensures size * (length / size) == length <==> length % size == 0
  {
    Quotient(length, size);
    assert length == size * (length / size) + length % size;
  }

  lemma SizeOfCells(size: Size, count: nat)
    ensures count == 0 ==> size * count == 0
  {
  }

  /** The map covers its whole world if and only if the cell size divides both extents. */
  lemma CoversIff(length: nat, width: nat, size: Size)
    requires length > 0 && width > 0
    ensures Covers(Layout(size, length / size, width / size), length, width)
       <==> length % size == 0 && width % size == 0
  {
    var l := Layout(size, length / size, width / size);
    CountedCells(length, size);
    CountedCells(width, size);
    SizeOfCells(size, length / size);
    SizeOfCells(size, width / size);
    if length % size == 0 && width % size == 0 {
      forall p: Position | 0 <= p.X < length && 0 <= p.Z < width
        ensures OnMap(l, p)
      {
        OnMapIff(l, p);
      }
    } else {
      var corner := Position(length - 1, 0, width - 1, 0);
      OnMapIff(l, corner);
      assert !OnMap(l, corner);
    }
  }
}
