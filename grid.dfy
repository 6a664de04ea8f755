/** The static 8x8 map and the flat-index lookup the ray searches use. */
module Grid {

  const MapWidth: int := 8
  const MapHeight: int := 8

  /** Row-major cells: 0 is open, anything else is a wall. */
  const Cells: seq<int> := [
    1, 1, 1, 1, 1, 1, 1, 1,
    1, 0, 0, 0, 0, 0, 0, 1,
    1, 0, 0, 1, 1, 1, 0, 1,
    1, 0, 0, 0, 0, 1, 0, 1,
    1, 0, 0, 0, 0, 1, 0, 1,
    1, 0, 1, 0, 0, 0, 0, 1,
    1, 0, 1, 0, 0, 0, 0, 1,
    1, 1, 1, 1, 1, 1, 1, 1
  ]

  /** A point in grid units. */
  datatype Point = Point(x: real, y: real)

  /** C's float-to-int conversion: truncation toward zero, not floor. */
  function Trunc(r: real): (n: int)
    ensures 0.0 <= r ==> n as real <= r < n as real + 1.0
    ensures r < 0.0 ==> n as real - 1.0 < r <= n as real
  {
    if r >= 0.0 then r.Floor else -((-r).Floor)
  }

  /** Flat row-major index of a cell. */
  function Index(row: int, col: int): int
  {
    row * MapWidth + col
  }

  /** The flat index a search probes at point p; rowShift and colShift are the
      -1 corrections the downward and leftward searches apply. */
  function MapPos(p: Point, rowShift: int, colShift: int): int
  {
    Index(Trunc(p.y) + rowShift, Trunc(p.x)) + colShift
  }

  /** The stepping loops' guard: the flat index lies in the map and the cell is open. */
  predicate Walkable(pos: int)
  {
    0 <= pos < MapWidth * MapHeight && Cells[pos] == 0
  }

  /** The upper half of the map, which the verifier cannot read off the
      64-cell literal directly. */
  lemma UpperHalf()
    ensures Cells[..32] == [
      1, 1, 1, 1, 1, 1, 1, 1,
      1, 0, 0, 0, 0, 0, 0, 1,
      1, 0, 0, 1, 1, 1, 0, 1,
      1, 0, 0, 0, 0, 1, 0, 1]
  {
  }

  /** The top and bottom rows are walls. */
  lemma TopAndBottomWalled(col: int)
    requires 0 <= col < MapWidth
    ensures Cells[Index(0, col)] != 0 && Cells[Index(MapHeight - 1, col)] != 0
  {
    UpperHalf();
    assert Cells[Index(0, col)] == Cells[..32][col];
  }

  /** The leftmost column is wall. */
  lemma LeftColumnWalled(row: int)
    requires 0 <= row < MapHeight
    ensures Cells[Index(row, 0)] != 0
  {
    if row < 4 {
      UpperHalf();
      assert Cells[Index(row, 0)] == Cells[..32][Index(row, 0)];
    }
  }

  /** The rightmost column is wall. */
  lemma RightColumnWalled(row: int)
    requires 0 <= row < MapHeight
    ensures Cells[Index(row, MapWidth - 1)] != 0
  {
    if row < 4 {
      UpperHalf();
      assert Cells[Index(row, MapWidth - 1)] == Cells[..32][Index(row, MapWidth - 1)];
    }
  }

  /** Only the flat index is bounds-checked, so a probe one map width to the
      right of column c in row r reads column c of row r + 1. */
  lemma ColumnOverflowWraps(p: Point, rowShift: int, colShift: int)
    requires 0.0 <= p.x && 1.0 <= p.y
    ensures MapPos(Point(p.x + MapWidth as real, p.y - 1.0), rowShift, colShift)
         == MapPos(p, rowShift, colShift)
  {
    assert Trunc(p.x + 8.0) == Trunc(p.x) + 8;
    assert Trunc(p.y - 1.0) == Trunc(p.y) - 1;
  }
}
