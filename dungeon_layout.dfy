/**
 * The pure parts of server/rooms/states/DungeonState.ts: the map size and
 * room sizes derived from the depth, the path-finding mask, and the
 * row-major flattening of the generated grid.
 */
module DungeonLayout {
  import opened Common
  import opened Tiles
  import Progression

  /** What the constructor hands to the dungeon generator. */
  datatype Layout = Layout(mapkind: Progression.MapKind, width: int, height: int,
                           minRoomSize: Point, maxRoomSize: Point, numRooms: int)

  /**
   * The lobby is a 12 by 12 castle with one room; any other depth is a rock
   * map of side `14 + floor(progress / 2)` (the "regular rooms" style, the
   * only one the constructor selects), whose rooms are at least
   * `max(ceil(0.3 * side), 6)` and at most `max(ceil(0.4 * side), 10)`.
   */
  function LayoutFor(progress: int): Layout
  {
    if progress == 1 then
      Layout(Progression.Castle, 12, 12, Point(10, 10), Point(12, 12), 1)
    else
      var side := 14 + progress / 2;
      var minRoom := Max(CeilDiv(3 * side, 10), 6);
      var maxRoom := Max(CeilDiv(4 * side, 10), 10);
      Layout(Progression.Rock, side, side, Point(minRoom, minRoom), Point(maxRoom, maxRoom),
        Min((side * side) / (maxRoom * maxRoom), progress / 2))
  }

  /** A regular map is square, grows by one tile every two depths, and its room sizes are ordered and fit in it. */
  lemma RegularLayoutShape(progress: int)
    requires progress >= 2
    ensures var l := LayoutFor(progress);
      l.width == l.height == 14 + progress / 2 && l.mapkind == Progression.Rock &&
      6 <= l.minRoomSize.x <= l.maxRoomSize.x <= l.width &&
      l.minRoomSize == Point(l.minRoomSize.x, l.minRoomSize.x) && l.maxRoomSize == Point(l.maxRoomSize.x, l.maxRoomSize.x) &&
      10 <= l.maxRoomSize.x
  {
    var side := 14 + progress / 2;
    assert side >= 15;
    assert CeilDiv(3 * side, 10) <= CeilDiv(4 * side, 10);
  }

  /** Up to a side of 20 the room bounds stay at their floors of 6 and 10. */
  lemma SmallMapsUseRoomFloors(progress: int)
    requires 2 <= progress <= 13
    ensures LayoutFor(progress).minRoomSize == Point(6, 6) && LayoutFor(progress).maxRoomSize == Point(10, 10)
  {
  }

  /** A regular map asks for at least one room and never more than half its depth. */
  lemma RoomCountBounds(progress: int)
    requires progress >= 2
    ensures 1 <= LayoutFor(progress).numRooms <= progress / 2
  {
    var side := 14 + progress / 2;
    var maxRoom := Max(CeilDiv(4 * side, 10), 10);
    assert maxRoom <= side by {
      assert CeilDiv(4 * side, 10) <= side;
    }
    assert maxRoom * maxRoom <= side * side by {
      MulMonotone(maxRoom, side);
    }
  }

  lemma MulMonotone(a: int, b: int)
    requires 0 <= a <= b
    ensures a * a <= b * b
  {
    assert a * a <= a * b;
  }

  /** The lobby is a 12 by 12 castle with a single 10..12 room. */
  lemma LobbyLayout()
    ensures LayoutFor(1) == Layout(Progression.Castle, 12, 12, Point(10, 10), Point(12, 12), 1)
  {
  }

  /** The path-finding mask: 0 (walkable) where the tile has the FLOOR bit, 1 elsewhere. */
  function PathGrid(grid: seq<seq<Tile>>): (r: seq<seq<int>>)
    ensures |r| == |grid|
    ensures forall i :: 0 <= i < |grid| ==> |r[i]| == |grid[i]|
    ensures forall i, j :: 0 <= i < |grid| && 0 <= j < |grid[i]| ==> (r[i][j] == 0 <==> Has(grid[i][j], FLOOR))
    ensures forall i, j :: 0 <= i < |grid| && 0 <= j < |grid[i]| ==> (r[i][j] == 1 <==> !Has(grid[i][j], FLOOR))
  {
    seq(|grid|, i requires 0 <= i < |grid| => seq(|grid[i]|, j requires 0 <= j < |grid[i]| => if Has(grid[i][j], FLOOR) then 0 else 1))
  }

  /** The generated grid has at least `height` rows of at least `width` tiles. */
  predicate Covers(grid: seq<seq<Tile>>, width: nat, height: nat)
  {
    height <= |grid| && forall y :: 0 <= y < height ==> width <= |grid[y]|
  }

  /** The flat index of column `x`, row `y` lies below `width * height` and decodes back to (`x`, `y`). */
  lemma FlatIndex(width: int, height: int, x: int, y: int)
    requires 0 <= x < width && 0 <= y < height
    ensures 0 <= x + width * y < width * height
    ensures (x + width * y) % width == x && (x + width * y) / width == y
  {
    MulMonotoneRight(width, 0, y);
    MulMonotoneRight(width, y, height - 1);
    assert width * (height - 1) == width * height - width;
    DivModUnique(width, x, y, x + width * y);
  }

  /** The decoding the clients use, `(i % width, i / width)`, is the inverse of `x + width * y`. */
  lemma FlattenInverse(width: int, height: int, i: int)
    requires width > 0 && 0 <= i < width * height
    ensures 0 <= i % width < width && 0 <= i / width < height
    ensures i % width + width * (i / width) == i
  {
    if i / width >= height {
      MulMonotoneRight(width, height, i / width);
    }
  }

  lemma MulMonotoneRight(w: int, a: int, b: int)
    requires w > 0 && a <= b
    ensures w * a <= w * b
  {
    assert w * b - w * a == w * (b - a);
  }

  /** Column and row of flat index `i` in a grid `width` tiles wide. */
  function Col(i: int, width: int): int
    requires width > 0
  {
    i % width
  }

  function Row(i: int, width: int): int
    requires width > 0
  {
    i / width
  }

  /** Every cell of `flat` below `width * height` whose column is below `x`, or is `x` with row below `y`, holds its tile. */
  ghost predicate FilledUpTo(flat: seq<Tile>, grid: seq<seq<Tile>>, width: nat, height: nat, x: int, y: int)
    requires width > 0 && Covers(grid, width, height) && |flat| == width * height
  {
    forall i :: 0 <= i < width * height && (Col(i, width) < x || (Col(i, width) == x && Row(i, width) < y)) ==>
      Row(i, width) < height && Col(i, width) < width && flat[i] == grid[Row(i, width)][Col(i, width)]
  }

  /** Writing the tile of column `x`, row `y` extends the filled part by that cell. */
  lemma FillStep(flat: seq<Tile>, grid: seq<seq<Tile>>, width: nat, height: nat, x: nat, y: nat)
    requires width > 0 && Covers(grid, width, height) && |flat| == width * height && x < width && y < height
    requires FilledUpTo(flat, grid, width, height, x, y)
    ensures 0 <= x + width * y < |flat|
    ensures FilledUpTo(flat[x + width * y := grid[y][x]], grid, width, height, x, y + 1)
  {
    FlatIndex(width, height, x, y);
    var k := x + width * y;
    var f := flat[k := grid[y][x]];
    forall i | 0 <= i < width * height && (Col(i, width) < x || (Col(i, width) == x && Row(i, width) < y + 1))
      ensures Row(i, width) < height && Col(i, width) < width && f[i] == grid[Row(i, width)][Col(i, width)]
    {
      FlattenInverse(width, height, i);
      if Col(i, width) == x && Row(i, width) == y {
        assert i == k;
      }
    }
  }

  /** The inner loop of flattenGrid: column `x`, every row. */
  method FillColumn(flat: array<Tile>, grid: seq<seq<Tile>>, width: nat, height: nat, x: nat)
    requires width > 0 && Covers(grid, width, height) && flat.Length == width * height && x < width
    requires FilledUpTo(flat[..], grid, width, height, x, 0)
    modifies flat
    ensures FilledUpTo(flat[..], grid, width, height, x + 1, 0)
  {
    var y := 0;
    while y < height
      invariant 0 <= y <= height
      invariant FilledUpTo(flat[..], grid, width, height, x, y)
    {
      FlatIndex(width, height, x, y);
      FillStep(flat[..], grid, width, height, x, y);
      flat[x + width * y] := grid[y][x];
      y := y + 1;
    }
    ColumnDone(flat[..], grid, width, height, x);
  }

  /** Once every row of column `x` is written, the filled part reaches the next column. */
  lemma ColumnDone(flat: seq<Tile>, grid: seq<seq<Tile>>, width: nat, height: nat, x: nat)
    requires width > 0 && Covers(grid, width, height) && |flat| == width * height
    requires FilledUpTo(flat, grid, width, height, x, height)
    ensures FilledUpTo(flat, grid, width, height, x + 1, 0)
  {
    forall i | 0 <= i < width * height && Col(i, width) == x
      ensures Row(i, width) < height
    {
      FlattenInverse(width, height, i);
    }
  }

  /** The row-major flattening: cell `i` holds the tile at column `i % width`, row `i / width`. */
  function Flattened(grid: seq<seq<Tile>>, width: nat, height: nat): (r: seq<Tile>)
    requires Covers(grid, width, height)
    ensures |r| == width * height
  {
    if width == 0 then []
    else
      seq(width * height, i requires 0 <= i < width * height =>
        (FlattenInverse(width, height, i); grid[i / width][i % width]))
  }

  /** Column `x`, row `y` lands at index `x + width * y` of the flattening. */
  lemma FlattenedCell(grid: seq<seq<Tile>>, width: nat, height: nat, x: int, y: int)
    requires Covers(grid, width, height) && 0 <= x < width && 0 <= y < height
    ensures 0 <= x + width * y < width * height && Flattened(grid, width, height)[x + width * y] == grid[y][x]
  {
    FlatIndex(width, height, x, y);
  }

  /**
   * flattenGrid: `flattened[x + width * y] := grid[y][x]`, column by column.
   * Every cell of the result is written, and holds the tile its index decodes to.
   */
  method FlattenGrid(grid: seq<seq<Tile>>, width: nat, height: nat) returns (flat: array<Tile>)
    requires Covers(grid, width, height)
    ensures flat[..] == Flattened(grid, width, height)
  {
    flat := new Tile[width * height];
    if width == 0 {
      return;
    }
    var x := 0;
    while x < width
      invariant 0 <= x <= width
      invariant FilledUpTo(flat[..], grid, width, height, x, 0)
    {
      FillColumn(flat, grid, width, height, x);
      x := x + 1;
    }
    forall i | 0 <= i < width * height
      ensures flat[..][i] == Flattened(grid, width, height)[i]
    {
      FlattenInverse(width, height, i);
      assert Col(i, width) < width;
    }
  }
}
