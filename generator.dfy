/**
 * app/js/game/level/Generator.js: the older level builder, which reads the
 * grid as columns (`grid[x][y]`) and builds only doors, enemies, players
 * and light poles. Meshes, behaviours and the scene container are left
 * out, as in the newer factory.
 */
module LevelGenerator {
  import opened Common
  import opened Tiles
  import opened TileRules

  /** The elements createEntity builds; only other players get a life bar. */
  datatype GeneratedElement = DoorPiece | EnemyPiece | CharacterPiece(hasLifebar: bool) | LightPolePiece

  /**
   * createEntity's switch. Any other type leaves the element null, which
   * the source then dereferences; the model answers `None`.
   */
  function ElementFor(entity: EntityData, clientId: string): Option<GeneratedElement>
  {
    match entity.entityType
    case DoorType => Some(DoorPiece)
    case EnemyType => Some(EnemyPiece)
    case PlayerType => Some(CharacterPiece(entity.id != clientId))
    case LightType => Some(LightPolePiece)
    case _ => None
  }

  /** One cell: a cell missing from a short column is `undefined`, which draws nothing. */
  function GridCell(mapkind: string, grid: seq<seq<Tile>>, x: nat, y: nat): Pushed
    requires x < |grid|
  {
    if y < |grid[x]| then CellTile(mapkind, grid[x][y], x, y) else NOTHING
  }

  /** The first `ny` cells of column `x`. */
  function ColumnTiles(mapkind: string, grid: seq<seq<Tile>>, x: nat, ny: nat): Pushed
    requires x < |grid|
  {
    if ny == 0 then NOTHING else ColumnTiles(mapkind, grid, x, ny - 1).Then(GridCell(mapkind, grid, x, ny - 1))
  }

  /** The first `nx` columns, each `ylen` cells long. */
  function GridTiles(mapkind: string, grid: seq<seq<Tile>>, ylen: nat, nx: nat): Pushed
    requires nx <= |grid|
  {
    if nx == 0 then NOTHING else GridTiles(mapkind, grid, ylen, nx - 1).Then(ColumnTiles(mapkind, grid, nx - 1, ylen))
  }

  /** One more column appends that column's tiles. */
  lemma GridTilesStep(mapkind: string, grid: seq<seq<Tile>>, ylen: nat, x: nat)
    requires x < |grid|
    ensures GridTiles(mapkind, grid, ylen, x + 1) == GridTiles(mapkind, grid, ylen, x).Then(ColumnTiles(mapkind, grid, x, ylen))
  {
  }

  class LevelGenerator {
    const clientId: string
    var grid: seq<seq<Tile>>
    var ground: seq<GroundTile>
    var wall: seq<WallMesh>

    /** `clientId` is the id of this client's connection. */
    constructor (clientId: string)
      ensures this.clientId == clientId && grid == [] && ground == [] && wall == []
    {
      this.clientId := clientId;
      grid := [];
      ground := [];
      wall := [];
    }

    method SetGrid(grid: seq<seq<Tile>>)
      modifies this`grid
      ensures this.grid == grid
    {
      this.grid := grid;
    }

    /** addTile, as in the factory: a floor adds its connector walls and then itself, a plain wall itself. */
    method AddTile(mapkind: string, t: Tile, x: int, y: int)
      modifies this`ground, this`wall
      decreases if Has(t, FLOOR) then 1 else 0, 0
      ensures ground == old(ground) + TileRules.AddTile(mapkind, t, x, y).ground
      ensures wall == old(wall) + TileRules.AddTile(mapkind, t, x, y).walls
    {
      var kind := Classify(t);
      if kind == NoKind {
        return;
      }
      if kind == GroundKind {
        AddConnectors(mapkind, t, x, y);
        ground := ground + [GroundTile(GroundResource(mapkind), x, y)];
      } else {
        wall := wall + [WallMesh(WallResource(mapkind), x, y, WallSide(t))];
      }
    }

    method AddConnectors(mapkind: string, t: Tile, x: int, y: int)
      requires Has(t, FLOOR)
      modifies this`ground, this`wall
      decreases 0, 2
      ensures ground == old(ground)
      ensures wall == old(wall) + ConnectorWalls(mapkind, Connectors(t, x, y))
    {
      if Has(t, NORTH) {
        AddWalls(mapkind, Connector(WALL | EAST, x, y), Connector(WALL | WEST, x, y), Connector(WALL | EAST, x, y + 1), Connector(WALL | WEST, x, y + 1));
      } else if Has(t, SOUTH) {
        AddWalls(mapkind, Connector(WALL | EAST, x, y), Connector(WALL | WEST, x, y), Connector(WALL | EAST, x, y - 1), Connector(WALL | WEST, x, y - 1));
      } else if Has(t, EAST) {
        AddWalls(mapkind, Connector(WALL | SOUTH, x, y), Connector(WALL | NORTH, x, y), Connector(WALL | SOUTH, x - 1, y), Connector(WALL | NORTH, x - 1, y));
      } else if Has(t, WEST) {
        AddWalls(mapkind, Connector(WALL | SOUTH, x, y), Connector(WALL | NORTH, x, y), Connector(WALL | SOUTH, x + 1, y), Connector(WALL | NORTH, x + 1, y));
      } else {
        assert Connectors(t, x, y) == [];
      }
    }

    method AddWalls(mapkind: string, a: Connector, b: Connector, c: Connector, d: Connector)
      requires Classify(a.flags) == WallKind && Classify(b.flags) == WallKind
      requires Classify(c.flags) == WallKind && Classify(d.flags) == WallKind
      modifies this`ground, this`wall
      decreases 0, 1
      ensures ground == old(ground)
      ensures wall == old(wall) + ConnectorWalls(mapkind, [a, b, c, d])
    {
      AddTile(mapkind, a.flags, a.x, a.y);
      AddTile(mapkind, b.flags, b.x, b.y);
      AddTile(mapkind, c.flags, c.x, c.y);
      AddTile(mapkind, d.flags, d.x, d.y);
      FourConnectorWalls(mapkind, a, b, c, d);
    }

    /**
     * createTiles: column by column over `grid.length` columns of
     * `grid[0].length` cells, skipping EMPTY ones. The source reads
     * `grid[0]`, so an empty grid is outside what it handles.
     */
    method CreateTiles(mapkind: string)
      requires |grid| > 0
      modifies this`ground, this`wall
      ensures ground == old(ground) + GridTiles(mapkind, grid, |grid[0]|, |grid|).ground
      ensures wall == old(wall) + GridTiles(mapkind, grid, |grid[0]|, |grid|).walls
    {
      ghost var g := grid;
      var xlen := |grid|;
      var ylen := |grid[0]|;
      var x := 0;
      ghost var acc := NOTHING;
      while x < xlen
        invariant 0 <= x <= xlen && grid == g
        invariant acc == GridTiles(mapkind, g, ylen, x)
        invariant ground == old(ground) + acc.ground && wall == old(wall) + acc.walls
      {
        ghost var column := ColumnTiles(mapkind, g, x, ylen);
        GridTilesStep(mapkind, g, ylen, x);
        AppendThen(old(ground), old(wall), acc, column);
        CreateColumn(mapkind, x, ylen);
        acc := acc.Then(column);
        x := x + 1;
      }
    }

    /** createTiles' inner loop over the cells of column `x`. */
    method CreateColumn(mapkind: string, x: nat, ylen: nat)
      requires x < |grid|
      modifies this`ground, this`wall
      ensures ground == old(ground) + ColumnTiles(mapkind, grid, x, ylen).ground
      ensures wall == old(wall) + ColumnTiles(mapkind, grid, x, ylen).walls
    {
      var y := 0;
      while y < ylen
        invariant 0 <= y <= ylen
        invariant ground == old(ground) + ColumnTiles(mapkind, grid, x, y).ground
        invariant wall == old(wall) + ColumnTiles(mapkind, grid, x, y).walls
      {
        ghost var cell := GridCell(mapkind, grid, x, y);
        assert ColumnTiles(mapkind, grid, x, y + 1) == ColumnTiles(mapkind, grid, x, y).Then(cell);
        AppendThen(old(ground), old(wall), ColumnTiles(mapkind, grid, x, y), cell);
        if y < |grid[x]| {
          var tile := grid[x][y];
          if !Has(tile, EMPTY) {
            assert cell == TileRules.AddTile(mapkind, tile, x, y);
            AddTile(mapkind, tile, x, y);
          } else {
            assert cell == NOTHING;
          }
        } else {
          assert cell == NOTHING;
        }
        y := y + 1;
      }
    }
  }

  // ----------------------------------------------------------------- lemmas

  /** Only doors, enemies, players and light poles are built; a player's life bar is shown for others only. */
  lemma HandledTypes(entity: EntityData, clientId: string)
    ensures ElementFor(entity, clientId).Some? <==> entity.entityType in {DoorType, EnemyType, PlayerType, LightType}
    ensures entity.entityType == PlayerType ==> ElementFor(entity, clientId) == Some(CharacterPiece(entity.id != clientId))
  {
  }

  /** Column `x` yields the floor of row `y` exactly when its cell there is a shown floor below `ny`. */
  lemma {:induction false} ColumnFloor(mapkind: string, grid: seq<seq<Tile>>, x: nat, ny: nat, y: int)
    requires x < |grid|
    ensures GroundTile(GroundResource(mapkind), x, y) in ColumnTiles(mapkind, grid, x, ny).ground <==>
      0 <= y < ny && y < |grid[x]| && ShownFloor(grid[x][y])
    ensures forall g :: g in ColumnTiles(mapkind, grid, x, ny).ground ==> g.x == x && 0 <= g.y < ny
  {
    if ny > 0 {
      ColumnFloor(mapkind, grid, x, ny - 1, y);
    }
  }

  /**
   * Every shown floor of the grid, and nothing else, becomes a floor tile
   * at its own (x, y); cells past `grid[0].length` in a longer column are
   * not visited.
   */
  lemma {:induction false} GridFloor(mapkind: string, grid: seq<seq<Tile>>, ylen: nat, nx: nat, x: int, y: int)
    requires nx <= |grid|
    ensures GroundTile(GroundResource(mapkind), x, y) in GridTiles(mapkind, grid, ylen, nx).ground <==>
      0 <= x < nx && 0 <= y < ylen && y < |grid[x]| && ShownFloor(grid[x][y])
  {
    if nx > 0 {
      GridFloor(mapkind, grid, ylen, nx - 1, x, y);
      ColumnFloor(mapkind, grid, nx - 1, ylen, y);
      if x != nx - 1 {
        if GroundTile(GroundResource(mapkind), x, y) in ColumnTiles(mapkind, grid, nx - 1, ylen).ground {
          assert false;
        }
      }
    }
  }
}
