/**
 * client/game/level/Factory.js: builds the level from the flat tile grid
 * the server sends. Tiles are decoded from their flat index, floors are
 * kept for picking by tile, doors find the wall they stand in, and cleanup
 * empties the tile groups. Element constructors, meshes and
 * behaviours are left out; an element records what it was built from.
 */
module LevelFactory {
  import opened Common
  import opened Tiles
  import opened TileRules
  import DungeonLayout

  /** The element `createEntity` builds for a type; every type not named is an item. */
  datatype ElementKind =
    | DoorElement(progress: int, mapkind: string, gridItem: Option<Tile>)
    | EnemyElement | CharacterElement(hasLifebar: bool) | NpcElement | LightPoleElement
    | AestheticElement | RockElement | ChestElement | FountainElement | TextEventElement | ItemElement

  datatype Element = Element(kind: ElementKind, userData: EntityData)

  /** A cell of the flat grid as a bit mask; a read outside the grid is `undefined`, whose every flag test fails. */
  function CellAt(grid: seq<Tile>, i: int): (t: Tile)
    ensures 0 <= i < |grid| ==> t == grid[i]
    ensures !(0 <= i < |grid|) ==> t == 0
  {
    if 0 <= i < |grid| then grid[i] else 0
  }

  /**
   * The wall a door stands in: the cell before it along x when that is a
   * north wall, else the cell before it along y when that is a west wall.
   */
  function DoorWall(grid: seq<Tile>, width: int, at: Point): Option<Tile>
  {
    var north := CellAt(grid, (at.x - 1) + width * at.y);
    var west := CellAt(grid, at.x + width * (at.y - 1));
    if Has(north, WALL) && Has(north, NORTH) then Some(north)
    else if Has(west, WALL) && Has(west, WEST) then Some(west)
    else None
  }

  /** createEntity's switch; only other players get a life bar. */
  function KindFor(data: EntityData, grid: seq<Tile>, width: int, progress: int, mapkind: string, clientId: string): ElementKind
  {
    match data.entityType
    case DoorType => DoorElement(progress, mapkind, DoorWall(grid, width, data.position))
    case EnemyType => EnemyElement
    case PlayerType => CharacterElement(data.id != clientId)
    case NpcType => NpcElement
    case LightType => LightPoleElement
    case AestheticsType => AestheticElement
    case RockType => RockElement
    case ChestType => ChestElement
    case FountainType => FountainElement
    case TextEventType => TextEventElement
    case ItemKindType(_) => ItemElement
  }

  /**
   * What createTiles pushes for the first `n` cells: cell `i` is column
   * `i % width`, row `i / width`, and is handed to addTile row first.
   */
  function FlatTiles(mapkind: string, grid: seq<Tile>, width: int, n: nat): Pushed
    requires width > 0 && n <= |grid|
  {
    if n == 0 then NOTHING
    else FlatTiles(mapkind, grid, width, n - 1).Then(CellTile(mapkind, grid[n - 1], DungeonLayout.Row(n - 1, width), DungeonLayout.Col(n - 1, width)))
  }

  /** `ground.filter(t => t.userData.x === y && t.userData.y === x)[0]`. */
  function FirstGroundAt(ground: seq<GroundTile>, x: int, y: int): (r: Option<GroundTile>)
    ensures r.Some? ==> r.value in ground && r.value.x == y && r.value.y == x
    ensures r.None? ==> forall g :: g in ground ==> !(g.x == y && g.y == x)
  {
    if ground == [] then None
    else if ground[0].x == y && ground[0].y == x then Some(ground[0])
    else FirstGroundAt(ground[1..], x, y)
  }

  class Factory {
    const mapwidth: int
    const progress: int
    const mapkind: string
    const clientId: string
    var grid: seq<Tile>
    var ground: seq<GroundTile>
    var wall: seq<WallMesh>
    var elements: seq<Element>

    /** The level's width, depth and map kind, and the client's own id, are what the factory reads from its level and the network. */
    constructor (mapwidth: int, progress: int, mapkind: string, clientId: string)
      ensures this.mapwidth == mapwidth && this.progress == progress && this.mapkind == mapkind && this.clientId == clientId
      ensures grid == [] && ground == [] && wall == [] && elements == []
    {
      this.mapwidth := mapwidth;
      this.progress := progress;
      this.mapkind := mapkind;
      this.clientId := clientId;
      grid := [];
      ground := [];
      wall := [];
      elements := [];
    }

    method SetGrid(grid: seq<Tile>)
      modifies this`grid
      ensures this.grid == grid
    {
      this.grid := grid;
    }

    /** createEntity: build the element for the entity's type and add it to the level. */
    method CreateEntity(data: EntityData) returns (element: Element)
      modifies this`elements
      ensures element == Element(KindFor(data, grid, mapwidth, progress, mapkind, clientId), data)
      ensures elements == old(elements) + [element]
    {
      var kind := KindFor(data, grid, mapwidth, progress, mapkind, clientId);
      element := Element(kind, data);
      elements := elements + [element];
    }

    /**
     * addTile: a floor first adds its connector walls (recursively), then
     * goes to `ground`; a plain wall goes to `wall`.
     */
    method AddTile(mapkind: string, t: Tile, x: int, y: int)
      modifies this`ground, this`wall
      decreases if Has(t, FLOOR) then 1 else 0, 0
      ensures ground == old(ground) + TileRules.AddTile(mapkind, t, x, y).ground
      ensures wall == old(wall) + TileRules.AddTile(mapkind, t, x, y).walls
    {
      var kind := Classify(t);
      if kind == NoKind {
        return;
      }
      if kind == GroundKind {
        AddConnectors(mapkind, t, x, y);
        var g := GroundTile(GroundResource(mapkind), x, y);
        ground := ground + [g];
      } else {
        var w := WallMesh(WallResource(mapkind), x, y, WallSide(t));
        wall := wall + [w];
      }
    }

    /** The four wall requests of a floor's first connection, as addTile issues them. */
    method AddConnectors(mapkind: string, t: Tile, x: int, y: int)
      requires Has(t, FLOOR)
      modifies this`ground, this`wall
      decreases 0, 2
      ensures ground == old(ground)
      ensures wall == old(wall) + ConnectorWalls(mapkind, Connectors(t, x, y))
    {
      if Has(t, NORTH) {
        AddWalls(mapkind, Connector(WALL | EAST, x, y), Connector(WALL | WEST, x, y), Connector(WALL | EAST, x, y + 1), Connector(WALL | WEST, x, y + 1));
      } else if Has(t, SOUTH) {
        AddWalls(mapkind, Connector(WALL | EAST, x, y), Connector(WALL | WEST, x, y), Connector(WALL | EAST, x, y - 1), Connector(WALL | WEST, x, y - 1));
      } else if Has(t, EAST) {
        AddWalls(mapkind, Connector(WALL | SOUTH, x, y), Connector(WALL | NORTH, x, y), Connector(WALL | SOUTH, x - 1, y), Connector(WALL | NORTH, x - 1, y));
      } else if Has(t, WEST) {
        AddWalls(mapkind, Connector(WALL | SOUTH, x, y), Connector(WALL | NORTH, x, y), Connector(WALL | SOUTH, x + 1, y), Connector(WALL | NORTH, x + 1, y));
      } else {
        assert Connectors(t, x, y) == [];
      }
    }

    /** Four addTile calls for plain walls. */
    method AddWalls(mapkind: string, a: Connector, b: Connector, c: Connector, d: Connector)
      requires Classify(a.flags) == WallKind && Classify(b.flags) == WallKind
      requires Classify(c.flags) == WallKind && Classify(d.flags) == WallKind
      modifies this`ground, this`wall
      decreases 0, 1
      ensures ground == old(ground)
      ensures wall == old(wall) + ConnectorWalls(mapkind, [a, b, c, d])
    {
      AddTile(mapkind, a.flags, a.x, a.y);
      AddTile(mapkind, b.flags, b.x, b.y);
      AddTile(mapkind, c.flags, c.x, c.y);
      AddTile(mapkind, d.flags, d.x, d.y);
      FourConnectorWalls(mapkind, a, b, c, d);
    }

    /** createTiles: every cell that is not EMPTY, in index order, decoded to its column and row. */
    method CreateTiles(mapkind: string)
      requires mapwidth > 0
      modifies this`ground, this`wall
      ensures ground == old(ground) + FlatTiles(mapkind, grid, mapwidth, |grid|).ground
      ensures wall == old(wall) + FlatTiles(mapkind, grid, mapwidth, |grid|).walls
    {
      var width := mapwidth;
      var i := 0;
      while i < |grid|
        invariant 0 <= i <= |grid|
        invariant ground == old(ground) + FlatTiles(mapkind, grid, width, i).ground
        invariant wall == old(wall) + FlatTiles(mapkind, grid, width, i).walls
      {
        var tile := grid[i];
        var x := DungeonLayout.Col(i, width);
        var y := DungeonLayout.Row(i, width);
        ghost var cell := CellTile(mapkind, tile, y, x);
        assert FlatTiles(mapkind, grid, width, i + 1) == FlatTiles(mapkind, grid, width, i).Then(cell);
        AppendThen(old(ground), old(wall), FlatTiles(mapkind, grid, width, i), cell);
        if !Has(tile, EMPTY) {
          assert cell == TileRules.AddTile(mapkind, tile, y, x);
          AddTile(mapkind, tile, y, x);
        } else {
          assert cell == NOTHING;
        }
        i := i + 1;
      }
    }

    /**
     * getTileAt called with a point: the first floor tile of column `p.x`,
     * row `p.y`, if there is one. Only this call form reaches the lookup.
     */
    function GetTileAt(p: Point): Option<GroundTile>
      reads this
    {
      FirstGroundAt(ground, p.x, p.y)
    }

    /** cleanup: the tiles are taken out of the scene and both groups are emptied. */
    method Cleanup()
      modifies this`ground, this`wall
      ensures ground == [] && wall == []
    {
      ground := [];
      wall := [];
    }
  }

  // ----------------------------------------------------------------- lemmas

  /** The door prefers the north wall, takes the west wall otherwise, and only a wall of that side. */
  lemma DoorWallChoice(grid: seq<Tile>, width: int, at: Point)
    ensures var north := CellAt(grid, (at.x - 1) + width * at.y);
      Has(north, WALL) && Has(north, NORTH) ==> DoorWall(grid, width, at) == Some(north)
    ensures var north := CellAt(grid, (at.x - 1) + width * at.y);
      var west := CellAt(grid, at.x + width * (at.y - 1));
      !(Has(north, WALL) && Has(north, NORTH)) ==>
        (DoorWall(grid, width, at) == (if Has(west, WALL) && Has(west, WEST) then Some(west) else None))
    ensures DoorWall(grid, width, at).Some? ==> Has(DoorWall(grid, width, at).value, WALL)
  {
  }

  /** Only another player's character carries a life bar, and every unnamed type is an item. */
  lemma ElementKinds(data: EntityData, grid: seq<Tile>, width: int, progress: int, mapkind: string, clientId: string)
    ensures KindFor(data, grid, width, progress, mapkind, clientId).CharacterElement? <==> data.entityType == PlayerType
    ensures data.entityType == PlayerType ==>
      (KindFor(data, grid, width, progress, mapkind, clientId).hasLifebar <==> data.id != clientId)
    ensures data.entityType.ItemKindType? <==> KindFor(data, grid, width, progress, mapkind, clientId) == ItemElement
  {
  }

  lemma FirstGroundAtAppend(a: seq<GroundTile>, b: seq<GroundTile>, x: int, y: int)
    ensures FirstGroundAt(a + b, x, y) == if FirstGroundAt(a, x, y).Some? then FirstGroundAt(a, x, y) else FirstGroundAt(b, x, y)
  {
    if a != [] {
      assert (a + b)[1..] == a[1..] + b;
      FirstGroundAtAppend(a[1..], b, x, y);
    } else {
      assert a + b == b;
    }
  }

  /** Flat index `i` decodes to column `x`, row `y` exactly when `i == x + width * y` with `x` a column. */
  lemma CellDecodes(width: int, i: int, x: int, y: int)
    requires width > 0 && i >= 0
    ensures (i % width == x && i / width == y) <==> (0 <= x < width && 0 <= y && x + width * y == i)
  {
    if 0 <= x < width && 0 <= y && x + width * y == i {
      DivModUnique(width, x, y, i);
    }
  }

  lemma FirstGroundAtCell(mapkind: string, t: Tile, r: int, c: int, x: int, y: int)
    ensures FirstGroundAt(CellTile(mapkind, t, r, c).ground, x, y) ==
      if ShownFloor(t) && r == y && c == x then Some(GroundTile(GroundResource(mapkind), r, c)) else None
  {
    var g := CellTile(mapkind, t, r, c).ground;
    if g != [] {
      assert g[1..] == [];
    }
  }

  /**
   * After createTiles over the first `n` cells, the floor found at column
   * `x`, row `y` is exactly the one of cell `x + width * y`: present iff that
   * cell is within the first `n` and is a shown floor.
   */
  lemma {:induction false} DecodedFloorFound(mapkind: string, grid: seq<Tile>, width: int, n: nat, x: int, y: int)
    requires width > 0 && n <= |grid|
    ensures FirstGroundAt(FlatTiles(mapkind, grid, width, n).ground, x, y) ==
      if 0 <= x < width && 0 <= y && x + width * y < n && ShownFloor(grid[x + width * y])
      then Some(GroundTile(GroundResource(mapkind), y, x)) else None
  {
    if n > 0 {
      var i := n - 1;
      DecodedFloorFound(mapkind, grid, width, i, x, y);
      FirstGroundAtAppend(FlatTiles(mapkind, grid, width, i).ground, CellTile(mapkind, grid[i], DungeonLayout.Row(i, width), DungeonLayout.Col(i, width)).ground, x, y);
      FirstGroundAtCell(mapkind, grid[i], DungeonLayout.Row(i, width), DungeonLayout.Col(i, width), x, y);
      CellDecodes(width, i, x, y);
    }
  }

  /**
   * The factory decodes the server's flattening: on the flat grid of a
   * `width` by `height` map, the floor at column `x`, row `y` is found
   * exactly when the generated grid has a shown floor there.
   */
  lemma ClientFindsServerFloor(mapkind: string, generated: seq<seq<Tile>>, width: nat, height: nat, x: int, y: int)
    requires width > 0 && DungeonLayout.Covers(generated, width, height)
    ensures var flat := DungeonLayout.Flattened(generated, width, height);
      FirstGroundAt(FlatTiles(mapkind, flat, width, |flat|).ground, x, y).Some? <==>
        0 <= x < width && 0 <= y < height && ShownFloor(generated[y][x])
  {
    var flat := DungeonLayout.Flattened(generated, width, height);
    DecodedFloorFound(mapkind, flat, width, |flat|, x, y);
    if 0 <= x < width && 0 <= y {
      if y < height {
        DungeonLayout.FlattenedCell(generated, width, height, x, y);
      } else {
        DungeonLayout.MulMonotoneRight(width, height, y);
      }
    }
  }
}
