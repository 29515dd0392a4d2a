/**
 * The tile rules shared by the two level builders (client/game/level/Factory.js
 * and app/js/game/level/Generator.js, whose `addTile` bodies agree): which
 * mesh a tile flag set produces, and the walls a room connection adds.
 * Meshes are records of what the builders store on them; world
 * coordinates, rotations and offsets are left out, a wall keeps only the
 * side it is pushed against.
 */
module TileRules {
  import opened Common
  import opened Tiles

  /** A floor mesh: its resource and the (x, y) kept in its user data. */
  datatype GroundTile = GroundTile(resource: string, x: int, y: int)

  /** A wall mesh: its resource, its tile and the side it leans on (the first of north, south, east, west it carries). */
  datatype WallMesh = WallMesh(resource: string, x: int, y: int, side: Option<Tile>)

  /** What a run of `addTile` calls pushes onto the `ground` and `wall` groups. */
  datatype Pushed = Pushed(ground: seq<GroundTile>, walls: seq<WallMesh>)
  {
    function Then(next: Pushed): (r: Pushed)
      ensures r.ground == ground + next.ground && r.walls == walls + next.walls
    {
      Pushed(ground + next.ground, walls + next.walls)
    }
  }

  const NOTHING: Pushed := Pushed([], [])

  /** Pushing `a` and then `b` onto groups holding `g` and `w` is pushing `a.Then(b)`. */
  lemma AppendThen(g: seq<GroundTile>, w: seq<WallMesh>, a: Pushed, b: Pushed)
    ensures g + a.Then(b).ground == (g + a.ground) + b.ground
    ensures w + a.Then(b).walls == (w + a.walls) + b.walls
  {
  }

  /** The entity types the level builders tell apart (shared/helpers is not part of this model). */
  datatype EntityType =
    | DoorType | EnemyType | PlayerType | NpcType | LightType | AestheticsType
    | RockType | ChestType | FountainType | TextEventType
    | ItemKindType(name: string)

  /** The part of a state entity the builders read. */
  datatype EntityData = EntityData(entityType: EntityType, id: string, position: Point)

  datatype TileKind = GroundKind | WallKind | NoKind

  function GroundResource(mapkind: string): string
  {
    "tile-" + mapkind + "-ground"
  }

  function WallResource(mapkind: string): string
  {
    "tile-" + mapkind + "-wall"
  }

  /** Floor before wall; a corner wall has no mesh (yet). */
  function Classify(t: Tile): (k: TileKind)
    ensures k == GroundKind <==> Has(t, FLOOR)
    ensures k == WallKind <==> !Has(t, FLOOR) && Has(t, WALL) && !Has(t, CORNER)
    ensures k == NoKind <==> !Has(t, FLOOR) && (!Has(t, WALL) || Has(t, CORNER))
  {
    if Has(t, FLOOR) then GroundKind
    else if Has(t, WALL) && !Has(t, CORNER) then WallKind
    else NoKind
  }

  function WallSide(t: Tile): Option<Tile>
  {
    if Has(t, NORTH) then Some(NORTH)
    else if Has(t, SOUTH) then Some(SOUTH)
    else if Has(t, EAST) then Some(EAST)
    else if Has(t, WEST) then Some(WEST)
    else None
  }

  /** A connector request: the flags and the tile of one recursive `addTile`. */
  datatype Connector = Connector(flags: Tile, x: int, y: int)

  /**
   * A floor with a connection gets walls on both sides of the opening: a
   * north or south opening walls (x, y) and the next tile along y on its east
   * and west sides; an east or west opening walls (x, y) and the next tile
   * along x on its south and north sides. Only the first direction counts.
   */
  function Connectors(t: Tile, x: int, y: int): seq<Connector>
  {
    if Has(t, NORTH) then [Connector(WALL | EAST, x, y), Connector(WALL | WEST, x, y), Connector(WALL | EAST, x, y + 1), Connector(WALL | WEST, x, y + 1)]
    else if Has(t, SOUTH) then [Connector(WALL | EAST, x, y), Connector(WALL | WEST, x, y), Connector(WALL | EAST, x, y - 1), Connector(WALL | WEST, x, y - 1)]
    else if Has(t, EAST) then [Connector(WALL | SOUTH, x, y), Connector(WALL | NORTH, x, y), Connector(WALL | SOUTH, x - 1, y), Connector(WALL | NORTH, x - 1, y)]
    else if Has(t, WEST) then [Connector(WALL | SOUTH, x, y), Connector(WALL | NORTH, x, y), Connector(WALL | SOUTH, x + 1, y), Connector(WALL | NORTH, x + 1, y)]
    else []
  }

  /** The walls the connector requests push, in call order: each is an addTile of a tile without FLOOR. */
  function ConnectorWalls(mapkind: string, cs: seq<Connector>): (r: seq<WallMesh>)
    requires forall c :: c in cs ==> !Has(c.flags, FLOOR)
    decreases 0, 1, |cs|
  {
    if cs == [] then []
    else ConnectorWalls(mapkind, cs[..|cs| - 1]) + AddTile(mapkind, cs[|cs| - 1].flags, cs[|cs| - 1].x, cs[|cs| - 1].y).walls
  }

  /**
   * addTile(mapkind, t, x, y): a floor pushes its connector walls and then
   * itself onto `ground`; a plain wall pushes itself onto `wall`; anything
   * else pushes nothing.
   */
  function AddTile(mapkind: string, t: Tile, x: int, y: int): (r: Pushed)
    decreases if Has(t, FLOOR) then 1 else 0, 0, 0
    ensures |r.ground| <= 1
    ensures r.ground != [] <==> Has(t, FLOOR)
    ensures r.ground != [] ==> r.ground == [GroundTile(GroundResource(mapkind), x, y)]
  {
    match Classify(t)
    case GroundKind =>
      ConnectorsAreNotFloors(t, x, y);
      Pushed([GroundTile(GroundResource(mapkind), x, y)], ConnectorWalls(mapkind, Connectors(t, x, y)))
    case WallKind => Pushed([], [WallMesh(WallResource(mapkind), x, y, WallSide(t))])
    case NoKind => NOTHING
  }

  lemma ConnectorsAreNotFloors(t: Tile, x: int, y: int)
    ensures forall c :: c in Connectors(t, x, y) ==> !Has(c.flags, FLOOR)
  {
  }

  /** A tile the builders draw as floor: not EMPTY, and FLOOR. */
  predicate ShownFloor(t: Tile)
  {
    !Has(t, EMPTY) && Has(t, FLOOR)
  }

  /** What a builder pushes for one grid cell: nothing when it is EMPTY. */
  function CellTile(mapkind: string, t: Tile, x: int, y: int): (r: Pushed)
    ensures r.ground != [] <==> ShownFloor(t)
    ensures r.ground != [] ==> r.ground == [GroundTile(GroundResource(mapkind), x, y)]
  {
    if Has(t, EMPTY) then NOTHING else AddTile(mapkind, t, x, y)
  }

  // ----------------------------------------------------------------- lemmas

  /** Each connector request is a plain wall, leaning on the direction it names. */
  lemma ConnectorsArePlainWalls(t: Tile, x: int, y: int)
    ensures forall c :: c in Connectors(t, x, y) ==> Classify(c.flags) == WallKind && !Has(c.flags, FLOOR)
    ensures forall c :: c in Connectors(t, x, y) ==> WallSide(c.flags) == Some(c.flags & (NORTH | SOUTH | EAST | WEST))
  {
  }

  /** The wall flags the connectors use: each is a plain wall leaning on its direction. */
  lemma ConnectorFlags()
    ensures Classify(WALL | NORTH) == WallKind && WallSide(WALL | NORTH) == Some(NORTH)
    ensures Classify(WALL | SOUTH) == WallKind && WallSide(WALL | SOUTH) == Some(SOUTH)
    ensures Classify(WALL | EAST) == WallKind && WallSide(WALL | EAST) == Some(EAST)
    ensures Classify(WALL | WEST) == WallKind && WallSide(WALL | WEST) == Some(WEST)
  {
  }

  /** A plain wall pushes exactly its one wall mesh. */
  lemma PlainWall(mapkind: string, t: Tile, x: int, y: int)
    requires Classify(t) == WallKind
    ensures AddTile(mapkind, t, x, y) == Pushed([], [WallMesh(WallResource(mapkind), x, y, WallSide(t))])
  {
  }

  /** Four connector requests push their four walls in order. */
  lemma FourConnectorWalls(mapkind: string, a: Connector, b: Connector, c: Connector, d: Connector)
    requires Classify(a.flags) == WallKind && Classify(b.flags) == WallKind
    requires Classify(c.flags) == WallKind && Classify(d.flags) == WallKind
    ensures ConnectorWalls(mapkind, [a, b, c, d]) ==
      [WallMesh(WallResource(mapkind), a.x, a.y, WallSide(a.flags)), WallMesh(WallResource(mapkind), b.x, b.y, WallSide(b.flags)),
       WallMesh(WallResource(mapkind), c.x, c.y, WallSide(c.flags)), WallMesh(WallResource(mapkind), d.x, d.y, WallSide(d.flags))]
  {
    PlainWall(mapkind, a.flags, a.x, a.y);
    PlainWall(mapkind, b.flags, b.x, b.y);
    PlainWall(mapkind, c.flags, c.x, c.y);
    PlainWall(mapkind, d.flags, d.x, d.y);
    assert [a][..0] == [];
    assert ConnectorWalls(mapkind, [a]) == AddTile(mapkind, a.flags, a.x, a.y).walls;
    assert [a, b][..1] == [a];
    assert ConnectorWalls(mapkind, [a, b]) == ConnectorWalls(mapkind, [a]) + AddTile(mapkind, b.flags, b.x, b.y).walls;
    assert [a, b, c][..2] == [a, b];
    assert ConnectorWalls(mapkind, [a, b, c]) == ConnectorWalls(mapkind, [a, b]) + AddTile(mapkind, c.flags, c.x, c.y).walls;
    assert [a, b, c, d][..3] == [a, b, c];
  }

  /** A connected floor adds exactly four walls, at the tile and its neighbour, from its first direction only. */
  lemma ConnectorExpansion(mapkind: string, t: Tile, x: int, y: int)
    requires Has(t, FLOOR)
    ensures Has(t, NORTH) ==>
      AddTile(mapkind, t, x, y).walls ==
        [WallMesh(WallResource(mapkind), x, y, Some(EAST)), WallMesh(WallResource(mapkind), x, y, Some(WEST)),
         WallMesh(WallResource(mapkind), x, y + 1, Some(EAST)), WallMesh(WallResource(mapkind), x, y + 1, Some(WEST))]
    ensures !Has(t, NORTH) && Has(t, SOUTH) ==>
      AddTile(mapkind, t, x, y).walls ==
        [WallMesh(WallResource(mapkind), x, y, Some(EAST)), WallMesh(WallResource(mapkind), x, y, Some(WEST)),
         WallMesh(WallResource(mapkind), x, y - 1, Some(EAST)), WallMesh(WallResource(mapkind), x, y - 1, Some(WEST))]
    ensures !Has(t, NORTH) && !Has(t, SOUTH) && Has(t, EAST) ==>
      AddTile(mapkind, t, x, y).walls ==
        [WallMesh(WallResource(mapkind), x, y, Some(SOUTH)), WallMesh(WallResource(mapkind), x, y, Some(NORTH)),
         WallMesh(WallResource(mapkind), x - 1, y, Some(SOUTH)), WallMesh(WallResource(mapkind), x - 1, y, Some(NORTH))]
    ensures !Has(t, NORTH) && !Has(t, SOUTH) && !Has(t, EAST) && Has(t, WEST) ==>
      AddTile(mapkind, t, x, y).walls ==
        [WallMesh(WallResource(mapkind), x, y, Some(SOUTH)), WallMesh(WallResource(mapkind), x, y, Some(NORTH)),
         WallMesh(WallResource(mapkind), x + 1, y, Some(SOUTH)), WallMesh(WallResource(mapkind), x + 1, y, Some(NORTH))]
    ensures |AddTile(mapkind, t, x, y).walls| == (if WallSide(t).Some? then 4 else 0)
  {
    ConnectorFlags();
    var cs := Connectors(t, x, y);
    if cs != [] {
      FourConnectorWalls(mapkind, cs[0], cs[1], cs[2], cs[3]);
      assert cs == [cs[0], cs[1], cs[2], cs[3]];
    } else {
      assert ConnectorWalls(mapkind, cs) == [];
    }
  }

  /** Floors go only to `ground`, plain walls only to `wall`, corners and anything else nowhere. */
  lemma TileKindsAndGroups(mapkind: string, t: Tile, x: int, y: int)
    ensures Classify(t) == WallKind ==> AddTile(mapkind, t, x, y) == Pushed([], [WallMesh(WallResource(mapkind), x, y, WallSide(t))])
    ensures Classify(t) == NoKind ==> AddTile(mapkind, t, x, y) == NOTHING
    ensures Has(t, WALL) && Has(t, CORNER) && !Has(t, FLOOR) ==> AddTile(mapkind, t, x, y) == NOTHING
    ensures forall w :: w in AddTile(mapkind, t, x, y).walls ==> w.resource == WallResource(mapkind)
  {
    if Classify(t) == GroundKind {
      ConnectorExpansion(mapkind, t, x, y);
    }
  }
}
