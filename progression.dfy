/**
 * server/utils/ProgressionConfig.ts: which map a dungeon depth gets, how
 * big it is, which enemies live there, and the enemy table.
 */
module Progression {
  import opened Common
  import opened Stats

  datatype MapKind = Rock | Cave | Ice | Grass | Inferno | Castle

  const NUM_LEVELS_PER_MAP: int := 20
  const NUM_LEVELS_PER_CHECKPOINT: int := 8
  const NUM_LEVELS_PER_LOOT_ROOM: int := 12

  const MAX_ARMOR_ARMOR: int := 50
  const MAX_SHIELD_ARMOR: int := 15
  const MAX_HELMET_ARMOR: int := 10
  const MAX_BOOTS_ARMOR: int := 8
  const MAX_BOOTS_MOVEMENT_SPEED: int := 16
  const MAX_WEAPON_DAMAGE: int := 30
  const MAX_BOW_DAMAGE: int := 20
  const MAX_BOW_ATTACK_DISTANCE: int := 6
  const MAX_STAFF_DAMAGE: int := 14
  const MAX_STAFF_ATTACK_DISTANCE: int := 7

  /** The room type argument of getMapConfig; `NoRoomType` is an absent or unrecognised one. */
  datatype RoomType = NoRoomType | CustomRoom | LootRoom | PvpRoom

  datatype Daylight = FixedDaylight(day: bool) | CoinFlipDaylight

  /** getMapWidth / getMapHeight: a constant, or `floor(base + (progress % 20) * 0.2)`. */
  datatype SizeRule = ConstantSize(size: int) | GrowingSize(base: int)

  /** The random-seed driven options, by the rule each config gives them. */
  datatype OneDirectionRule = OneDirectionUnset | NeverOneDirection | AlwaysOneDirection | OnOddProgress | OneInN(n: int)
  datatype ConnectionsRule = ConnectionsUnset | NoConnections | UnlessRollIsZero(upTo: int)
  datatype ObstaclesRule = ObstaclesUnset | ObstaclesChance(chance: int) | ObstaclesBetween(lo: int, hi: int)

  datatype MapConfig = MapConfig(
    daylight: Daylight,
    mapkind: MapKind,
    width: SizeRule,
    height: SizeRule,
    numRooms: Option<int>,
    minRoomSize: Point,
    maxRoomSize: Point,
    oneDirection: OneDirectionRule,
    hasConnections: ConnectionsRule,
    obstacles: ObstaclesRule,
    maxStunTilesPerRoom: Option<int>,
    enemies: seq<string>,
    strongerEnemies: seq<string>,
    boss: Option<seq<string>>)

  function Regular(daylight: bool, kind: MapKind, base: int, maxRoom: int, oneDirection: OneDirectionRule,
                   connections: ConnectionsRule, obstacles: ObstaclesRule, stun: Option<int>,
                   enemies: seq<string>, stronger: seq<string>, boss: seq<string>): MapConfig
  {
    MapConfig(FixedDaylight(daylight), kind, GrowingSize(base), GrowingSize(base), None,
      Point(6, 6), Point(maxRoom, maxRoom), oneDirection, connections, obstacles, stun, enemies, stronger, Some(boss))
  }

  const MAP_CONFIGS: seq<MapConfig> := [
    Regular(true, Rock, 18, 7, NeverOneDirection, ConnectionsUnset, ObstaclesUnset, None,
      ["rat", "spider", "bat"], ["spider-medium"], ["spider-giant"]),
    Regular(false, Cave, 19, 8, OnOddProgress, UnlessRollIsZero(4), ObstaclesBetween(4, 6), Some(2),
      ["slime", "slime-2", "skeleton-1", "slime-cube"], ["slime-cube"], ["slime-big"]),
    Regular(true, Grass, 19, 8, OneInN(3), ConnectionsUnset, ObstaclesUnset, Some(2),
      ["skeleton-1", "skeleton-2", "skeleton-3"], ["skeleton-4"], ["necromancer"]),
    Regular(false, Grass, 19, 8, OneInN(4), ConnectionsUnset, ObstaclesUnset, Some(3),
      ["goblin", "goblin-2", "goblin-3"], ["skeleton-2"], ["goblin-boss"]),
    Regular(true, Inferno, 20, 9, OneDirectionUnset, UnlessRollIsZero(4), ObstaclesBetween(6, 7), Some(3),
      ["lava-ogre", "lava-totem", "beholder"], ["golem"], ["scorpion-boss"]),
    Regular(false, Inferno, 20, 9, OneDirectionUnset, UnlessRollIsZero(4), ObstaclesBetween(6, 7), Some(4),
      ["demon", "lava-totem", "beholder"], ["winged-demon"],
      ["monkey-king", "scorpion-boss", "goblin-boss", "necromancer", "slime-big", "spider-giant"])
  ]

  const MAX_LEVELS: int := |MAP_CONFIGS| * NUM_LEVELS_PER_MAP

  function SizeAt(rule: SizeRule, progress: int): int
  {
    match rule
    case ConstantSize(n) => n
    // floor(base + r * 0.2) == base + floor(r / 5) for the integer remainder r (|r| < 20)
    case GrowingSize(base) => base + JsRem(progress, NUM_LEVELS_PER_MAP) / 5
  }

  /** getMapConfig. `None` is both the custom room's `null` and an index past the table (`undefined`). */
  function GetMapConfig(progress: int, roomType: RoomType): Option<MapConfig>
  {
    if roomType == CustomRoom then None
    else if roomType == LootRoom then
      Some(MapConfig(CoinFlipDaylight, GetMapKind(progress, 2), ConstantSize(20), ConstantSize(20), Some(1),
        Point(6, 6), Point(6, 6), OneDirectionUnset, ConnectionsUnset, ObstaclesUnset, None, [], [], None))
    else if roomType == PvpRoom then
      Some(MapConfig(FixedDaylight(false), if progress == MAX_LEVELS then Inferno else Castle,
        ConstantSize(40), ConstantSize(40), None, Point(8, 8), Point(9, 9),
        AlwaysOneDirection, NoConnections, ObstaclesChance(1), Some(10), [], [], None))
    else RegularMapConfig(progress)
  }

  /** getMapConfig without a room type: the lobby and last level, then the table by depth. */
  function RegularMapConfig(progress: int): Option<MapConfig>
  {
    if progress == 1 || progress == MAX_LEVELS then
      Some(MapConfig(FixedDaylight(true), if progress == MAX_LEVELS then Inferno else Castle,
        ConstantSize(24), ConstantSize(24), None, Point(8, 8), Point(8, 8),
        AlwaysOneDirection, ConnectionsUnset, ObstaclesUnset, None, [], [], None))
    else
      var index := progress / NUM_LEVELS_PER_MAP;
      if 0 <= index < |MAP_CONFIGS| then Some(MAP_CONFIGS[index]) else None
  }

  /** getMapKind: the kind of the map `multiplier` map-lengths deeper, Inferno past the table. */
  function GetMapKind(progress: int, multiplier: int): MapKind
  {
    var config := RegularMapConfig(progress + NUM_LEVELS_PER_MAP * multiplier);
    if config.Some? then config.value.mapkind else Inferno
  }

  /** defaultGetNumRooms. The room sizes of every config are positive. */
  function DefaultGetNumRooms(width: int, height: int, progress: int, maxRoomSize: Point): int
    requires maxRoomSize.x * maxRoomSize.y > 0
  {
    Max(2, Min((width * height) / (maxRoomSize.x * maxRoomSize.y), progress / 2))
  }

  predicate IsBossMap(progress: int)
  {
    (progress + 1) % NUM_LEVELS_PER_MAP == 0
  }

  predicate IsCheckPointMap(progress: int)
  {
    (progress + 1) % NUM_LEVELS_PER_CHECKPOINT == 0
  }

  // ------------------------------------------------------------ enemy table

  datatype Spawner = Spawner(types: seq<string>, giveXP: bool, lvl: int)

  datatype EnemyConfig = EnemyConfig(
    ratio: int,
    primaryAttribute: Attribute,
    strength: int, agility: int, intelligence: int,
    modifiers: map<StatName, int>,
    spawner: Option<Spawner>)

  function Plain(primary: Attribute, s: int, a: int, i: int, mods: map<StatName, int>): EnemyConfig
  {
    EnemyConfig(0, primary, s, a, i, mods, None)
  }

  const ENEMY_CONFIGS: map<string, EnemyConfig> := map[
    "bat" := Plain(Strength, 1, 0, 0, map[MovementSpeed := 10, AiDistance := 7]),
    "rat" := Plain(Strength, 1, 1, 1, map[AiDistance := 3, Damage := 2]),
    "spider" := Plain(Strength, 0, 0, 0, map[AiDistance := 5]),
    "scorpion" := Plain(Strength, 1, 1, 1, map[Damage := 10, MovementSpeed := 5]),
    "spider-medium" := Plain(Strength, 3, 2, 1, map[MovementSpeed := 5, Damage := 5]),
    "spider-giant" := EnemyConfig(0, Strength, 10, 4, 1, map[Damage := 4, Hp := 80], Some(Spawner(["spider"], false, 2))),
    "slime" := Plain(Strength, 3, 2, 1, map[Damage := 2]),
    "slime-2" := Plain(Strength, 3, 2, 1, map[Damage := 2, MovementSpeed := 5]),
    "slime-cube" := Plain(Strength, 4, 1, 1, map[Damage := 2]),
    "slime-big" := Plain(Strength, 8, 2, 1, map[Damage := 8, Hp := 1500]),
    "skeleton-1" := Plain(Strength, 5, 2, 1, map[]),
    "skeleton-2" := Plain(Agility, 5, 2, 1, map[AttackDistance := 2]),
    "skeleton-3" := Plain(Strength, 6, 3, 2, map[Damage := 3]),
    "skeleton-4" := Plain(Strength, 8, 4, 1, map[MovementSpeed := 10, AttackSpeed := 10, Damage := 4]),
    "necromancer" := EnemyConfig(0, Intelligence, 2, 3, 5,
      map[Damage := 10, MovementSpeed := 3, AttackDistance := 2, Hp := 1000], Some(Spawner(["skeleton-1", "skeleton-2"], false, 5))),
    "wolf" := Plain(Agility, 3, 5, 5, map[AttackSpeed := 10, MovementSpeed := 10]),
    "goblin" := Plain(Strength, 6, 2, 1, map[Damage := 4, MovementSpeed := 3, AttackSpeed := 3]),
    "goblin-2" := Plain(Strength, 5, 2, 1, map[MovementSpeed := 3, AttackSpeed := 3]),
    "goblin-3" := Plain(Agility, 4, 6, 2, map[MovementSpeed := 7, AttackSpeed := 7]),
    "goblin-boss" := Plain(Strength, 10, 5, 3, map[Damage := 12, Hp := 300, MovementSpeed := 3, AttackSpeed := 4]),
    "lava-ogre" := Plain(Strength, 10, 2, 1, map[Damage := 10, Hp := 50, MovementSpeed := 5, AttackSpeed := 5]),
    "lava-totem" := Plain(Strength, 10, 2, 1, map[Damage := 20, Hp := 50, MovementSpeed := 1, AttackSpeed := 5]),
    "beholder" := Plain(Strength, 10, 2, 1, map[Damage := 5, Hp := 50, MovementSpeed := 8, AttackSpeed := 8]),
    "golem" := Plain(Strength, 10, 2, 1, map[Damage := 50, AttackSpeed := -10, Hp := 100]),
    "scorpion-boss" := EnemyConfig(0, Strength, 10, 5, 5,
      map[Damage := 10, Hp := 500, MovementSpeed := 2, AttackSpeed := 3], Some(Spawner(["scorpion"], false, 3))),
    "demon" := Plain(Strength, 15, 2, 1, map[Damage := 10, Hp := 50, AiDistance := 10]),
    "winged-demon" := Plain(Strength, 20, 2, 1, map[Damage := 5, Hp := 50]),
    "monkey-king" := EnemyConfig(0, Agility, 10, 20, 10,
      map[Damage := 20, Hp := 5000, MovementSpeed := 10, AttackSpeed := 10], Some(Spawner(["monkey"], false, 20))),
    "monkey" := Plain(Agility, 5, 10, 5, map[Damage := 10, MovementSpeed := 12, AttackSpeed := 12]),
    "mimic" := Plain(Strength, 8, 5, 0, map[AttackSpeed := 10, MovementSpeed := 10, AiDistance := 10]),
    "tower" := Plain(Strength, 3, 1, 0, map[Hp := 200, AttackSpeed := -10, AttackDistance := 3, AiDistance := 3])
  ]

  predicate IsEnemyName(name: string)
  {
    name in ENEMY_CONFIGS
  }

  // ----------------------------------------------------------------- lemmas

  lemma MaxLevels()
    ensures MAX_LEVELS == 120
  {
  }

  /** An ordinary depth between the lobby and the last level reads its table entry. */
  lemma RegularDepthUsesTable(progress: int)
    requires 2 <= progress < MAX_LEVELS
    ensures GetMapConfig(progress, NoRoomType) == Some(MAP_CONFIGS[progress / 20])
  {
  }

  /** The lobby and the last level are 24 by 24 with 8 by 8 rooms, castle and inferno respectively. */
  lemma LobbyAndFinalLevel(progress: int)
    requires progress == 1 || progress == 120
    ensures var c := GetMapConfig(progress, NoRoomType);
      c.Some? && c.value.width == ConstantSize(24) && c.value.height == ConstantSize(24) &&
      c.value.minRoomSize == Point(8, 8) && c.value.maxRoomSize == Point(8, 8) &&
      c.value.mapkind == (if progress == 1 then Castle else Inferno) && c.value.enemies == []
  {
  }

  /** Past the last level, or below zero, there is no configuration. */
  lemma NoConfigOutsideTable(progress: int)
    requires progress > 120 || progress < 0
    ensures GetMapConfig(progress, NoRoomType) == None
  {
  }

  /** Maps grow one tile every 5 depths within a map kind, from 18, 19 or 20 tiles. */
  lemma RegularSizes(progress: int)
    requires 2 <= progress < 120
    ensures var c := MAP_CONFIGS[progress / 20];
      c.width == c.height && c.width.GrowingSize? && 18 <= c.width.base <= 20 &&
      SizeAt(c.width, progress) == c.width.base + (progress % 20) / 5 &&
      18 <= SizeAt(c.width, progress) <= 23
  {
  }

  /** Every table entry's rooms fit: minimum no larger than maximum, both positive, below the map's smallest size. */
  lemma RoomSizesFit(i: int)
    requires 0 <= i < |MAP_CONFIGS|
    ensures var c := MAP_CONFIGS[i];
      0 < c.minRoomSize.x <= c.maxRoomSize.x < SizeAt(c.width, 20 * i) &&
      0 < c.minRoomSize.y <= c.maxRoomSize.y < SizeAt(c.height, 20 * i)
  {
  }

  /** The boss level is the last of each twenty, the checkpoint the last of each eight. */
  lemma BossAndCheckpointLevels(progress: int)
    ensures IsBossMap(progress) <==> progress % 20 == 19
    ensures IsCheckPointMap(progress) <==> progress % 8 == 7
    ensures IsBossMap(progress) <==> IsBossMap(progress + 20)
  {
  }

  /** The default room count is at least two and at most the larger of two and half the depth. */
  lemma NumRoomsBounds(width: int, height: int, progress: int, maxRoomSize: Point)
    requires maxRoomSize.x * maxRoomSize.y > 0
    ensures 2 <= DefaultGetNumRooms(width, height, progress, maxRoomSize) <= Max(2, progress / 2)
  {
  }

  /** The kind `multiplier` maps deeper comes from the table, or is Inferno past it. */
  lemma MapKindAhead(progress: int, multiplier: int)
    requires var q := progress + 20 * multiplier; 2 <= q < 120
    ensures GetMapKind(progress, multiplier) == MAP_CONFIGS[(progress + 20 * multiplier) / 20].mapkind
  {
  }

  lemma MapKindPastTable(progress: int, multiplier: int)
    requires progress + 20 * multiplier > 120
    ensures GetMapKind(progress, multiplier) == Inferno
  {
  }

  /** A loot room takes its kind from two maps deeper. */
  lemma LootRoomKind(progress: int)
    ensures var c := GetMapConfig(progress, LootRoom);
      c.Some? && c.value.mapkind == GetMapKind(progress, 2) && c.value.numRooms == Some(1) && c.value.enemies == []
    ensures var c := GetMapConfig(progress, LootRoom);
      c.value.width == ConstantSize(20) && c.value.height == ConstantSize(20) &&
      c.value.minRoomSize == Point(6, 6) && c.value.maxRoomSize == Point(6, 6)
  {
  }

  /** A custom room has no configuration; a PvP room is a 40 by 40 castle, inferno on the last level. */
  lemma CustomAndPvpRooms(progress: int)
    ensures GetMapConfig(progress, CustomRoom) == None
    ensures var c := GetMapConfig(progress, PvpRoom);
      c.Some? && c.value.width == ConstantSize(40) && c.value.height == ConstantSize(40) &&
      c.value.mapkind == (if progress == MAX_LEVELS then Inferno else Castle) && c.value.enemies == []
  {
  }

  /** The enemy names a table entry refers to: its enemies, its stronger enemies and its bosses. */
  function ReferencedEnemies(c: MapConfig): seq<string>
  {
    c.enemies + c.strongerEnemies + (if c.boss.Some? then c.boss.value else [])
  }

  /** Every enemy a table entry spawns, as a regular, stronger or boss enemy, is in the enemy table. */
  lemma MapEnemiesResolve(i: int)
    requires 0 <= i < |MAP_CONFIGS|
    ensures forall n :: n in ReferencedEnemies(MAP_CONFIGS[i]) ==> IsEnemyName(n)
  {
    var c := MAP_CONFIGS[i];
    if i == 0 {
      assert ReferencedEnemies(c) == ["rat", "spider", "bat", "spider-medium", "spider-giant"];
    } else if i == 1 {
      assert ReferencedEnemies(c) == ["slime", "slime-2", "skeleton-1", "slime-cube", "slime-cube", "slime-big"];
    } else if i == 2 {
      assert ReferencedEnemies(c) == ["skeleton-1", "skeleton-2", "skeleton-3", "skeleton-4", "necromancer"];
    } else if i == 3 {
      assert ReferencedEnemies(c) == ["goblin", "goblin-2", "goblin-3", "skeleton-2", "goblin-boss"];
    } else if i == 4 {
      assert ReferencedEnemies(c) == ["lava-ogre", "lava-totem", "beholder", "golem", "scorpion-boss"];
    } else {
      assert ReferencedEnemies(c) == ["demon", "lava-totem", "beholder", "winged-demon",
        "monkey-king", "scorpion-boss", "goblin-boss", "necromancer", "slime-big", "spider-giant"];
    }
  }

  /** The four spawning bosses, and the enemies they spawn, are in the enemy table; spawned enemies give no experience. */
  lemma SpawnedEnemiesResolve(name: string)
    requires name in ["spider-giant", "necromancer", "scorpion-boss", "monkey-king"]
    ensures IsEnemyName(name) && ENEMY_CONFIGS[name].spawner.Some?
    ensures !ENEMY_CONFIGS[name].spawner.value.giveXP
    ensures forall n :: n in ENEMY_CONFIGS[name].spawner.value.types ==> IsEnemyName(n)
  {
  }
}
