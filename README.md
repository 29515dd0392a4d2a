# mazmorra: unit rules, dungeon rooms, progression and client state, in Dafny

This project models the core of mazmorra, a multiplayer dungeon crawler with
a TypeScript server and a JavaScript client. It covers:

- the server's units: stat modifiers from equipped items, the hp, mp, speed
  and damage formulas, attacking, taking damage, sharing experience on death,
  levelling up, and the older `Unit.js` rules;
- enemies: copying their boost modifiers, choosing a target for the AI, and
  spending their free points on level-up;
- the dungeon state: the layout derived from the depth, the row-major grid
  flattening, the walkability mask, the entity and player registries, `move`,
  overlap resolution, and the update tick as it reaches units and enemies;
- the dungeon room: join acceptance, door-destination resolution, message
  guards, join and leave bookkeeping, and the dispose timeout;
- the progression tables (`MAP_CONFIGS`, `ENEMY_CONFIGS`) and the functions that
  read them, plus potions, consumable pickup and the movement-speed skill;
- on the client: the two level builders that decode the tile grid into floor
  and wall meshes, the door label, the select box, item-slot drag and drop,
  the slot strip, the battle feedback behaviour and the character panel.

The modules follow the source files; the pure rules of `Unit.ts` (`UnitRules`)
are kept apart from its class (`UnitModel`). Shared value types live in
`common.dfy`, `text.dfy` (decimal rendering of numbers in template strings),
`tiles.dfy` (the tile bit flags), `stats.dfy` (attributes, modifiers,
equipment) and `bars.dfy`.

Objects whose fields the source updates in place (`Unit`, `Enemy`,
`DungeonState`, `DungeonRoom`, `MovementSpeedSkill`, `Factory`,
`LevelGenerator`, `SelectBox`, `ItemSlot`, `SlotStrip`, `BattleBehaviour`,
`Character`) are Dafny classes. Each method states its new state, either
directly or through a specification function. Pure code (progression, tile
rules, door labels, potion tiers, the layout arithmetic) is functions with
lemmas. `flattenGrid` keeps its array and its two nested loops.

Numbers are unbounded integers. Hp, mp and xp bars are reals, because the
source divides them (the hp and mp ratio, the experience share). JavaScript
`%` on possibly negative operands is `Common.JsRem`. An `undefined` read of
the tile grid is 0, whose every flag test fails. The hero document's falsy
numbers are 0.

Collaborators that are not shown are stand-ins carrying only what the shown
code relies on:

- `Bar`, whose `set` caps at the maximum and whose reaching the maximum fires
  level-up;
- `Movement`: its tile, target and pending steps, and which of `update` or
  `touch` a tick calls;
- `BattleAction`: who attacks whom;
- `Inventory`: a capacity and an item list;
- the equipped items: named slots.

The path-finder, shared/Dungeon's generator, GridUtils and RoomUtils, the
random generator, the clock and `helpers/Math.distance` are parameters. The
database and the network are left out; values the room would write or send
are returned or recorded instead.

## Differences between the files

The files come from different versions of the program. Each is modelled as
written:

- `server/entities/Unit.ts:245` calls `checkOverlapingEntities` with four
  arguments; `server/rooms/states/DungeonState.ts:256` takes three. The model
  follows the state's signature.
- `server/entities/Enemy.ts:28` writes `statsBoostModifiers`, which
  `server/entities/Unit.ts` does not declare. `Enemy.ts:41` likewise calls an
  undeclared `getAIDistance`. In the model, `statsBoostModifiers` is a field
  of the unit, initially zero for every key, and the AI distance is a
  parameter.
- `server/rooms/DungeonRoom.ts:49` builds the state with
  `(progress, seed, roomName)`, but the state's constructor takes
  `(progress, difficulty, daylight)`. `DungeonRoom.ts:79` passes three
  arguments to the two-parameter `createPlayer`. The model keeps the room's
  seed and passes the state what its constructor reads. Daylight follows the
  clock, as the state's constructor computes it.
- `DungeonRoom.ts:53` sets `isPVPAllowed` on the state, which the state does
  not declare. The model gives the state that field.
- The client's panel uses a base armor of -1.5 for intelligence
  (`client/elements/hud/Character.js:303`); the server's unit declares -2
  (`server/entities/Unit.ts:79`). The panel model keeps the client's value.

## Model

| member | source | states |
|---|---|---|
| Bars.Bar.Set | server/entities/Unit.ts:257-259 | `set(v)` keeps the maximum and stores `v`, capped at the maximum |
| Bars.Bar.Filled | server/entities/Unit.ts:385-386 | a refilled bar's current value equals its maximum, which is unchanged |
| Bars.Rescaled | server/entities/Unit.ts:174-180 | a rescaled bar takes the new maximum and keeps its current-to-maximum ratio (or its current value when the old maximum is 0) |
| Bars.RescaleKeepsFull | server/entities/Unit.ts:174-180 | a full bar stays full when its maximum changes |
| Stats.SlotItem | server/entities/Unit.ts:187-189 | the item read from a named slot comes from a slot of that name; with no slot of that name there is no item |
| Stats.DamageAttribute | server/entities/Unit.ts:210-211 | the weapon's damage attribute, else the primary attribute; `UnitModel.Unit.GetDamage` and `CharacterPanel.DamageTextShowsRoll` use it for the damage bounds |
| Stats.AccumulateModifiers | server/entities/Unit.ts:158-172 | the reset-then-accumulate loops leave every modifier equal to the sum, over the equipped items, of its modifiers naming it |
| Stats.AddModifiers | server/entities/Unit.ts:168-170 | one item's `forEach` adds to each key exactly that item's modifiers naming it and keeps the key set |
| Stats.EquipmentTotalAppend | server/entities/Unit.ts:165-172 | the equipment total over two groups of slots is the sum of their totals |
| Stats.EquipIntoEmptySlot | server/entities/Unit.ts:165-172 | equipping an item in an empty slot adds exactly that item's modifiers to every total |
| Stats.NothingEquippedMeansZero | server/entities/Unit.ts:160-172 | with every slot empty every modifier is 0 |
| UnitRules.HpMax | server/entities/Unit.ts:175 | the hp maximum from base hp, strength and the strength and hp modifiers; `AttributePointEffects` gives a strength point's effect |
| UnitRules.MpMax | server/entities/Unit.ts:179 | the mp maximum from base mp, intelligence and the intelligence and mp modifiers; `AttributePointEffects` gives an intelligence point's effect |
| UnitRules.XpWorth | server/entities/Unit.ts:365-378 | the attribute total plus every modifier, times the level; `WorthWithoutModifiers` pins it down without modifiers |
| UnitRules.XpShare | server/entities/Unit.ts:317-329 | a contributor's share of the worth; `XpShareScales` and `XpShareExample` pin it down |
| UnitRules.NextFacing | server/entities/Unit.ts:340-359 | updateDirection's choice of facing; `FacingNeighbours` and `FacingKeptOnlyInPlace` pin down all nine cases |
| UnitRules.LevelUp | server/entities/Unit.ts:380-389 | onLevelUp, and Enemy's override when its points are spent; `LevelUpEffects` and `EnemyLevelUpSpendsPoints` pin it down |
| UnitRules.GainXp | server/entities/Unit.ts:155 | an xp gain that fires the level-up at the maximum; `GainXpLevelsOnce` and `GainXpStaysBelowMax` pin it down |
| UnitRules.AttributePointEffects | server/entities/Unit.ts:175-203 | one agility point makes steps and attacks exactly 10 ms faster; one strength point adds 3 hp; one intelligence point adds 3 mp |
| UnitRules.DamageRangeWidth | server/entities/Unit.ts:209-216 | the lowest roll is the damage attribute plus its modifier; the range is exactly the damage modifier wide |
| UnitRules.WorthWithoutModifiers | server/entities/Unit.ts:365-378 | with no modifiers, a unit's xp worth is its attribute total times its level |
| UnitRules.XpShareScales | server/entities/Unit.ts:313-330 | multiplying each contributor's share by its level and by the contributor count gives back the worth |
| UnitRules.XpShareExample | server/entities/Unit.ts:317-329 | a unit worth 40 killed by contributors of levels 5 and 10 gives them 4 and 2 |
| UnitRules.FacingNeighbours | server/entities/Unit.ts:340-359 | the facing chosen for each of the eight neighbours; the unit's own tile keeps its facing |
| UnitRules.FacingKeptOnlyInPlace | server/entities/Unit.ts:340-359 | the facing is unchanged for every current facing if and only if the target is the unit's own tile |
| UnitRules.LevelUpEffects | server/entities/Unit.ts:380-389 | a level-up adds one level and two points, refills hp and mp, resets xp to 0 and sets its maximum to 50 times the new level |
| UnitRules.EnemyLevelUpSpendsPoints | server/entities/Enemy.ts:66-73 | an enemy's level-up leaves no free points; its primary attribute grows by all it held and the other attributes stay unchanged |
| UnitRules.EnemyLevelUpAsWritten | server/entities/Enemy.ts:66-73 | the as-written level-up: points that were never set stay undefined; a count that is positive after the two new points ends at 0 |
| UnitRules.EnemyLevelUpAsWrittenSpendsNothing | server/entities/Enemy.ts:69 | as written, a fresh enemy's primary attribute does not grow on level-up |
| UnitRules.GainXpLevelsOnce | server/entities/Unit.ts:155 | a gain levels up if and only if it reaches the maximum, and by at most one level |
| UnitRules.GainXpStaysBelowMax | server/entities/Unit.ts:380-389 | for a unit of level 1 or more, experience stays below its maximum after any gain |
| UnitModel.Inventory.Add | server/entities/items/ConsumableItem.ts:11-16 | adding appends the item and keeps the capacity |
| UnitModel.Unit.constructor | server/entities/Unit.ts:111-156 | the quick inventory (6 slots) and the inventory (12 slots) hold the hero's saved items; level, primary attribute and attributes default to 1, strength and 1 each; base hp and mp are 10 only for heroes with a user; bars come from the formulas; a dead hero revives full; xp max is 50 times the level |
| UnitModel.Inventory.Set | server/entities/Unit.ts:117-118 | setting an inventory keeps its capacity and holds exactly the given items |
| UnitModel.Unit.RecalculateStatsModifiers | server/entities/Unit.ts:158-181 | the modifiers become the equipment totals; hp and mp are rescaled to their new maxima |
| UnitModel.Unit.GetDamage | server/entities/Unit.ts:209-217 | the roll lies between the bounds for the weapon's damage attribute, or for the primary attribute when there is no weapon |
| UnitModel.Unit.MovementSpeedNow | server/entities/Unit.ts:191-196 | getMovementSpeed: 1200 ms less 10 ms per agility and movement-speed point; `UnitRules.AttributePointEffects` gives an agility point's effect |
| UnitModel.Unit.AttackSpeedNow | server/entities/Unit.ts:198-203 | getAttackSpeed: 1000 ms less 10 ms per agility and attack-speed point; `UnitRules.AttributePointEffects` gives an agility point's effect |
| UnitModel.Unit.AttackDistanceNow | server/entities/Unit.ts:205-207 | getAttackDistance: one tile plus the attack-distance modifier, whatever the attributes |
| UnitModel.Unit.XpWorthNow | server/entities/Unit.ts:365-378 | getXPWorth of the unit's attributes, modifiers and level; `UnitModel.Unit.OnDie` shares it out and `UnitRules.XpShareScales` gives it back |
| UnitModel.Unit.Update | server/entities/Unit.ts:251-275 | a dead unit does nothing; hp regenerates by `hpRegeneration`, capped, and the regeneration clock moves to now only once the interval has passed (`RegeneratedHp`, `RegeneratedTime`); an eligible action means `touch`, otherwise `update` (`PositionCallFor`); nothing but hp and the clock changes |
| UnitModel.Unit.Attack | server/entities/Unit.ts:291-302 | a null or dead defender clears the action; the defender already fought keeps it; any other defender starts a new battle |
| UnitModel.Unit.TakeDamage | server/entities/Unit.ts:304-311 | hp drops by exactly the damage, which is returned; the attacker is remembered once, in first-hit order |
| UnitModel.Unit.OnLevelUp | server/entities/Unit.ts:380-389 | the unit's new progress is `LevelUp` of the old one; enemies also spend their points |
| UnitModel.Unit.GainXp | server/entities/Unit.ts:155 | the unit's new progress is `GainXp` of the old one |
| UnitModel.Unit.Drop | server/entities/Unit.ts:277-289 | without a state nothing happens; an undecided drop is decided once; a decided item is placed on the unit's tile |
| UnitModel.Unit.OnDie | server/entities/Unit.ts:313-333 | the unit becomes walkable; each contributor receives `(worth / n) / lvl` xp through its level-up rule; then the unit drops as `Drop` says; of the dying unit only `walkable` and the drop choice change, of each contributor only its level, points, bars and attributes |
| UnitModel.ShareXp | server/entities/Unit.ts:316-330 | each contributor, once, gains the worth divided by the number of contributors and by its own level, through its level-up rule; only its level, points, bars and attributes can change |
| UnitModel.Unit.OnKill | server/entities/Unit.ts:335-338 | the killer's pending steps are cleared and nothing else moves |
| UnitModel.Unit.UpdateDirection | server/entities/Unit.ts:340-359 | the new facing is `NextFacing` of the position, the target and the old facing |
| LegacyUnitModel.Raised | server/entities/Unit.js:109-111 | every attribute, in key order, rises by exactly one |
| LegacyUnitModel.RaisedTotal | server/entities/Unit.js:109-111 | the attribute total grows by the number of attributes |
| LegacyUnitModel.LegacyUnit.constructor | server/entities/Unit.js:12-42 | the initial bars (50 hp, 0 mp, xp 0 of 10), attributes, armor, damage, speeds and facing |
| LegacyUnitModel.LegacyUnit.Update | server/entities/Unit.js:46-57 | a dead unit does nothing; an eligible action runs and touches the movement; otherwise the movement steps |
| LegacyUnitModel.LegacyUnit.Drop | server/entities/Unit.js:59-63 | a drop is requested exactly when the unit has a state |
| LegacyUnitModel.LegacyUnit.Attack | server/entities/Unit.js:65-76 | the same three-way attack rule as the newer unit |
| LegacyUnitModel.LegacyUnit.TakeDamage | server/entities/Unit.js:78-85 | hp drops by exactly the damage, which is returned |
| LegacyUnitModel.LegacyUnit.LevelUp | server/entities/Unit.js:106-116 | one more level, every attribute raised by one, bars refilled, xp reset and its maximum kept |
| LegacyUnitModel.LegacyUnit.OnKill | server/entities/Unit.js:87-104 | xp follows `KillOutcome` of the kill formula; one level-up past the maximum, which raises every attribute and refills hp and mp; without it level, attributes, hp and mp stay; the victim is asked to drop only when it has a state |
| LegacyUnitModel.KillXpIsRatio | server/entities/Unit.js:90 | the kill xp is 4 times the victim's level over the killer's |
| LegacyUnitModel.KillXpSameLevel | server/entities/Unit.js:90 | killing a unit of one's own level gives 4 xp |
| LegacyUnitModel.KillOutcomeCarriesExcess | server/entities/Unit.js:93-103 | a level-up happens if and only if the gain passes the maximum, and the excess over the maximum is kept |
| LegacyUnitModel.OneLevelPerKill | server/entities/Unit.js:93-103 | one large gain levels up once and can leave xp above the kept maximum |
| EnemyModel.CopyModifiers | server/entities/Enemy.ts:27-29 | every provided modifier overrides the boost map; the other keys keep their value |
| EnemyModel.ClosePlayer | server/entities/Enemy.ts:45-52 | the chosen player is the first, in order, that is alive and within range; none when no player qualifies |
| EnemyModel.Enemy.constructor | server/entities/Enemy.ts:19-32 | level defaults to 1; the given modifiers are copied over zero boosts; the modifiers are recalculated; the AI clock starts now |
| EnemyModel.Enemy.Update | server/entities/Enemy.ts:34-64 | the unit's own update decides the position call and the hp regeneration; the AI runs only after 500 ms and without an eligible action (`AiAllowed`), and asks to move towards the first close player with swapped coordinates; the AI clock moves exactly then |
| EnemyModel.Enemy.OnLevelUp | server/entities/Enemy.ts:66-73 | the level-up with every free point spent on the primary attribute |
| Progression.GetMapConfig | server/utils/ProgressionConfig.ts:77-131 | the configuration for a depth and room type: none for a custom room, the loot and PvP configurations, the fixed lobby and last level, else table entry `progress / 20`, none past the table; `RegularDepthUsesTable`, `LobbyAndFinalLevel`, `NoConfigOutsideTable`, `LootRoomKind` and `CustomAndPvpRooms` pin it down |
| Progression.GetMapKind | server/utils/ProgressionConfig.ts:63-66 | the map kind of the configuration `multiplier` maps deeper, inferno when there is none; `MapKindAhead` and `MapKindPastTable` pin it down |
| Progression.DefaultGetNumRooms | server/utils/ProgressionConfig.ts:69-75 | at least two rooms, otherwise the smaller of the rooms that fit and half the depth; `NumRoomsBounds` bounds it |
| Progression.IsBossMap | server/utils/ProgressionConfig.ts:133-136 | a depth is a boss level when it is the last of its twenty; `BossAndCheckpointLevels` pins it down |
| Progression.IsCheckPointMap | server/utils/ProgressionConfig.ts:138-140 | a depth is a checkpoint when it is the last of its eight; `BossAndCheckpointLevels` pins it down |
| Progression.MaxLevels | server/utils/ProgressionConfig.ts:249 | six map configurations of twenty levels make 120 levels |
| Progression.RegularDepthUsesTable | server/utils/ProgressionConfig.ts:127-130 | a depth between the lobby and the last level reads table entry `progress / 20` |
| Progression.LobbyAndFinalLevel | server/utils/ProgressionConfig.ts:111-126 | the lobby and the last level are 24 by 24 with 8 by 8 rooms and no enemies, castle and inferno respectively |
| Progression.NoConfigOutsideTable | server/utils/ProgressionConfig.ts:127-130 | past the last level, or below zero, there is no configuration |
| Progression.LootRoomKind | server/utils/ProgressionConfig.ts:81-92 | a loot room is 20 by 20 with one 6 by 6 room, no enemies, and the map kind two maps deeper |
| Progression.CustomAndPvpRooms | server/utils/ProgressionConfig.ts:78-110 | a custom room has no configuration; a PvP room is 40 by 40 with no enemies, castle except inferno on the last level |
| Progression.RegularSizes | server/utils/ProgressionConfig.ts:142-247 | a table map is square, from 18, 19 or 20 tiles, and grows one tile every five depths |
| Progression.RoomSizesFit | server/utils/ProgressionConfig.ts:142-247 | in every table entry the room sizes are positive, ordered, and smaller than the map at the entry's first depth |
| Progression.BossAndCheckpointLevels | server/utils/ProgressionConfig.ts:133-140 | the boss level is the last of each twenty and the checkpoint the last of each eight |
| Progression.NumRoomsBounds | server/utils/ProgressionConfig.ts:69-75 | the default room count is at least 2 and at most the larger of 2 and half the depth |
| Progression.MapKindAhead | server/utils/ProgressionConfig.ts:63-66 | the kind `multiplier` maps deeper is that table entry's kind |
| Progression.MapKindPastTable | server/utils/ProgressionConfig.ts:63-66 | past the table the kind is inferno |
| Progression.MapEnemiesResolve | server/utils/ProgressionConfig.ts:142-247 | every enemy, stronger enemy and boss a table entry names has an enemy configuration |
| Progression.SpawnedEnemiesResolve | server/utils/ProgressionConfig.ts:251-770 | the four spawning bosses and what they spawn have enemy configurations, and spawned enemies give no xp |
| DungeonLayout.LayoutFor | server/rooms/states/DungeonState.ts:67-150 | the map kind, size, room bounds and room count the constructor picks for a depth; `LobbyLayout`, `RegularLayoutShape`, `SmallMapsUseRoomFloors` and `RoomCountBounds` pin it down |
| DungeonLayout.LobbyLayout | server/rooms/states/DungeonState.ts:67-71 | the lobby is a 12 by 12 castle with one room of 10 to 12 tiles |
| DungeonLayout.RegularLayoutShape | server/rooms/states/DungeonState.ts:86-98 | a regular map is a square rock map of side `14 + progress / 2`; its room bounds are square, ordered, at least 6 and 10, and fit in the map |
| DungeonLayout.SmallMapsUseRoomFloors | server/rooms/states/DungeonState.ts:94-98 | up to depth 13 the room bounds are exactly 6 and 10 |
| DungeonLayout.RoomCountBounds | server/rooms/states/DungeonState.ts:150 | a regular map asks for at least one room and at most half its depth |
| DungeonLayout.PathGrid | server/rooms/states/DungeonState.ts:193-199 | the mask has the grid's shape; a cell is 0 if and only if its tile has the FLOOR bit, and 1 otherwise |
| DungeonLayout.FillColumn | server/rooms/states/DungeonState.ts:340-342 | the inner loop writes column `x` of every row, extending the filled part to the next column |
| DungeonLayout.Flattened | server/rooms/states/DungeonState.ts:336-352 | the row-major flattening has `width * height` cells |
| DungeonLayout.FlattenedCell | server/rooms/states/DungeonState.ts:341 | column `x`, row `y` lands at index `x + width * y` and holds `grid[y][x]` |
| DungeonLayout.FlattenGrid | server/rooms/states/DungeonState.ts:336-352 | the nested loops fill the array with exactly the row-major flattening |
| DungeonStateModel.Entity.AsUnit | server/rooms/states/DungeonState.ts:263-264 | an entity is a unit (`instanceof Unit`) exactly when it is a unit or an enemy |
| DungeonStateModel.WithoutMembers | server/rooms/states/DungeonState.ts:212-214 | deleting keys keeps exactly the other keys, each still once |
| DungeonStateModel.AddThenRemove | server/rooms/states/DungeonState.ts:204-214 | adding an entity under a fresh id and removing that id gives back the registry and its key order |
| DungeonStateModel.WithoutIndexes | server/rooms/states/DungeonState.ts:212-214 | deleting ids keeps the key order listing exactly the registry's keys, once each |
| DungeonStateModel.ValuesInOrder | server/rooms/states/DungeonState.ts:331-333 | the values of a map, listed in key order |
| DungeonStateModel.HasLiveEnemyMeansSome | server/rooms/states/DungeonState.ts:263-266 | the move is cancelled if and only if some entity on the tile is a live enemy |
| DungeonStateModel.StepsOf | server/rooms/states/DungeonState.ts:296 | the path without its first element, which is the starting tile |
| DungeonStateModel.DungeonState.constructor | server/rooms/states/DungeonState.ts:56-202 | the layout from the depth, daylight from the clock, the flattened grid, the FLOOR mask, and empty registries |
| DungeonStateModel.DungeonState.AddEntity | server/rooms/states/DungeonState.ts:204-210 | the entity is registered under its id; a new id goes last in key order |
| DungeonStateModel.DungeonState.RemoveEntity | server/rooms/states/DungeonState.ts:212-214 | the id leaves the registry and its key order; an unknown id changes nothing |
| DungeonStateModel.DungeonState.CreatePlayer | server/rooms/states/DungeonState.ts:216-240 | a dead hero entering the lobby has 1 hp; the start position when coming from above or the same depth, the end position otherwise; registered as an entity and a player |
| DungeonStateModel.DungeonState.RemovePlayer | server/rooms/states/DungeonState.ts:242-245 | the player leaves both registries |
| DungeonStateModel.DungeonState.DropItemFrom | server/rooms/states/DungeonState.ts:247-254 | the given item, else the random one, is placed on the unit's tile and registered; with neither nothing changes |
| DungeonStateModel.DungeonState.CreateTextEvent | server/rooms/states/DungeonState.ts:318-323 | a text entity with the given text, position, kind and lifetime is registered |
| DungeonStateModel.DungeonState.AddMessage | server/rooms/states/DungeonState.ts:314-316 | a chat message is a small text without kind or lifetime at the player's tile |
| DungeonStateModel.DungeonState.CheckOverlapingEntities | server/rooms/states/DungeonState.ts:256-283 | for a unit: cancelled if and only if a live enemy is there; exactly the items picked on the destination leave the registry; every interactive there is interacted with, in order |
| DungeonStateModel.DungeonState.Move | server/rooms/states/DungeonState.ts:285-312 | nothing when the swapped destination is the unit's tile; otherwise the path minus its start; with target change, the target is the live unit else any entity there, and the unit's attack rule is applied to it |
| DungeonStateModel.DungeonState.Update | server/rooms/states/DungeonState.ts:325-334 | no player means no unit or enemy changes at all; otherwise every entity, in key order, ends as `Ticked` says from its state before the tick: regenerated hp and clock, the position call its unit's update picks, an enemy's AI clock, and an enemy's move request carried out by `move` (`MovedAs`); every move comes from an enemy |
| DungeonStateModel.DungeonState.UpdateEntity | server/rooms/states/DungeonState.ts:332 | one entity's update: a unit's own update, or an enemy's update followed by `move` towards what it asked for (server/entities/Enemy.ts:54-56), as `Ticked` states against `BeforeTick` |
| DungeonStateModel.DungeonState.TickAt | server/rooms/states/DungeonState.ts:331-333 | one loop step: the entity at that key position is updated and every other entity keeps what `Ticked` or `BeforeTick` said of it |
| Doors.Label | client/elements/Door.js:45-69 | the door's text for its destiny code; `LabelEmptyIffUnknown`, `LabelNamesNeighbour` and `ForwardLabelsDistinct` pin it down |
| Doors.LabelEmptyIffUnknown | client/elements/Door.js:45-69 | a door's label is empty if and only if its destiny is not one of the four door codes |
| Doors.LabelNamesNeighbour | client/elements/Door.js:55-65 | forward and back name the neighbouring depths and read back as them; "continue" names the deepest |
| Doors.ForwardLabelsDistinct | client/elements/Door.js:55-56 | different depths get different forward labels |
| DungeonRoomModel.DungeonRoom.constructor | server/rooms/DungeonRoom.ts:14-21 | eight clients at most, a 5 s dispose timeout, and empty maps |
| DungeonRoomModel.InitialProgress | server/rooms/DungeonRoom.ts:26 | a missing or zero depth becomes 1, the lobby; `ProgressDefaultsToLobby` pins it down |
| DungeonRoomModel.DungeonRoom.OnInit | server/rooms/DungeonRoom.ts:23-61 | the depth defaults to 1; the lobby's fixed seed; the state for that depth; PvP only below the lobby and when asked; a 50 ms tick |
| DungeonRoomModel.DungeonRoom.RequestJoin | server/rooms/DungeonRoom.ts:68-76 | a request without a depth (or with depth 0) is accepted; a request naming a depth is accepted only by a room of that depth |
| DungeonRoomModel.JoinPicksOneDepth | server/rooms/DungeonRoom.ts:68-76 | two rooms of different depths never both accept the same depth, and a room accepts its own |
| DungeonRoomModel.DungeonRoom.OnJoin | server/rooms/DungeonRoom.ts:78-100 | the player is created and mapped; the hero moves to this room and depth; the write-back is `JoinUpdate` |
| DungeonRoomModel.JoinUpdate | server/rooms/DungeonRoom.ts:89-99 | what onJoin writes back for the hero; `JoinUpdateRecordsDeepest` pins it down |
| DungeonRoomModel.JoinUpdateRecordsDeepest | server/rooms/DungeonRoom.ts:89-99 | the depth is written exactly when it changes, and the deepest depth only when it grows |
| DungeonRoomModel.DungeonRoom.OnMessage | server/rooms/DungeonRoom.ts:102-152 | an unknown or dead player's message is ignored; `move` clears the player's target and then ends as `move` with target change allowed: unmoved (`Moved(false)`) exactly when the swapped destination is the player's own tile, otherwise the path's steps, the chosen target and the attack rule, with the registry unchanged; a checkpoint sends a `goto` to the resolved depth; a chat message adds a text at the player's tile; known player actions are left to the player |
| DungeonRoomModel.DungeonRoom.OnGoTo | server/rooms/DungeonRoom.ts:154-183 | nothing is sent for a player without a hero; otherwise one `goto` with the resolved depth and the room only when it is given and not empty |
| DungeonRoomModel.ResolvedProgress | server/rooms/DungeonRoom.ts:171-179 | onGoTo's destination depth for a door code; `DoorCodesResolve` and `ForwardThenBack` pin it down |
| DungeonRoomModel.DoorCodesResolve | server/rooms/DungeonRoom.ts:171-179 | forward and back step from the current depth, latest goes to the deepest, any other value passes through |
| DungeonRoomModel.ForwardThenBack | server/rooms/DungeonRoom.ts:171-175 | going forward then back returns to the same depth |
| DungeonRoomModel.DungeonRoom.OnLeave | server/rooms/DungeonRoom.ts:213-285 | a hero without an id changes nothing, and only the dispose timeouts, the three client maps and the state's registries are ever touched; otherwise the saved fields (level, attributes, points, gold, diamond, bars, both inventories, the equipment, progress and room), coordinates only below the lobby, the check point added only when there is one, the timeout choice, and the player removed everywhere, key orders included |
| DungeonRoomModel.DisposeTimeoutAfterLeave | server/rooms/DungeonRoom.ts:219-222 | onLeave's new dispose timeout; `DisposeTimeoutChoice` pins it down |
| DungeonRoomModel.DisposeTimeoutChoice | server/rooms/DungeonRoom.ts:219-222 | the timeout becomes 120 s after a death or in the lobby, and is kept otherwise |
| DungeonRoomModel.ProgressDefaultsToLobby | server/rooms/DungeonRoom.ts:26 | no depth, or depth 0, is the lobby |
| DungeonRoomModel.SimulationInterval | server/rooms/DungeonRoom.ts:11-60 | twenty ticks per second is a 50 ms interval |
| DungeonRoomModel.DungeonRoom.Tick | server/rooms/DungeonRoom.ts:287-291 | one state update at the clock's time: no unit changes without players, otherwise every entity ends as `Ticked` says |
| ItemRules.PotionTier | server/entities/items/consumable/Potion.ts:15-26 | the size is 1 up to 10, 2 up to 40, 3 up to 80, and 4 above |
| ItemRules.PotionTierMonotone | server/entities/items/consumable/Potion.ts:15-26 | the size never shrinks as the amount grows |
| ItemRules.PotionTypeByAttribute | server/entities/items/consumable/Potion.ts:12-58 | hp, mp and xp potions are typed by bar and size; every other attribute gives an elixir |
| ItemRules.PotionAddModifier | server/entities/items/consumable/Potion.ts:12-61 | the type follows the new modifier, which is appended; nothing else changes |
| ItemRules.AddAllTypeAndModifiers | server/entities/items/consumable/Potion.ts:12-64 | after several additions the type is the last modifier's, while `use` reads the first |
| ItemRules.KeyNamesDistinct | server/entities/items/consumable/Potion.ts:77 | the text names each attribute by a different key |
| ItemRules.PotionUse | server/entities/items/consumable/Potion.ts:63-81 | only the first modifier counts; hp and mp bars grow by it, xp through its level-up rule, other attributes not at all; one text event and the potion sound; always used |
| ItemRules.ConsumableUse | server/entities/items/ConsumableItem.ts:6 | used if and only if forced |
| ItemRules.Pick | server/entities/items/ConsumableItem.ts:8-23 | the quick inventory when it has room, else the bag; success if and only if one has room; the item is added to exactly one, or nothing changes |
| ItemRules.ConsumablePick | server/entities/items/ConsumableItem.ts:8-23 | the player's inventories change as `Pick` says; the pick sound plays exactly on success |
| ItemRules.PickTwice | server/entities/items/ConsumableItem.ts:11-12 | two picks into a quick inventory with room keep both items, in pick order, and leave the bag alone |
| ItemRules.PickIntoFullInventories | server/entities/items/ConsumableItem.ts:9-22 | when both inventories are full the pick fails and changes nothing |
| Skills.SpeedBoost | server/entities/skills/MovementSpeedSkill.ts:14 | the boost is at most 20, at least 0 for non-negative agility, and half the agility rounded down below the cap |
| Skills.Boosted | server/entities/skills/MovementSpeedSkill.ts:15 | only the movement-speed entry changes, by exactly the delta |
| Skills.MovementSpeedSkill.constructor | server/entities/skills/MovementSpeedSkill.ts:5-9 | name, 10 mana, 2000 ms, and no recorded boost |
| Skills.MovementSpeedSkill.Activate | server/entities/skills/MovementSpeedSkill.ts:11-16 | records the boost for the current agility and adds it to the movement-speed entry |
| Skills.MovementSpeedSkill.Deactivate | server/entities/skills/MovementSpeedSkill.ts:18-22 | subtracts the recorded boost |
| Skills.BoostRoundTrip | server/entities/skills/MovementSpeedSkill.ts:15-21 | taking back the boost given restores the boost map |
| Skills.DeactivateUsesRecordedBoost | server/entities/skills/MovementSpeedSkill.ts:11-22 | activation then deactivation restores the boosts even if agility changed in between; recomputing the boost would not |
| TileRules.Classify | client/game/level/Factory.js:186-194 | ground if and only if FLOOR; wall if and only if WALL but not FLOOR or CORNER; nothing otherwise |
| TileRules.AddTile | client/game/level/Factory.js:182-266 | a tile reaches the ground group if and only if it has the FLOOR bit, once, at its own (x, y) with the map's ground resource |
| TileRules.CellTile | client/game/level/Factory.js:170-178 | an EMPTY cell draws nothing; a cell reaches the ground group if and only if it is a shown floor |
| TileRules.ConnectorsAreNotFloors | client/game/level/Factory.js:215-238 | connector requests never carry FLOOR, so the recursion stops |
| TileRules.ConnectorsArePlainWalls | client/game/level/Factory.js:215-238 | each connector request is a plain wall leaning on the direction it names |
| TileRules.ConnectorFlags | client/game/level/Factory.js:240-261 | the four connector flag sets are plain walls leaning on north, south, east and west |
| TileRules.PlainWall | client/game/level/Factory.js:240-264 | a plain wall pushes exactly its one wall mesh |
| TileRules.FourConnectorWalls | client/game/level/Factory.js:215-219 | four plain-wall requests push their four walls in call order |
| TileRules.ConnectorExpansion | client/game/level/Factory.js:215-238 | a connected floor adds exactly four walls, at its tile and the neighbour its first direction names |
| TileRules.TileKindsAndGroups | client/game/level/Factory.js:186-264 | a plain wall pushes only its wall mesh; corner walls and tiles of no kind push nothing; every wall mesh uses the map's wall resource |
| LevelFactory.CellAt | client/game/level/Factory.js:43-44 | inside the grid the cell's tile, outside it `undefined` with no flag |
| LevelFactory.DoorWall | client/game/level/Factory.js:42-52 | the wall a door stands in; `DoorWallChoice` pins down its three cases |
| LevelFactory.DoorWallChoice | client/game/level/Factory.js:42-52 | the north wall if it is a north wall, else the west wall if it is a west wall, else none |
| LevelFactory.ElementKinds | client/game/level/Factory.js:34-98 | only players become characters, with a life bar only for other players; every unnamed type is an item |
| LevelFactory.Factory.constructor | client/game/level/Factory.js:22-28 | the level's width, depth, kind and client id, with empty groups |
| LevelFactory.Factory.SetGrid | client/game/level/Factory.js:30-32 | the grid is replaced |
| LevelFactory.Factory.CreateEntity | client/game/level/Factory.js:34-162 | one element of the kind the switch picks, recording its data, added to the level |
| LevelFactory.Factory.AddTile | client/game/level/Factory.js:182-266 | ground and wall grow by what `TileRules.AddTile` pushes, in the recursive call order |
| LevelFactory.Factory.AddConnectors | client/game/level/Factory.js:215-238 | the four wall requests of the floor's first connection reach the wall group |
| LevelFactory.Factory.AddWalls | client/game/level/Factory.js:215-237 | four plain-wall requests push their walls in order |
| LevelFactory.Factory.CreateTiles | client/game/level/Factory.js:164-180 | every non-EMPTY cell, in index order, decoded to column and row, is drawn |
| LevelFactory.Factory.Cleanup | client/game/level/Factory.js:289-298 | both groups end up empty |
| LevelFactory.Factory.GetTileAt | client/game/level/Factory.js:278-287 | getTileAt called with a point: the first floor tile at the point's column and row; `FirstGroundAt`'s lemmas and `ClientFindsServerFloor` say which tile that is |
| LevelFactory.FirstGroundAt | client/game/level/Factory.js:278-287 | a ground tile of the group whose coordinates are (y, x), or none when no tile has them |
| LevelFactory.FirstGroundAtAppend | client/game/level/Factory.js:285 | the first matching tile of two groups is the first group's, else the second's |
| LevelFactory.FirstGroundAtCell | client/game/level/Factory.js:174-178 | one drawn cell is found at (x, y) exactly when it is a shown floor at that place |
| LevelFactory.CellDecodes | client/game/level/Factory.js:174-175 | index `i` decodes to column `x` and row `y` if and only if `i == x + width * y` with `x` a column |
| LevelFactory.DecodedFloorFound | client/game/level/Factory.js:164-180 | after drawing the first `n` cells, the floor found at (x, y) is exactly the one of cell `x + width * y`, if it is drawn |
| LevelFactory.ClientFindsServerFloor | client/game/level/Factory.js:164-180 | on the server's flattened grid, the floor at (x, y) is found exactly when the generated grid has a shown floor there |
| LevelGenerator.HandledTypes | app/js/game/level/Generator.js:31-56 | only doors, enemies, players and light poles are built; a player gets a life bar only when it is not this client |
| LevelGenerator.LevelGenerator.constructor | app/js/game/level/Generator.js:17-25 | the client id, and empty grid and groups |
| LevelGenerator.LevelGenerator.SetGrid | app/js/game/level/Generator.js:27-29 | the grid is replaced |
| LevelGenerator.LevelGenerator.AddTile | app/js/game/level/Generator.js:82-164 | ground and wall grow by what `TileRules.AddTile` pushes |
| LevelGenerator.LevelGenerator.AddConnectors | app/js/game/level/Generator.js:114-137 | the four wall requests of the floor's first connection reach the wall group |
| LevelGenerator.LevelGenerator.AddWalls | app/js/game/level/Generator.js:114-136 | four plain-wall requests push their walls in order |
| LevelGenerator.LevelGenerator.CreateTiles | app/js/game/level/Generator.js:64-80 | every column, each `grid[0].length` cells long, is drawn in order |
| LevelGenerator.LevelGenerator.CreateColumn | app/js/game/level/Generator.js:69-78 | the inner loop draws the column's cells in order, skipping EMPTY ones |
| LevelGenerator.ColumnFloor | app/js/game/level/Generator.js:69-78 | a column yields the floor of row `y` if and only if its cell there is a shown floor below the row limit |
| LevelGenerator.GridFloor | app/js/game/level/Generator.js:64-80 | every shown floor in range becomes a floor tile at its own (x, y), and nothing else does |
| SelectBoxes.SelectBox.constructor | app/js/hud/controls/SelectBox.js:7-12 | nothing selected (-1) and the placeholder shown |
| SelectBoxes.SelectBox.OnLeft | app/js/hud/controls/SelectBox.js:46-51 | the index becomes `Previous` of the old one, inside the list; the option is shown and its value reported |
| SelectBoxes.SelectBox.OnRight | app/js/hud/controls/SelectBox.js:53-57 | the index becomes `Next` of the old one, inside the list; the option is shown and its value reported |
| SelectBoxes.SelectBox.OnChange | app/js/hud/controls/SelectBox.js:59-73 | a string option is shown and reported as itself, a pair by its text and value |
| SelectBoxes.Previous | app/js/hud/controls/SelectBox.js:46-48 | onLeft's new index, with JavaScript's `%`; `FirstPress`, `StaysInRange` and `LeftRightUndo` pin it down |
| SelectBoxes.Next | app/js/hud/controls/SelectBox.js:53-54 | onRight's new index, with JavaScript's `%`; `FirstPress`, `StaysInRange`, `LeftRightUndo`, `RightPresses` and `FullCycle` pin it down |
| SelectBoxes.FirstPress | app/js/hud/controls/SelectBox.js:46-57 | from nothing selected, right selects the first option and left the last |
| SelectBoxes.StaysInRange | app/js/hud/controls/SelectBox.js:46-57 | both buttons stay inside the list and wrap at either end |
| SelectBoxes.LeftRightUndo | app/js/hud/controls/SelectBox.js:46-57 | left then right, and right then left, return to the same option |
| SelectBoxes.RightPresses | app/js/hud/controls/SelectBox.js:53-57 | `k` right presses land `k` places on, modulo the list's length |
| SelectBoxes.FullCycle | app/js/hud/controls/SelectBox.js:53-57 | going round the whole list returns to the start |
| ItemSlots.DragState.constructor | client/elements/inventory/ItemSlot.js:1-2 | nothing is being dragged, from nowhere |
| ItemSlots.ItemSlot.constructor | client/elements/inventory/ItemSlot.js:7-39 | an empty slot with its accepted type |
| ItemSlots.ItemSlot.SetItem | client/elements/inventory/ItemSlot.js:64-91 | after setting, the slot holds exactly the item given, or nothing |
| ItemSlots.ItemSlot.OnDragStart | client/elements/inventory/ItemSlot.js:105-133 | an occupied slot hands its item to the drag and empties; an empty slot changes nothing; no item is ever in two places |
| ItemSlots.ItemSlot.OnDragEnd | client/elements/inventory/ItemSlot.js:135-157 | an empty slot takes the dragged item and the drag ends; an occupied slot changes nothing; where the drag started is kept |
| ItemSlots.DragAndDrop | client/elements/inventory/ItemSlot.js:105-157 | start then end moves the item to the target, empties the source, and never duplicates the item |
| SlotStrips.ColumnsOption | app/js/hud/inventory/SlotStrip.js:10 | a positive column count is kept; whatever is given, the count used is positive |
| SlotStrips.Resources | app/js/hud/inventory/SlotStrip.js:39 | each item type is shown by its `items-` element, in order |
| SlotStrips.SlotStrip.constructor | app/js/hud/inventory/SlotStrip.js:6-18 | the column default, no last items, and slots built only for a positive slot count |
| SlotStrips.SlotStrip.SetNumSlots | app/js/hud/inventory/SlotStrip.js:46-50 | records the count and rebuilds the slots; an empty strip is not built |
| SlotStrips.SlotStrip.UpdateChildren | app/js/hud/inventory/SlotStrip.js:52-88 | the slots become the layout for the count |
| SlotStrips.LayoutPlaces | app/js/hud/inventory/SlotStrip.js:60-84 | slot `i` is at column `i % columns` and row `i / columns`; one delete slot last exactly when removal is allowed; all empty |
| SlotStrips.PlacesDistinct | app/js/hud/inventory/SlotStrip.js:60-84 | no two grid slots share a place |
| SlotStrips.SlotStrip.ClearItems | app/js/hud/inventory/SlotStrip.js:20-27 | every slot is emptied and keeps its place |
| SlotStrips.SlotStrip.UpdateItems | app/js/hud/inventory/SlotStrip.js:29-44 | the same items object changes nothing; other items are filled in, slot `k` holding the `k`-th, and remembered |
| SlotStrips.FilledShowsItems | app/js/hud/inventory/SlotStrip.js:35-41 | after filling, the strip shows exactly the items, in key order |
| SlotStrips.FillKeepsPlaces | app/js/hud/inventory/SlotStrip.js:35-43 | filling keeps every slot's kind and place, and filling again with the same items changes nothing |
| BattleFeedback.Feedback | app/js/behaviors/BattleBehaviour.js:37-54 | "miss" as a warning for a miss, otherwise "-" and the damage, which reads back; 100 ms; critical flag and position kept |
| BattleFeedback.FeedbackDistinguishes | app/js/behaviors/BattleBehaviour.js:37-54 | a miss never reads like a hit, and two hits read the same exactly for the same damage |
| BattleFeedback.BattleBehaviour.constructor | app/js/behaviors/BattleBehaviour.js:6-17 | not toggled, not attacking, no defender |
| BattleFeedback.BattleBehaviour.Disable | app/js/behaviors/BattleBehaviour.js:19-22 | attacking and toggling stop |
| BattleFeedback.BattleBehaviour.ToggleTimeout | app/js/behaviors/BattleBehaviour.js:26 | the scheduled callback turns the toggle off |
| BattleFeedback.BattleBehaviour.OnAttack | app/js/behaviors/BattleBehaviour.js:24-55 | no attack type disables, with no text; otherwise one feedback text, the defender looked up only when not already attacking |
| BattleFeedback.BattleBehaviour.OnAttackStart | app/js/behaviors/BattleBehaviour.js:57-63 | starts exactly when not attacking; a second call changes nothing |
| BattleFeedback.BattleBehaviour.OnDetach | app/js/behaviors/BattleBehaviour.js:76-78 | attacking and toggling are off |
| CharacterPanel.Texts | client/elements/hud/Character.js:284-320 | the texts update writes; `AttributeTextReadsBack`, `DamageTextShowsRoll` and `FixedTenthsReadsBack` show what they read back as |
| CharacterPanel.LevelUpButtons | client/elements/hud/Character.js:358-389 | no player keeps the buttons; the main button shows if and only if there are points and the inventory is closed, the attribute buttons if and only if there are points and it is open |
| CharacterPanel.OneKindOfButton | client/elements/hud/Character.js:358-389 | with no points nothing shows; with points exactly one kind of button does |
| CharacterPanel.AttributeTextReadsBack | client/elements/hud/Character.js:306-317 | an attribute's text reads back as its base value, followed by `+` and the bonus exactly when the bonus is not zero |
| CharacterPanel.NoPlusSign | client/elements/hud/Character.js:307-317 | a rendered number never contains `+`, so the bonus suffix is unambiguous |
| CharacterPanel.DamageTextShowsRoll | client/elements/hud/Character.js:297-301 | the damage text shows the server's damage bounds: one number without a damage bonus, `low-high` with one (for a non-negative low bound) |
| CharacterPanel.FixedTenthsReadsBack | client/elements/hud/Character.js:293-304 | `toFixed(1)` of a whole number of tenths reads back as sign, whole part, point and tenths digit |
| CharacterPanel.FixedTenthsInjective | client/elements/hud/Character.js:293-304 | different numbers of tenths render differently |
| CharacterPanel.Character.constructor | client/elements/hud/Character.js:13-215 | the initial texts and the buttons as created |
| CharacterPanel.Character.Update | client/elements/hud/Character.js:236-321 | no data changes nothing; otherwise every text follows from the data and the equipment sums, and the buttons are updated |
| CharacterPanel.Character.UpdateLevelUpButtons | client/elements/hud/Character.js:358-389 | the buttons become `LevelUpButtons` of the player and the inventory state |
| CharacterPanel.Character.OnIncreaseAttribute | client/elements/hud/Character.js:331-336 | one point-distribution request for the attribute is recorded |

## Left out

- Rendering, meshes, sprites, tweens, lights, HTML hints and the 3-D world coordinates (`fixTilePosition`, rotations, offsets). These are scene state, not logic. A wall mesh keeps only the side it leans on.
- The `Door` element's constructor and mouse handlers, and the panel's `onLevelUpClick`. They only build the scene or toggle the HUD, which is not part of this model.
- `humanize` of the map kind in the panel's stairs text. It is a library call, so the humanized label is a parameter.
- The initial visibility of the `LevelUpButton`s. It is set by code that is not shown, so it is a constructor parameter.
- Randomness: the damage roll is any value between its bounds; the random drop item, the random initial facing and the loot daylight coin flip are parameters.
- The clock: `Date.now()`, the server minutes, and the `setTimeout` callbacks are parameters or separate methods (`ToggleTimeout`).
- The database and network: `Hero.updateOne`, `Season`, `onAuth`, `send` and `broadcast`. What the room would write (`SavedHero`, `JoinUpdate`) or send (the outbox) is returned or recorded instead. The player's `gold`, `diamond` and `checkPoint` are fields of `Player.ts`, which is not part of this model, so `OnLeave` takes them as parameters (0 for a missing one).
- The serialisation of inventory and equipment slots (`slot.toJSON()`). `SavedHero` holds the items and the equipped slots themselves.
- The loot room's extra dispose time from its last portal. It needs the clock and the portal entities, which are not part of this model.
- The path-finder, shared/Dungeon's generator, GridUtils and RoomUtils. Their answers are parameters: the path, the generated grid, the start and end positions, and the entities on a tile.
- The room utilities' populating of entities at state creation. Registries start empty.
- Every entity's own `update` other than units and enemies, and `Player.ts`'s handlers for inventory, casting and point distribution. `OnMessage` reports that the player handles them.
- `getArmor`, `getEvasion` and `getCriticalStrikeChance`. They are float-only and the shown code never reads them.
- Floating-point rounding. Bars are exact reals, and `ceil(0.3 * w)` and `ceil(0.4 * w)` are exact integer ceilings.
- Concurrency: `async` waits in the room run as straight-line code.
- `UnitModel.Unit.constructor`, `EnemyModel.Enemy.constructor`, `DungeonStateModel.DungeonState.CreatePlayer` and `DungeonRoomModel.DungeonRoom.OnJoin` require that every equipped modifier names a known key. A modifier with any other key would make the source add to `undefined`.
- `CharacterPanel.Character.Update` requires the same known keys. The client's modifier object has no `xp` or `aiDistance` entry, so equipment naming them would produce NaN there.
- `SelectBoxes.SelectBox.OnLeft` and `SelectBoxes.SelectBox.OnRight` require a non-empty option list. With no options the source computes `% 0`, giving NaN.
- `SelectBoxes.SelectBox.OnChange` requires a selected option. The source reads `options[-1]` otherwise.
- `ItemRules.PotionUse` requires at least one modifier. The source reads `modifiers[0]` without a check.
- `Skills.MovementSpeedSkill.Deactivate` requires an earlier activation. Before one, the source subtracts `undefined`.
- `SlotStrips.SlotStrip.UpdateItems` requires no more items than slots. The source writes to a missing slot otherwise and throws.
- `SlotStrips.SlotStrip.SetNumSlots`: a count of 0 gives an empty strip with `built` false. The source throws there, because `slot` is still null after the slot loop: with `allowRemove` on the delete slot's placement (app/js/hud/inventory/SlotStrip.js:73-79), and without it on the strip's width (app/js/hud/inventory/SlotStrip.js:86).
- `SlotStrips.ColumnsOption` takes only non-negative column counts. A negative count is not modelled.
- `UnitModel.Unit.OnDie` requires every contributor's level to be at least 1. The source would divide by zero.
- `LegacyUnitModel.LegacyUnit.OnKill` requires a non-zero killer level. The source divides by it.
- `DungeonRoomModel.DungeonRoom.OnLeave` requires the client to have a hero and a player. The source throws on `hero._id` otherwise.
- `LevelFactory.Factory.CreateTiles` requires a positive map width. With width 0 the source decodes every cell to NaN.
- `LevelGenerator.LevelGenerator.CreateTiles` requires a non-empty grid. The source reads `grid[0].length`.
- `LevelGenerator.createEntity` is the function `ElementFor`. For any type other than the four it handles, the source dereferences a null element; the model answers `None`.
- `Bars.Bar.Set` and the bar increments are stand-ins. `server/core/Bar` is not part of this model; the cap at the maximum and the level-up listener at the maximum are what the shown code relies on.
- `UnitModel.Inventory.Set` is a stand-in. `server/core/Inventory` is not part of this model; `set` is read as replacing the items and keeping the capacity.
- `Skills.MovementSpeedSkill.Activate` and `Skills.MovementSpeedSkill.Deactivate` leave out the calls to the base skill's `super.activate` and `super.deactivate`. The base `Skill` class is not part of this model.
- `UnitModel.Inventory.Add` is a stand-in. `server/core/Inventory` is not part of this model; the shown code relies on appending and on the capacity.
- Bars.Rescaled: with an old maximum of 0 it keeps the current value. The source computes `0 / 0`, which is NaN, and sets the current value to NaN (server/entities/Unit.ts:174-180). A fresh unit's mp bar has maximum 0, so the constructor's first rescale hits this case; the constructor then overwrites mp with the hero's saved value. NaN bars are not modelled. Likewise, a hero with positive hp and no saved mp gets `mp.current == 0.0`, where the source assigns `hero.mp`, which is `undefined` there (server/entities/Unit.ts:137).
- UnitModel.Unit.constructor: `pointsToDistribute` starts at 0. The source declares it without a value (server/entities/Unit.ts:62), so it is `undefined` until `Player.ts` assigns it. `Player.ts` is not part of this model. For enemies, where it stays undefined, the Findings row models the value as written.
- DungeonStateModel.DungeonState.Update and DungeonRoomModel.DungeonRoom.Tick require that no unit is registered under two ids (`OnceEach`). The source would then update that unit twice in one tick; the model does not state the result of that.
- DungeonStateModel.DungeonState.Update does not restate which player an enemy chases. `EnemyModel.Enemy.Update` states that. It also does not restate the action a moving enemy ends with when `move` picks a new target; `DungeonStateModel.DungeonState.Move` states that.
- DungeonStateModel.DungeonState.Update reads the path-finder and the grid utilities (`finder`, `liveUnitAt`, `anyAt`) as fixed for the whole tick. An earlier entity's move within a tick cannot change what a later one sees.
- `LevelFactory.Factory.GetTileAt` takes a point. The source also accepts two numbers, `getTileAt(x, y)`, but then `'x' in x` throws a TypeError (client/game/level/Factory.js:280), so only the point form reaches the lookup. The two-number form is not modelled.
- `DungeonStateModel.DungeonState.Move` returns true after a move. The source's `move` returns `false` on its early exit, as the model does, but `undefined` after a move (server/rooms/states/DungeonState.ts:284-311). Both are falsy in JavaScript; the model does not keep that.
- Default arguments are required parameters. This covers the select box's placeholder `"[none]"` (app/js/hud/controls/SelectBox.js:7) and `createTiles`'s map kind `'grass'` (client/game/level/Factory.js:164).

## Findings

| source | as written | input that shows it | evidently intended | confidence | as-written member | corrected member |
|---|---|---|---|---|---|---|
| server/entities/Enemy.ts:69 | `pointsToDistribute` is declared without a value (server/entities/Unit.ts:62) and never assigned for an enemy. `+= 2` on level-up (Unit.ts:383) leaves NaN, `NaN > 0` is false, and the loop spends nothing. | A fresh enemy of any level reaching its xp maximum: its primary attribute stays the same | The enemy spends its two new points on its primary attribute, as the loop is written to do | not executed | UnitRules.EnemyLevelUpAsWritten | UnitRules.EnemyLevelUpSpendsPoints |
