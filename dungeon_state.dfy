/**
 * server/rooms/states/DungeonState.ts: the state of one dungeon room, with
 * its flattened grid, the entity and player registries, movement requests
 * and overlap resolution.
 */
module DungeonStateModel {
  import opened Common
  import opened Tiles
  import opened Stats
  import opened UnitRules
  import opened UnitModel
  import opened EnemyModel
  import Progression
  import opened DungeonLayout

  /** The kinds of entity the shown code tells apart, each with the identity and position it reads. */
  datatype Entity =
    | UnitEntity(unit: Unit)
    | EnemyEntity(enemy: Enemy)
    | ItemEntity(item: Item)
    | InteractiveEntity(interactiveId: string, at: Point)
    | TextEventEntity(textId: string, text: string, textAt: Point, kind: Option<string>, ttl: Option<int>, small: bool)
  {
    function Id(): string
    {
      match this
      case UnitEntity(u) => u.id
      case EnemyEntity(e) => e.unit.id
      case ItemEntity(item) => item.id
      case InteractiveEntity(id, _) => id
      case TextEventEntity(id, _, _, _, _, _) => id
    }

    /** The entity as a Unit (`instanceof Unit`, which enemies are too), or null. */
    function AsUnit(): (u: Unit?)
      ensures u != null <==> UnitEntity? || EnemyEntity?
    {
      match this
      case UnitEntity(u) => u
      case EnemyEntity(e) => e.unit
      case _ => null
    }
  }

  // ------------------------------------------------------------- registries

  /** `order` lists the keys of `m` once each: the key order a JavaScript object keeps. */
  predicate Indexes<T>(m: map<string, T>, order: seq<string>)
  {
    NoDuplicates(order) &&
    (forall i :: 0 <= i < |order| ==> order[i] in m) &&
    (forall id :: id in m ==> id in order)
  }

  /** Assigning a key: a new key goes last, an existing one keeps its place. */
  function Appended(order: seq<string>, id: string): seq<string>
  {
    if id in order then order else order + [id]
  }

  /** The keys of `order` not in `ids`, in their order. */
  function Without(order: seq<string>, ids: set<string>): (r: seq<string>)
    ensures |r| <= |order|
  {
    if order == [] then []
    else if order[0] in ids then Without(order[1..], ids)
    else [order[0]] + Without(order[1..], ids)
  }

  /** `Without` keeps exactly the keys not removed, each still once. */
  lemma {:induction false} WithoutMembers(order: seq<string>, ids: set<string>)
    ensures forall id :: id in Without(order, ids) <==> id in order && id !in ids
    ensures NoDuplicates(order) ==> NoDuplicates(Without(order, ids))
  {
    if order != [] {
      WithoutMembers(order[1..], ids);
      assert forall id :: id in order[1..] ==> id in order;
      assert forall id :: id in order ==> id == order[0] || id in order[1..];
      if NoDuplicates(order) {
        assert order[0] !in order[1..];
      }
    }
  }

  /** The values of `m` in key order. */
  function ValuesInOrder<T>(m: map<string, T>, order: seq<string>): (r: seq<T>)
    requires forall i :: 0 <= i < |order| ==> order[i] in m
    ensures |r| == |order| && forall i :: 0 <= i < |order| ==> r[i] == m[order[i]]
  {
    if order == [] then [] else [m[order[0]]] + ValuesInOrder(m, order[1..])
  }

  lemma AppendedIndexes<T>(m: map<string, T>, order: seq<string>, id: string, v: T)
    requires Indexes(m, order)
    ensures Indexes(m[id := v], Appended(order, id))
  {
  }

  lemma WithoutIndexes<T>(m: map<string, T>, order: seq<string>, ids: set<string>)
    requires Indexes(m, order)
    ensures Indexes(m - ids, Without(order, ids))
  {
    WithoutMembers(order, ids);
    var r := Without(order, ids);
    forall i | 0 <= i < |r|
      ensures r[i] in m - ids
    {
      assert r[i] in r;
    }
  }

  /** Removing keys in two steps is removing them together. */
  lemma {:induction false} WithoutTwice(order: seq<string>, a: set<string>, b: set<string>)
    ensures Without(Without(order, a), b) == Without(order, a + b)
  {
    if order != [] {
      WithoutTwice(order[1..], a, b);
    }
  }

  lemma MapWithoutTwice<T>(m: map<string, T>, a: set<string>, b: set<string>)
    ensures (m - a) - b == m - (a + b)
  {
    assert ((m - a) - b).Keys == (m - (a + b)).Keys;
  }

  /** Adding an entity under a fresh id and removing that id gives the registry back. */
  lemma {:induction false} AddThenRemove<T>(m: map<string, T>, order: seq<string>, id: string, v: T)
    requires Indexes(m, order) && id !in m
    ensures m[id := v] - {id} == m
    ensures Without(Appended(order, id), {id}) == order
  {
    assert id !in order;
    WithoutAbsent(order, {id});
    WithoutAppend(order, [id], {id});
  }

  lemma {:induction false} WithoutAbsent(order: seq<string>, ids: set<string>)
    requires forall i :: 0 <= i < |order| ==> order[i] !in ids
    ensures Without(order, ids) == order
  {
    if order != [] {
      WithoutAbsent(order[1..], ids);
    }
  }

  lemma {:induction false} WithoutAppend(a: seq<string>, b: seq<string>, ids: set<string>)
    ensures Without(a + b, ids) == Without(a, ids) + Without(b, ids)
  {
    if a == [] {
      assert a + b == b;
    } else {
      assert (a + b)[0] == a[0];
      assert (a + b)[1..] == a[1..] + b;
      WithoutAppend(a[1..], b, ids);
    }
  }

  // ------------------------------------------------------- overlap and move

  predicate IsLiveEnemy(e: Entity)
    reads if e.EnemyEntity? then {e.enemy.unit} else {}
  {
    e.EnemyEntity? && e.enemy.unit.IsAlive()
  }

  /** Some entity in `here` is a live enemy. */
  predicate HasLiveEnemy(here: seq<Entity>)
    reads set j | 0 <= j < |here| && here[j].EnemyEntity? :: here[j].enemy.unit
  {
    if here == [] then false
    else HasLiveEnemy(here[..|here| - 1]) || IsLiveEnemy(here[|here| - 1])
  }

  /** The move is cancelled exactly when some listed entity is a live enemy. */
  lemma {:induction false} HasLiveEnemyMeansSome(here: seq<Entity>)
    ensures HasLiveEnemy(here) <==> exists j :: 0 <= j < |here| && IsLiveEnemy(here[j])
  {
    if here != [] {
      var init := here[..|here| - 1];
      HasLiveEnemyMeansSome(init);
      assert forall j :: 0 <= j < |init| ==> init[j] == here[j];
    }
  }

  /** The items on the destination tile whose `pick` succeeds: they leave the registry. */
  function PickedAt(here: seq<Entity>, destiny: Point, pick: Item -> bool): set<string>
  {
    if here == [] then {}
    else
      var e := here[|here| - 1];
      PickedAt(here[..|here| - 1], destiny, pick) +
        (if e.ItemEntity? && e.item.position == destiny && pick(e.item) then {e.item.id} else {})
  }

  /** The interactive entities on the destination tile, in order: each gets `interact` called. */
  function InteractedAt(here: seq<Entity>, destiny: Point): seq<string>
  {
    if here == [] then []
    else
      var e := here[|here| - 1];
      InteractedAt(here[..|here| - 1], destiny) +
        (if e.InteractiveEntity? && e.at == destiny then [e.interactiveId] else [])
  }

  /** `move`'s early return: the destination, read with x and y exchanged, is the unit's own tile. */
  predicate IsOwnTileSwapped(destiny: Point, at: Movement)
  {
    destiny.x == at.y && destiny.y == at.x
  }

  /** The path-finder's path without its first element, the starting tile (`moves.shift()`). */
  function StepsOf(path: seq<Point>): (r: seq<Point>)
    ensures |path| > 0 ==> path == [path[0]] + r
    ensures |path| == 0 ==> r == []
  {
    if |path| > 0 then path[1..] else []
  }

  /** The target `move` picks: the live unit on the tile, else any entity there. */
  function ChosenTarget(liveUnitAt: Option<Entity>, anyAt: Option<Entity>): Option<Entity>
  {
    if liveUnitAt.Some? then liveUnitAt else anyAt
  }

  class DungeonState {
    const progress: int
    const difficulty: int
    const daylight: bool
    const mapkind: Progression.MapKind
    const width: int
    const height: int
    const grid: seq<Tile>
    const pathgrid: seq<seq<int>>
    const startPosition: Point
    const endPosition: Point

    /** Not declared by the state class; the room sets it (server/rooms/DungeonRoom.ts). */
    var isPVPAllowed: bool
    var entities: map<string, Entity>
    var order: seq<string>
    var players: map<string, Unit>
    var playerOrder: seq<string>

    predicate Valid()
      reads this
    {
      Indexes(entities, order) && Indexes(players, playerOrder)
    }

    /**
     * The constructor: the layout from the depth, the generated grid (the
     * dungeon generator is not part of this model, so its output is the
     * parameter `generated`) flattened row-major, and the FLOOR-bit path
     * mask. Daylight follows the server clock (`serverMinutes >= 30`). The
     * start and end positions are the room utilities' choice. The entities
     * the room utilities populate are not part of this model, so the
     * registries start empty.
     */
    constructor (progress: int, difficulty: int, serverMinutes: int, generated: seq<seq<Tile>>,
                 startPosition: Point, endPosition: Point)
      requires LayoutFor(progress).width >= 0 && LayoutFor(progress).height >= 0
      requires Covers(generated, LayoutFor(progress).width, LayoutFor(progress).height)
      ensures Valid()
      ensures this.progress == progress && this.difficulty == difficulty
      ensures daylight == (serverMinutes >= 30)
      ensures mapkind == LayoutFor(progress).mapkind
      ensures width == LayoutFor(progress).width && height == LayoutFor(progress).height
      ensures grid == Flattened(generated, width, height)
      ensures pathgrid == PathGrid(generated)
      ensures this.startPosition == startPosition && this.endPosition == endPosition
      ensures entities == map[] && order == [] && players == map[] && playerOrder == [] && !isPVPAllowed
    {
      this.progress := progress;
      this.difficulty := difficulty;
      daylight := serverMinutes >= 30;
      var layout := LayoutFor(progress);
      mapkind := layout.mapkind;
      width := layout.width;
      height := layout.height;
      var flat := FlattenGrid(generated, layout.width, layout.height);
      grid := flat[..];

      pathgrid := PathGrid(generated);
      this.startPosition := startPosition;
      this.endPosition := endPosition;
      isPVPAllowed := false;
      entities := map[];
      order := [];
      players := map[];
      playerOrder := [];
    }

    /** addEntity: register under the entity's id. */
    method AddEntity(e: Entity)
      requires Valid()
      modifies this`entities, this`order
      ensures Valid()
      ensures entities == old(entities)[e.Id() := e]
      ensures order == Appended(old(order), e.Id())
    {
      AppendedIndexes(entities, order, e.Id(), e);
      entities := entities[e.Id() := e];
      order := Appended(order, e.Id());
    }

    /** removeEntity: `delete entities[id]`, a no-op for an unknown id. */
    method RemoveEntity(id: string)
      requires Valid()
      modifies this`entities, this`order
      ensures Valid()
      ensures entities == old(entities) - {id}
      ensures order == Without(old(order), {id})
    {
      WithoutIndexes(entities, order, {id});
      entities := entities - {id};
      order := Without(order, {id});
    }

    /**
     * createPlayer: a hero dead on arrival in the lobby comes back with 1 hp;
     * the player starts at the start position when the hero's current depth
     * is not beyond this room's, else at the end position, and is registered
     * as an entity and as a player. Player.ts is not part of this model: the
     * player is a player-kind unit built from the hero.
     */
    method CreatePlayer(clientId: string, hero: HeroData, currentProgress: int, facing: Facing) returns (player: Unit)
      requires Valid() && KnownModifiers(hero.equipedItems)
      modifies this`entities, this`order, this`players, this`playerOrder
      ensures Valid() && fresh(player)
      ensures player.id == clientId && player.kind == PlayerUnit && player.hasState
      ensures var at := if currentProgress <= progress then startPosition else endPosition;
        player.position == Movement(at.x, at.y, None, [])
      ensures hero.hp.Some? && hero.hp.value <= 0.0 && progress == 1 ==> player.hp.current == 1.0
      ensures entities == old(entities)[clientId := UnitEntity(player)] && order == Appended(old(order), clientId)
      ensures players == old(players)[clientId := player] && playerOrder == Appended(old(playerOrder), clientId)
    {
      var h := hero;
      if hero.hp.Some? && hero.hp.value <= 0.0 && progress == 1 {
        h := hero.(hp := Some(1.0));
      }
      var at := if currentProgress <= progress then startPosition else endPosition;
      player := new Unit(clientId, PlayerUnit, h, facing, at);
      player.hasState := true;
      AddEntity(UnitEntity(player));
      AppendedIndexes(players, playerOrder, clientId, player);
      players := players[clientId := player];
      playerOrder := Appended(playerOrder, clientId);
    }

    /** removePlayer: out of both registries. */
    method RemovePlayer(player: Unit)
      requires Valid()
      modifies this`entities, this`order, this`players, this`playerOrder
      ensures Valid()
      ensures players == old(players) - {player.id} && playerOrder == Without(old(playerOrder), {player.id})
      ensures entities == old(entities) - {player.id} && order == Without(old(order), {player.id})
    {
      WithoutIndexes(players, playerOrder, {player.id});
      players := players - {player.id};
      playerOrder := Without(playerOrder, {player.id});
      RemoveEntity(player.id);
    }

    /** dropItemFrom: the given item, else a random one (`randomItem`), placed on the unit's tile and registered. */
    method DropItemFrom(unit: Unit, item: Option<Item>, randomItem: Option<Item>)
      requires Valid()
      modifies this`entities, this`order
      ensures Valid()
      ensures var chosen := if item.Some? then item else randomItem;
        (chosen.None? ==> entities == old(entities) && order == old(order)) &&
        (chosen.Some? ==>
          var placed := chosen.value.(position := Point(unit.position.x, unit.position.y));
          entities == old(entities)[placed.id := ItemEntity(placed)] && order == Appended(old(order), placed.id))
    {
      var chosen := if item.Some? then item else randomItem;
      if chosen.Some? {
        var placed := chosen.value.(position := Point(unit.position.x, unit.position.y));
        AddEntity(ItemEntity(placed));
      }
    }

    /**
     * createTextEvent: a text entity registered under its id; `kind` is the
     * colour or style (`None` for the source's `false`), `ttl` its lifetime.
     */
    method CreateTextEvent(id: string, text: string, at: Point, kind: Option<string>, ttl: Option<int>, small: bool)
      requires Valid()
      modifies this`entities, this`order
      ensures Valid()
      ensures entities == old(entities)[id := TextEventEntity(id, text, at, kind, ttl, small)]
      ensures order == Appended(old(order), id)
    {
      AddEntity(TextEventEntity(id, text, at, kind, ttl, small));
    }

    /** addMessage: a small chat text without kind or lifetime at the player's tile. */
    method AddMessage(id: string, player: Unit, message: string)
      requires Valid()
      modifies this`entities, this`order
      ensures Valid()
      ensures entities == old(entities)[id := TextEventEntity(id, message, Point(player.position.x, player.position.y), None, None, true)]
      ensures order == Appended(old(order), id)
    {
      CreateTextEvent(id, message, Point(player.position.x, player.position.y), None, None, true);
    }

    /**
     * checkOverlapingEntities: for a moving unit, any live enemy among the
     * entities on the tile cancels the move; on the destination tile an item
     * is removed when its `pick` succeeds and every interactive entity is
     * interacted with. `here` is what the grid utilities list at the tile
     * (called with x and y exchanged; GridUtils is not part of this model),
     * `pick` the outcome of each item's `pick`. Returns whether `cancel` was
     * called and the interactive entities interacted with, in order.
     */
    method CheckOverlapingEntities(mover: Unit?, destiny: Point, here: seq<Entity>, pick: Item -> bool)
      returns (cancel: bool, interacted: seq<string>)
      requires Valid()
      modifies this`entities, this`order
      ensures Valid()
      ensures mover == null ==> !cancel && interacted == [] && entities == old(entities) && order == old(order)
      ensures mover != null ==> cancel == HasLiveEnemy(here)
      ensures mover != null ==> entities == old(entities) - PickedAt(here, destiny, pick)
      ensures mover != null ==> order == Without(old(order), PickedAt(here, destiny, pick))
      ensures mover != null ==> interacted == InteractedAt(here, destiny)
    {
      cancel, interacted := false, [];
      if mover == null {
        return;
      }
      WithoutAbsent(order, {});
      ghost var entities0, order0 := entities, order;
      ghost var picked: set<string> := {};
      var i := 0;
      while i < |here|
        invariant 0 <= i <= |here| && Valid()
        invariant cancel == old(HasLiveEnemy(here[..i]))
        invariant picked == PickedAt(here[..i], destiny, pick)
        invariant entities == entities0 - picked
        invariant order == Without(order0, picked)
        invariant interacted == InteractedAt(here[..i], destiny)
      {
        var e := here[i];
        assert here[..i + 1][..i] == here[..i] && here[..i + 1][i] == e;
        if e.EnemyEntity? && e.enemy.unit.IsAlive() {
          cancel := true;
        }
        if e.ItemEntity? && e.item.position == destiny && pick(e.item) {
          WithoutTwice(order0, picked, {e.item.id});
          MapWithoutTwice(entities0, picked, {e.item.id});
          RemoveEntity(e.item.id);
          picked := picked + {e.item.id};
        }
        if e.InteractiveEntity? && e.at == destiny {
          interacted := interacted + [e.interactiveId];
        }
        i := i + 1;
      }
      assert here[..i] == here;
    }

    /**
     * move: nothing when the destination, read with x and y exchanged, is
     * the unit's own tile; otherwise follow `path` (the path-finder's
     * answer, not part of this model) without its first step. With
     * `allowChangeTarget` the target becomes the live unit on the tile
     * (`liveUnitAt`), else any entity there (`anyAt`), and the unit attacks
     * it if it is a live unit, or attacks nothing. The source returns
     * `undefined` where this returns true.
     */
    method Move(unit: Unit, destiny: Point, allowChangeTarget: bool, path: seq<Point>,
                liveUnitAt: Option<Entity>, anyAt: Option<Entity>) returns (moved: bool)
      modifies unit`position, unit`action
      ensures IsOwnTileSwapped(destiny, old(unit.position)) ==>
        !moved && unit.position == old(unit.position) && unit.action == old(unit.action)
      ensures !IsOwnTileSwapped(destiny, old(unit.position)) ==> moved && unit.position.pending == StepsOf(path)
      ensures !IsOwnTileSwapped(destiny, old(unit.position)) && !allowChangeTarget ==>
        unit.position == old(unit.position).(pending := StepsOf(path)) && unit.action == old(unit.action)
      ensures !IsOwnTileSwapped(destiny, old(unit.position)) && allowChangeTarget ==>
        var chosen := ChosenTarget(liveUnitAt, anyAt);
        var t := if chosen.Some? then chosen.value.AsUnit() else null;
        unit.position == old(unit.position).(target := if chosen.Some? then Some(chosen.value.Id()) else None, pending := StepsOf(path)) &&
        (t == null || !t.IsAlive() ==> unit.action == None) &&
        (t != null && t.IsAlive() && old(unit.IsBattlingAgainst(t)) ==> unit.action == old(unit.action)) &&
        (t != null && t.IsAlive() && !old(unit.IsBattlingAgainst(t)) ==> unit.action == Some(Battle(unit, t)))
    {
      if IsOwnTileSwapped(destiny, unit.position) {
        return false;
      }
      var moves := StepsOf(path);
      if allowChangeTarget {
        var chosen := ChosenTarget(liveUnitAt, anyAt);
        unit.position := unit.position.(target := if chosen.Some? then Some(chosen.value.Id()) else None);
        var t := if chosen.Some? then chosen.value.AsUnit() else null;
        if t != null && t.IsAlive() {
          unit.Attack(t);
        } else {
          unit.Attack(null);
        }
      }
      unit.position := unit.position.(pending := moves);
      moved := true;
    }

    /** The units and enemies registered: what an update tick may change. */
    function RegisteredUnits(): set<Unit>
      reads this
    {
      (set id | id in entities && entities[id].UnitEntity? :: entities[id].unit) +
      (set id | id in entities && entities[id].EnemyEntity? :: entities[id].enemy.unit)
    }

    function RegisteredEnemies(): set<Enemy>
      reads this
    {
      set id | id in entities && entities[id].EnemyEntity? :: entities[id].enemy
    }

    /** The unit registered under `id` (a unit or an enemy's unit), or null. */
    function UnitAt(id: string): Unit?
      reads this
    {
      if id in entities then entities[id].AsUnit() else null
    }

    /** No unit is registered under two ids, so one tick updates each unit once. */
    predicate OnceEach()
      reads this
    {
      forall a, b :: a in entities && b in entities && a != b && entities[a].AsUnit() != null ==>
        entities[a].AsUnit() != entities[b].AsUnit()
    }

    /**
     * One entity's update within a tick: a unit's update; for an enemy,
     * Enemy.update and then the `move` it asks for, carried out at once with
     * target change allowed, as the source calls `this.state.move` from
     * inside the enemy's update. `finder` is the path-finder, from the
     * enemy's tile to the destination. Other entities are left alone.
     */
    method UpdateEntity(e: Entity, currentTime: int, actionEligible: bool, playerList: seq<Unit>, aiDistance: real,
                        distance: (Point, Point) -> real, finder: (Point, Point) -> seq<Point>,
                        liveUnitAt: Point -> Option<Entity>, anyAt: Point -> Option<Entity>)
      returns (call: PositionCall, moveTo: Option<Point>)
      modifies UnitsOf(e)`hp, UnitsOf(e)`lastHpRegenerationTime, UnitsOf(e)`position, UnitsOf(e)`action,
        EnemiesOf(e)`lastUpdateTime
      ensures call == old(BeforeTick(e, currentTime, actionEligible)).call
      ensures Ticked(e, old(BeforeTick(e, currentTime, actionEligible)), currentTime, moveTo, finder, liveUnitAt, anyAt)
    {
      call, moveTo := NoPositionCall, None;
      match e {
        case UnitEntity(u) =>
          call := u.Update(currentTime, actionEligible);
        case EnemyEntity(enemy) =>
          call, moveTo := enemy.Update(currentTime, actionEligible, playerList, aiDistance, distance);
          if moveTo.Some? {
            var u := enemy.unit;
            var p := moveTo.value;
            var liveHere, anyHere := liveUnitAt(p), anyAt(p);
            var _ := Move(u, p, true, finder(Point(u.position.x, u.position.y), p), liveHere, anyHere);
          }
        case _ =>
      }
    }

    /**
     * update: skipped while no player is connected; otherwise every entity,
     * in key order, gets its update (units and enemies as modelled, the
     * others' update is not part of this model), each enemy's move carried
     * out before the next entity's update. `eligible`, `aiDistance` and
     * `distance` stand for each entity's action eligibility, each enemy's
     * `getAIDistance()` and `helpers/Math.distance`; `finder`, `liveUnitAt`
     * and `anyAt` for the path-finder and the grid utilities `move` asks.
     * Returned: the Movement call each entity's update ends with, in key
     * order, and where each enemy that moved was sent.
     */
    method Update(currentTime: int, eligible: string -> bool, aiDistance: string -> real, distance: (Point, Point) -> real,
                  finder: (Point, Point) -> seq<Point>, liveUnitAt: Point -> Option<Entity>, anyAt: Point -> Option<Entity>)
      returns (calls: seq<PositionCall>, moves: map<string, Point>)
      requires Valid() && OnceEach()
      modifies RegisteredUnits()`hp, RegisteredUnits()`lastHpRegenerationTime, RegisteredUnits()`position,
        RegisteredUnits()`action, RegisteredEnemies()`lastUpdateTime
      ensures |players| == 0 ==> calls == [] && moves == map[]
      ensures |players| == 0 ==> (forall u :: u in RegisteredUnits() ==> unchanged(u)) && forall en :: en in RegisteredEnemies() ==> unchanged(en)
      ensures |players| > 0 ==> |calls| == |order| && forall k :: 0 <= k < |order| ==>
        var b := old(BeforeTick(entities[order[k]], currentTime, eligible(order[k])));
        calls[k] == b.call && Ticked(entities[order[k]], b, currentTime, MoveOf(moves, order[k]), finder, liveUnitAt, anyAt)
      ensures forall id :: id in moves ==> id in entities && entities[id].EnemyEntity?
    {
      calls, moves := [], map[];
      if |players| == 0 {
        return;
      }
      var playerList := ValuesInOrder(players, playerOrder);
      ghost var bs := BeforeEach(currentTime, eligible);
      var i := 0;
      while i < |order|
        invariant 0 <= i <= |order|
        invariant TickedUpTo(i, bs, currentTime, eligible, calls, moves, finder, liveUnitAt, anyAt)
      {
        OnceEachApart(i);
        calls, moves := TickAt(i, bs, currentTime, eligible, calls, moves, playerList, aiDistance, distance, finder, liveUnitAt, anyAt);
        i := i + 1;
      }
    }

    /** What each registered entity's update depends on, in key order. */
    function BeforeEach(now: int, eligible: string -> bool): (r: seq<Before>)
      requires Valid()
      reads this, RegisteredUnits(), RegisteredEnemies()
      ensures |r| == |order| && forall k :: 0 <= k < |order| ==> r[k] == BeforeTick(entities[order[k]], now, eligible(order[k]))
    {
      var ents, ids := entities, order;
      AllRegisteredFrames();
      seq(|ids|, k requires 0 <= k < |ids| && ids[k] in ents reads if 0 <= k < |ids| && ids[k] in ents then UnitsOf(ents[ids[k]]) else {},
          if 0 <= k < |ids| && ids[k] in ents then EnemiesOf(ents[ids[k]]) else {} =>
        BeforeTick(ents[ids[k]], now, eligible(ids[k])))
    }

    lemma AllRegisteredFrames()
      requires Valid()
      ensures forall k :: 0 <= k < |order| ==>
        UnitsOf(entities[order[k]]) <= RegisteredUnits() && EnemiesOf(entities[order[k]]) <= RegisteredEnemies()
    {
      forall k | 0 <= k < |order|
        ensures UnitsOf(entities[order[k]]) <= RegisteredUnits() && EnemiesOf(entities[order[k]]) <= RegisteredEnemies()
      {
        RegisteredFrames(order[k]);
      }
    }

    /** The units and enemies of every registered entity are what a tick may change. */
    lemma RegisteredFrames(id: string)
      requires id in entities
      ensures UnitsOf(entities[id]) <= RegisteredUnits() && EnemiesOf(entities[id]) <= RegisteredEnemies()
    {
    }

    /**
     * The first `i` entities in key order have had their update, each as
     * `Ticked` says from its state before the tick `bs`, and the rest are
     * still as they were and have not moved.
     */
    predicate TickedUpTo(i: int, bs: seq<Before>, now: int, eligible: string -> bool, calls: seq<PositionCall>,
                         moves: map<string, Point>, finder: (Point, Point) -> seq<Point>,
                         liveUnitAt: Point -> Option<Entity>, anyAt: Point -> Option<Entity>)
      reads this, RegisteredUnits(), RegisteredEnemies()
    {
      Valid() && 0 <= i <= |order| && |bs| == |order| && |calls| == i &&
      (forall k :: 0 <= k < i ==>
        (RegisteredFrames(order[k]);
         calls[k] == bs[k].call && Ticked(entities[order[k]], bs[k], now, MoveOf(moves, order[k]), finder, liveUnitAt, anyAt))) &&
      (forall k :: i <= k < |order| ==>
        (RegisteredFrames(order[k]);
         BeforeTick(entities[order[k]], now, eligible(order[k])) == bs[k] && order[k] !in moves)) &&
      (forall id :: id in moves ==> id in entities && entities[id].EnemyEntity?)
    }

    /** The update of the entity at key position `i`, one loop step of update. */
    method TickAt(i: int, ghost bs: seq<Before>, now: int, eligible: string -> bool, calls: seq<PositionCall>,
                  moves: map<string, Point>, playerList: seq<Unit>, aiDistance: string -> real, distance: (Point, Point) -> real,
                  finder: (Point, Point) -> seq<Point>, liveUnitAt: Point -> Option<Entity>, anyAt: Point -> Option<Entity>)
      returns (calls': seq<PositionCall>, moves': map<string, Point>)
      requires 0 <= i < |order|
      requires TickedUpTo(i, bs, now, eligible, calls, moves, finder, liveUnitAt, anyAt)
      requires forall k :: 0 <= k < |order| && k != i ==>
        UnitsOf(entities[order[k]]) !! UnitsOf(entities[order[i]]) &&
        EnemiesOf(entities[order[k]]) !! EnemiesOf(entities[order[i]])
      modifies UnitsOf(entities[order[i]])`hp, UnitsOf(entities[order[i]])`lastHpRegenerationTime,
        UnitsOf(entities[order[i]])`position, UnitsOf(entities[order[i]])`action, EnemiesOf(entities[order[i]])`lastUpdateTime
      ensures TickedUpTo(i + 1, bs, now, eligible, calls', moves', finder, liveUnitAt, anyAt)
    {
      var id := order[i];
      var e := entities[id];
      var call, moveTo := UpdateEntity(e, now, eligible(id), playerList, aiDistance(id), distance, finder, liveUnitAt, anyAt);
      moves' := if moveTo.Some? then moves[id := moveTo.value] else moves;
      calls' := calls + [call];
      assert NoDuplicates(order);
      assert MoveOf(moves', id) == moveTo;
      forall k | 0 <= k < |order| && k != i
        ensures MoveOf(moves', order[k]) == MoveOf(moves, order[k])
      {
        assert order[k] != id;
      }
      forall k | 0 <= k < i
        ensures Ticked(entities[order[k]], bs[k], now, MoveOf(moves, order[k]), finder, liveUnitAt, anyAt)
      {
        assert AfterTick(entities[order[k]]) == old(AfterTick(entities[order[k]]));
      }
      forall k | i < k < |order|
        ensures BeforeTick(entities[order[k]], now, eligible(order[k])) == bs[k]
      {
      }
    }

    /** The entity at key position `i` shares its unit and its enemy with no other registered entity. */
    lemma OnceEachApart(i: int)
      requires Valid() && OnceEach() && 0 <= i < |order|
      ensures forall k :: 0 <= k < |order| && k != i ==>
        UnitsOf(entities[order[k]]) !! UnitsOf(entities[order[i]]) &&
        EnemiesOf(entities[order[k]]) !! EnemiesOf(entities[order[i]])
    {
      assert NoDuplicates(order);
      forall k | 0 <= k < |order| && k != i
        ensures UnitsOf(entities[order[k]]) !! UnitsOf(entities[order[i]])
        ensures EnemiesOf(entities[order[k]]) !! EnemiesOf(entities[order[i]])
      {
        assert order[k] != order[i];
      }
    }
  }

  /**
   * What a tick's update of an entity depends on, read before it: the
   * unit's hp and regeneration clock as update leaves them, its movement
   * and action, the Movement call update ends with, and for an enemy
   * whether the AI step is allowed and its AI clock. An entity without a
   * unit reads as a fixed value.
   */
  datatype Before = Before(regenHp: Bars.Bar, regenTime: int, position: Movement, action: Option<Battle>,
                           call: PositionCall, aiAllowed: bool, lastUpdateTime: int)

  function BeforeTick(e: Entity, now: int, actionEligible: bool): Before
    reads UnitsOf(e), EnemiesOf(e)
  {
    match e
    case UnitEntity(u) =>
      Before(u.RegeneratedHp(now), u.RegeneratedTime(now), u.position, u.action, u.PositionCallFor(actionEligible), false, 0)
    case EnemyEntity(en) =>
      var u := en.unit;
      Before(u.RegeneratedHp(now), u.RegeneratedTime(now), u.position, u.action, u.PositionCallFor(actionEligible),
             en.AiAllowed(now, actionEligible), en.lastUpdateTime)
    case _ => Before(Bars.Bar(0.0, 0.0), 0, Movement(0, 0, None, []), None, NoPositionCall, false, 0)
  }

  /**
   * The entity after its update, given what it was before: a unit's hp
   * regenerated as update says and its tile kept; a plain unit keeps its
   * movement and action and never moves; an enemy's AI clock moved exactly
   * when the AI step was allowed, an enemy that did not move kept its
   * movement and action, and one sent to `move` did so in an allowed AI
   * step and had its target and steps set by `move`, keeping its action
   * when sent to its own tile.
   */
  predicate Ticked(e: Entity, b: Before, now: int, move: Option<Point>, finder: (Point, Point) -> seq<Point>,
                   liveUnitAt: Point -> Option<Entity>, anyAt: Point -> Option<Entity>)
    reads UnitsOf(e), EnemiesOf(e)
  {
    TickedAs(e, AfterTick(e), b, now, move, finder, liveUnitAt, anyAt)
  }

  /** What an entity's update may change, read after it (an entity without a unit reads as a fixed value). */
  datatype After = After(hp: Bars.Bar, regenTime: int, position: Movement, action: Option<Battle>, lastUpdateTime: int)

  function AfterTick(e: Entity): After
    reads UnitsOf(e), EnemiesOf(e)
  {
    match e
    case UnitEntity(u) => After(u.hp, u.lastHpRegenerationTime, u.position, u.action, 0)
    case EnemyEntity(en) =>
      var u := en.unit;
      After(u.hp, u.lastHpRegenerationTime, u.position, u.action, en.lastUpdateTime)
    case _ => After(Bars.Bar(0.0, 0.0), 0, Movement(0, 0, None, []), None, 0)
  }

  /** `Ticked` on the values read before (`b`) and after (`a`) the update of entity `e`. */
  predicate TickedAs(e: Entity, a: After, b: Before, now: int, move: Option<Point>, finder: (Point, Point) -> seq<Point>,
                     liveUnitAt: Point -> Option<Entity>, anyAt: Point -> Option<Entity>)
  {
    match e
    case UnitEntity(_) =>
      a.hp == b.regenHp && a.regenTime == b.regenTime &&
      a.position == b.position && a.action == b.action && move.None?
    case EnemyEntity(_) =>
      a.hp == b.regenHp && a.regenTime == b.regenTime &&
      a.position.x == b.position.x && a.position.y == b.position.y &&
      a.lastUpdateTime == (if b.aiAllowed then now else b.lastUpdateTime) &&
      (move.None? ==> a.position == b.position && a.action == b.action) &&
      (move.Some? ==> b.aiAllowed && MovedAs(b.position, a.position, move.value, finder, liveUnitAt, anyAt)) &&
      (move.Some? && IsOwnTileSwapped(move.value, b.position) ==> a.action == b.action)
    case _ => move.None?
  }

  /** The entity's unit, as a frame: a unit's or an enemy's, else none. */
  function UnitsOf(e: Entity): set<Unit>
  {
    if e.AsUnit() != null then {e.AsUnit()} else {}
  }

  function EnemiesOf(e: Entity): set<Enemy>
  {
    if e.EnemyEntity? then {e.enemy} else {}
  }

  /** Where the enemy registered as `id` was sent, if it moved. */
  function MoveOf(moves: map<string, Point>, id: string): Option<Point>
  {
    if id in moves then Some(moves[id]) else None
  }

  /**
   * `move` with target change allowed, from movement `before` to `after`:
   * nothing when the destination is the unit's own tile (read swapped);
   * otherwise the path-finder's steps without the start, and the target
   * chosen from the entities on the destination.
   */
  predicate MovedAs(before: Movement, after: Movement, destiny: Point, finder: (Point, Point) -> seq<Point>,
                    liveUnitAt: Point -> Option<Entity>, anyAt: Point -> Option<Entity>)
  {
    if IsOwnTileSwapped(destiny, before) then after == before
    else
      var chosen := ChosenTarget(liveUnitAt(destiny), anyAt(destiny));
      after == before.(target := if chosen.Some? then Some(chosen.value.Id()) else None,
                       pending := StepsOf(finder(Point(before.x, before.y), destiny)))
  }
}
