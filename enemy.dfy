/**
 * server/entities/Enemy.ts: an enemy unit with its AI cadence. The enemy
 * shares the unit's state (an `EnemyUnit`-kind Unit) and adds the AI clock.
 */
module EnemyModel {
  import opened Common
  import opened Stats
  import opened UnitRules
  import opened UnitModel

  const AI_UPDATE_TIME: int := 500

  /** A player the AI may chase: alive and within `aiDistance` of `from`. */
  predicate IsClosePlayer(player: Unit, from: Point, aiDistance: real, distance: (Point, Point) -> real)
    reads player
  {
    player.IsAlive() && distance(from, Point(player.position.x, player.position.y)) <= aiDistance
  }

  /** The boost map after `for (statName in modifiers) boost[statName] = modifiers[statName]`. */
  method CopyModifiers(boost: Mods, modifiers: map<StatName, int>) returns (r: Mods)
    ensures r.Keys == boost.Keys + modifiers.Keys
    ensures forall k :: k in modifiers ==> r[k] == modifiers[k]
    ensures forall k :: k in boost && k !in modifiers ==> r[k] == boost[k]
  {
    r := boost;
    var todo := modifiers.Keys;
    while todo != {}
      invariant todo <= modifiers.Keys
      invariant r.Keys == boost.Keys + (modifiers.Keys - todo)
      invariant forall k :: k in modifiers && k !in todo ==> r[k] == modifiers[k]
      invariant forall k :: k in boost && (k !in modifiers || k in todo) ==> r[k] == boost[k]
      decreases todo
    {
      var k :| k in todo;
      r := r[k := modifiers[k]];
      todo := todo - {k};
    }
  }

  /**
   * The scan of `state.players` in key order: the index of the first player
   * that is alive and close enough, if any.
   */
  method ClosePlayer(players: seq<Unit>, from: Point, aiDistance: real, distance: (Point, Point) -> real)
    returns (k: Option<nat>)
    ensures k.Some? ==> k.value < |players| && IsClosePlayer(players[k.value], from, aiDistance, distance)
    ensures k.Some? ==> forall j :: 0 <= j < k.value ==> !IsClosePlayer(players[j], from, aiDistance, distance)
    ensures k.None? ==> forall j :: 0 <= j < |players| ==> !IsClosePlayer(players[j], from, aiDistance, distance)
  {
    var i := 0;
    while i < |players|
      invariant 0 <= i <= |players|
      invariant forall j :: 0 <= j < i ==> !IsClosePlayer(players[j], from, aiDistance, distance)
    {
      var player := players[i];
      if player.IsAlive() && distance(from, Point(player.position.x, player.position.y)) <= aiDistance {
        return Some(i);
      }
      i := i + 1;
    }
    return None;
  }

  class Enemy {
    const unit: Unit
    const kindName: string
    var isBoss: bool
    const aiUpdateTime: int
    var lastUpdateTime: int

    /** The AI step runs at `now`: more than `aiUpdateTime` since the last one, and no eligible action. */
    predicate AiAllowed(now: int, actionEligible: bool)
      reads this, unit
    {
      now - lastUpdateTime > aiUpdateTime && (unit.action.None? || !actionEligible)
    }

    /**
     * The constructor: an enemy-kind unit (its level defaulting to 1), the
     * given modifiers copied into the boost map, then the stats recalculated.
     * `now` is the `Date.now()` the AI clock starts from.
     */
    constructor (id: string, kindName: string, data: HeroData, modifiers: map<StatName, int>, now: int, facing: Facing, at: Point)
      requires KnownModifiers(data.equipedItems)
      ensures fresh(unit) && unit.Valid()
      ensures unit.id == id && unit.kind == EnemyUnit && this.kindName == kindName
      ensures unit.lvl == (if data.lvl != 0 then data.lvl else 1)
      ensures unit.statsBoostModifiers.Keys == STAT_KEY_SET + modifiers.Keys
      ensures forall k :: k in modifiers ==> unit.statsBoostModifiers[k] == modifiers[k]
      ensures forall k :: k in STAT_KEY_SET && k !in modifiers ==> unit.statsBoostModifiers[k] == 0
      ensures unit.statsModifiers == ModifierTotals(unit.equipedItems)
      ensures aiUpdateTime == AI_UPDATE_TIME && lastUpdateTime == now && !isBoss
    {
      var u := new Unit(id, EnemyUnit, data, facing, at);
      var boost := CopyModifiers(u.statsBoostModifiers, modifiers);
      u.statsBoostModifiers := boost;
      u.RecalculateStatsModifiers();
      unit := u;
      this.kindName := kindName;
      isBoss := false;
      aiUpdateTime := AI_UPDATE_TIME;
      lastUpdateTime := now;
    }

    /**
     * update: the unit's own update first; then, when more than 500 ms have
     * passed since the last AI step and the action is missing or not
     * eligible, look for the first close player, ask to move to it (with the
     * coordinates swapped, as the source passes them) and restart the AI clock.
     * The move request is returned for the dungeon state to carry out;
     * `getAIDistance()` is the parameter `aiDistance`.
     */
    method Update(currentTime: int, actionEligible: bool, players: seq<Unit>, aiDistance: real, distance: (Point, Point) -> real)
      returns (call: PositionCall, moveTo: Option<Point>)
      modifies unit`hp, unit`lastHpRegenerationTime, this`lastUpdateTime
      ensures !old(unit.IsAlive()) ==> call == NoPositionCall && unit.hp == old(unit.hp)
      ensures old(unit.IsAlive()) ==> call == (if unit.action.Some? && actionEligible then Touched else Stepped)
      ensures call == old(unit.PositionCallFor(actionEligible))
      ensures unit.hp == old(unit.RegeneratedHp(currentTime)) && unit.lastHpRegenerationTime == old(unit.RegeneratedTime(currentTime))
      ensures lastUpdateTime == (if old(AiAllowed(currentTime, actionEligible)) then currentTime else old(lastUpdateTime))
      ensures moveTo.Some? ==> old(AiAllowed(currentTime, actionEligible))
      ensures var aiAllowed := currentTime - old(lastUpdateTime) > aiUpdateTime && (unit.action.None? || !actionEligible);
        (aiAllowed ==> lastUpdateTime == currentTime) && (!aiAllowed ==> lastUpdateTime == old(lastUpdateTime) && moveTo == None)
      ensures moveTo.Some? ==>
        (exists k :: 0 <= k < |players| &&
          IsClosePlayer(players[k], Point(unit.position.x, unit.position.y), aiDistance, distance) &&
          moveTo == Some(Point(players[k].position.y, players[k].position.x)) &&
          (forall j :: 0 <= j < k ==> !IsClosePlayer(players[j], Point(unit.position.x, unit.position.y), aiDistance, distance)))
      ensures currentTime - old(lastUpdateTime) > aiUpdateTime && (unit.action.None? || !actionEligible) && moveTo == None ==>
        forall j :: 0 <= j < |players| ==> !IsClosePlayer(players[j], Point(unit.position.x, unit.position.y), aiDistance, distance)
    {
      call := unit.Update(currentTime, actionEligible);
      moveTo := None;
      var timeDiff := currentTime - lastUpdateTime;
      var aiAllowed := timeDiff > aiUpdateTime;
      if aiAllowed && (unit.action.None? || !actionEligible) {
        var k := ClosePlayer(players, Point(unit.position.x, unit.position.y), aiDistance, distance);
        if k.Some? {
          var p := players[k.value];
          moveTo := Some(Point(p.position.y, p.position.x));
        }
        lastUpdateTime := currentTime;
      }
    }

    /** onLevelUp: the unit's level-up, then every free point into the primary attribute. */
    method OnLevelUp()
      modifies unit`lvl, unit`pointsToDistribute, unit`hp, unit`mp, unit`xp, unit`attributes
      ensures unit.Prog() == UnitRules.LevelUp(old(unit.Prog()), unit.kind == EnemyUnit, unit.primaryAttribute)
    {
      unit.OnLevelUp();
    }
  }
}
