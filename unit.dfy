/**
 * server/entities/Unit.ts: a unit on the dungeon grid (player, enemy or
 * NPC), with the fields the source updates in place.
 */
module UnitModel {
  import opened Common
  import opened Stats
  import opened Bars
  import opened UnitRules

  /** Which subclass a unit is; enemies override onLevelUp. */
  datatype UnitKind = PlayerUnit | EnemyUnit | NpcUnit

  /** The hero document (or enemy configuration) a unit is built from; 0 stands for a missing number. */
  datatype HeroData = HeroData(
    userId: Option<string>,
    lvl: nat,
    primaryAttribute: Option<Attribute>,
    strength: int, agility: int, intelligence: int,
    hp: Option<real>, mp: Option<real>, xp: real,
    equipedItems: seq<EquipSlot>,
    quickInventory: seq<Item>, inventory: seq<Item>)

  datatype Inventory = Inventory(capacity: nat, items: seq<Item>)
  {
    predicate HasAvailability()
    {
      |items| < capacity
    }

    /** Inventory.set (server/core/Inventory is not part of this model): the saved items replace the contents. */
    function Set(saved: seq<Item>): (r: Inventory)
      ensures r.capacity == capacity && r.items == saved
    {
      this.(items := saved)
    }

    /** Inventory.add (server/core/Inventory is not part of this model): appends the item. */
    function Add(item: Item): (r: Inventory)
      ensures r.capacity == capacity && r.items == items + [item]
    {
      this.(items := items + [item])
    }
  }

  /** The part of Movement (server/core/Movement, not part of this model) the shown code reads and writes. */
  datatype Movement = Movement(x: int, y: int, target: Option<string>, pending: seq<Point>)

  /** Which Movement method a unit's update ends with. */
  datatype PositionCall = NoPositionCall | Touched | Stepped

  /** `willDropItem`: undefined (not decided yet), null (no drop) or an item. */
  datatype DropChoice = Undecided | NoDrop | WillDrop(item: Item)

  /** `x || 1` on a number read from the hero document. */
  function OrOne(n: int): int
  {
    if n != 0 then n else 1
  }

  class Unit {
    const id: string
    const kind: UnitKind
    const hpRegenerationInterval: int

    var lvl: int
    var primaryAttribute: Attribute
    var attributes: Attributes
    var pointsToDistribute: int
    var baseHp: int
    var baseMp: int
    var hp: Bar
    var mp: Bar
    var xp: Bar
    var statsModifiers: Mods
    var statsBoostModifiers: Mods
    var equipedItems: seq<EquipSlot>
    var inventory: Inventory
    var quickInventory: Inventory
    var action: Option<Battle>
    var direction: Facing
    var walkable: bool
    var damageTakenFrom: seq<Unit>
    var position: Movement
    var lastHpRegenerationTime: int
    var hpRegeneration: real
    var hasState: bool
    var willDropItem: DropChoice

    predicate Valid()
      reads this
    {
      statsModifiers.Keys == STAT_KEY_SET &&
      STAT_KEY_SET <= statsBoostModifiers.Keys &&
      lvl >= 1 &&
      NoDuplicates(damageTakenFrom)
    }

    function Prog(): Progress
      reads this
    {
      Progress(lvl, xp, hp, mp, pointsToDistribute, attributes)
    }

    /**
     * The constructor: defaults for missing hero fields, stats from the
     * equipped items, and a dead hero brought back with full bars. The
     * random initial direction is the `facing` parameter.
     */
    constructor (id: string, kind: UnitKind, hero: HeroData, facing: Facing, at: Point)
      requires KnownModifiers(hero.equipedItems)
      ensures Valid()
      ensures this.id == id && this.kind == kind
      ensures lvl == (if hero.lvl != 0 then hero.lvl else 1)
      ensures primaryAttribute == hero.primaryAttribute.GetOr(Strength)
      ensures attributes == Attributes(OrOne(hero.strength), OrOne(hero.agility), OrOne(hero.intelligence))
      ensures statsModifiers == ModifierTotals(hero.equipedItems)
      ensures hp.max == HpMax(baseHp, attributes, statsModifiers) as real
      ensures mp.max == MpMax(baseMp, attributes, statsModifiers) as real
      ensures hero.hp.Some? && hero.hp.value > 0.0 ==> hp.current == hero.hp.value && mp.current == hero.mp.GetOr(0.0)
      ensures !(hero.hp.Some? && hero.hp.value > 0.0) ==> hp.current == hp.max && mp.current == mp.max
      ensures xp == Bar(hero.xp, XpMax(lvl) as real)
      ensures baseHp == baseMp == (if hero.userId.Some? && hero.userId.value != "" then 10 else 0)
      ensures inventory == Inventory(12, hero.inventory) && quickInventory == Inventory(6, hero.quickInventory)
      ensures action == None && damageTakenFrom == [] && pointsToDistribute == 0
      ensures equipedItems == hero.equipedItems && statsBoostModifiers == map k | k in STAT_KEY_SET :: 0
      ensures direction == facing && position == Movement(at.x, at.y, None, []) && !hasState
    {
      this.id := id;
      this.kind := kind;
      hpRegenerationInterval := HP_REGENERATION_INTERVAL;
      var level := if hero.lvl != 0 then hero.lvl else 1;
      var attrs := Attributes(OrOne(hero.strength), OrOne(hero.agility), OrOne(hero.intelligence));
      lvl := level;
      primaryAttribute := hero.primaryAttribute.GetOr(Strength);
      attributes := attrs;
      pointsToDistribute := 0;
      var base := if hero.userId.Some? && hero.userId.value != "" then 10 else 0;
      baseHp, baseMp := base, base;
      var mods := ModifierTotals(hero.equipedItems);
      statsModifiers := mods;
      statsBoostModifiers := map k | k in STAT_KEY_SET :: 0;
      equipedItems := hero.equipedItems;
      var hpMax := HpMax(base, attrs, mods) as real;
      var mpMax := MpMax(base, attrs, mods) as real;
      if hero.hp.Some? && hero.hp.value > 0.0 {
        hp := Bar(hero.hp.value, hpMax);
        mp := Bar(hero.mp.GetOr(0.0), mpMax);
      } else {
        hp := Bar(hpMax, hpMax);
        mp := Bar(mpMax, mpMax);
      }
      xp := Bar(hero.xp, XpMax(level) as real);
      quickInventory := Inventory(6, []).Set(hero.quickInventory);
      inventory := Inventory(12, []).Set(hero.inventory);
      action := None;
      direction := facing;
      walkable := false;
      damageTakenFrom := [];
      position := Movement(at.x, at.y, None, []);
      lastHpRegenerationTime := 0;
      hpRegeneration := 0.0;
      hasState := false;
      willDropItem := Undecided;
    }

    predicate IsAlive()
      reads this
    {
      hp.current > 0.0
    }

    function Weapon(): Option<Item>
      reads this
    {
      SlotItem(equipedItems, "left")
    }

    function MovementSpeedNow(): int
      reads this
      requires Valid()
    {
      MovementSpeedOf(attributes, statsModifiers)
    }

    function AttackSpeedNow(): int
      reads this
      requires Valid()
    {
      AttackSpeedOf(attributes, statsModifiers)
    }

    function AttackDistanceNow(): int
      reads this
      requires Valid()
    {
      AttackDistanceOf(statsModifiers)
    }

    function XpMaxNow(): int
      reads this
    {
      XpMax(lvl)
    }

    function XpWorthNow(): int
      reads this
      requires Valid()
    {
      XpWorth(attributes, statsModifiers, lvl)
    }

    /** Whether update at `now` regenerates: alive, and past the regeneration interval. */
    predicate RegeneratesAt(now: int)
      reads this
    {
      IsAlive() && now > lastHpRegenerationTime + hpRegenerationInterval
    }

    /** The hp bar after update's regeneration step at `now`. */
    function RegeneratedHp(now: int): Bar
      reads this
    {
      if RegeneratesAt(now) then hp.Set(hp.current + hpRegeneration) else hp
    }

    /** The regeneration clock after update at `now`. */
    function RegeneratedTime(now: int): int
      reads this
    {
      if RegeneratesAt(now) then now else lastHpRegenerationTime
    }

    /** The Movement call update ends with, given the action's eligibility. */
    function PositionCallFor(actionEligible: bool): PositionCall
      reads this
    {
      if !IsAlive() then NoPositionCall else if action.Some? && actionEligible then Touched else Stepped
    }

    predicate IsBattlingAgainst(u: Unit?)
      reads this
    {
      action.Some? && action.value.defender == u
    }

    /** recalculateStatsModifiers: totals from the equipped items, then both bars rescaled to their new maximum. */
    method RecalculateStatsModifiers()
      requires Valid() && KnownModifiers(equipedItems)
      modifies this`statsModifiers, this`hp, this`mp
      ensures Valid()
      ensures statsModifiers == ModifierTotals(equipedItems)
      ensures hp == Rescaled(old(hp), HpMax(baseHp, attributes, statsModifiers) as real)
      ensures mp == Rescaled(old(mp), MpMax(baseMp, attributes, statsModifiers) as real)
    {
      statsModifiers := AccumulateModifiers(equipedItems);
      hp := Rescaled(hp, HpMax(baseHp, attributes, statsModifiers) as real);
      mp := Rescaled(mp, MpMax(baseMp, attributes, statsModifiers) as real);
    }

    /** getDamage: a roll between the two damage bounds (`rand.intBetween`, whose distribution is not modelled). */
    method GetDamage() returns (d: int)
      requires Valid()
      ensures var b := DamageBounds(attributes, statsModifiers, DamageAttribute(Weapon(), primaryAttribute)); Between(b.0, b.1, d)
    {
      var b := DamageBounds(attributes, statsModifiers, DamageAttribute(Weapon(), primaryAttribute));
      assert Between(b.0, b.1, b.0);
      d :| Between(b.0, b.1, d);
    }

    /**
     * update: a dead unit does nothing; otherwise regenerate hp once the
     * interval has passed, then touch the movement when the battle action is
     * eligible and step it otherwise. `actionEligible` is the action's
     * `isEligible` after its own update (BattleAction is not part of this model).
     */
    method Update(currentTime: int, actionEligible: bool) returns (call: PositionCall)
      modifies this`hp, this`lastHpRegenerationTime
      ensures !old(IsAlive()) ==> call == NoPositionCall && hp == old(hp) && lastHpRegenerationTime == old(lastHpRegenerationTime)
      ensures old(IsAlive()) && currentTime > old(lastHpRegenerationTime) + hpRegenerationInterval ==>
        hp == old(hp).Set(old(hp.current) + hpRegeneration) && lastHpRegenerationTime == currentTime
      ensures old(IsAlive()) && currentTime <= old(lastHpRegenerationTime) + hpRegenerationInterval ==>
        hp == old(hp) && lastHpRegenerationTime == old(lastHpRegenerationTime)
      ensures old(IsAlive()) ==> call == (if action.Some? && actionEligible then Touched else Stepped)
      ensures hp == old(RegeneratedHp(currentTime)) && lastHpRegenerationTime == old(RegeneratedTime(currentTime))
      ensures call == old(PositionCallFor(actionEligible))
    {
      if !IsAlive() {
        return NoPositionCall;
      }
      if currentTime > lastHpRegenerationTime + hpRegenerationInterval {
        hp := hp.Set(hp.current + hpRegeneration);
        lastHpRegenerationTime := currentTime;
      }
      if action.Some? && actionEligible {
        call := Touched;
      } else {
        call := Stepped;
      }
    }

    /** attack: a missing or dead defender ends the action; a new defender starts a battle; the current one keeps it. */
    method Attack(defender: Unit?)
      modifies this`action
      ensures defender == null || !defender.IsAlive() ==> action == None
      ensures defender != null && defender.IsAlive() && old(IsBattlingAgainst(defender)) ==> action == old(action)
      ensures defender != null && defender.IsAlive() && !old(IsBattlingAgainst(defender)) ==> action == Some(Battle(this, defender))
    {
      if defender == null || !defender.IsAlive() {
        action := None;
      } else if !IsBattlingAgainst(defender) {
        action := Some(Battle(this, defender));
      }
    }

    /** takeDamage: lose the damage and remember the attacker (a Set: once, in first-hit order). */
    method TakeDamage(attacker: Unit, damage: real) returns (taken: real)
      requires Valid()
      modifies this`hp, this`damageTakenFrom
      ensures Valid()
      ensures taken == damage
      ensures hp == Bar(old(hp.current) - damage, old(hp.max))
      ensures damageTakenFrom == if attacker in old(damageTakenFrom) then old(damageTakenFrom) else old(damageTakenFrom) + [attacker]
    {
      hp := hp.(current := hp.current - damage);
      if attacker !in damageTakenFrom {
        damageTakenFrom := damageTakenFrom + [attacker];
      }
      taken := damage;
    }

    /** onLevelUp, with Enemy.onLevelUp's loop for enemies (server/entities/Enemy.ts). */
    method OnLevelUp()
      modifies this`lvl, this`pointsToDistribute, this`hp, this`mp, this`xp, this`attributes
      ensures Prog() == UnitRules.LevelUp(old(Prog()), kind == EnemyUnit, primaryAttribute)
    {
      lvl := lvl + 1;
      pointsToDistribute := pointsToDistribute + 2;
      hp := hp.(current := hp.max);
      mp := mp.(current := mp.max);
      xp := Bar(0.0, XpMax(lvl) as real);
      if kind == EnemyUnit {
        ghost var a0 := attributes;
        ghost var p0 := pointsToDistribute;
        var i := pointsToDistribute;
        while i > 0
          invariant i <= p0 && (p0 > 0 ==> 0 <= i) && (p0 <= 0 ==> i == p0)
          invariant pointsToDistribute == i
          invariant lvl == old(lvl) + 1 && hp == old(hp).Filled() && mp == old(mp).Filled() && xp == Bar(0.0, XpMax(lvl) as real)
          invariant attributes == a0.With(primaryAttribute, a0.Get(primaryAttribute) + (p0 - i))
        {
          attributes := attributes.With(primaryAttribute, attributes.Get(primaryAttribute) + 1);
          pointsToDistribute := pointsToDistribute - 1;
          i := i - 1;
        }
      }
    }

    /** `xp.increment(v)`, whose "lvl-up" event calls onLevelUp when the bar reaches its maximum. */
    method GainXp(v: real)
      modifies this`lvl, this`pointsToDistribute, this`hp, this`mp, this`xp, this`attributes
      ensures Prog() == UnitRules.GainXp(old(Prog()), v, kind == EnemyUnit, primaryAttribute)
    {
      xp := xp.(current := xp.current + v);
      if xp.current >= xp.max {
        OnLevelUp();
      }
    }

    /**
     * drop: nothing without a state; an undecided drop is decided by the
     * room's random item (`randomItem`); a chosen item is returned placed at
     * the unit's tile, for the state to add as an entity.
     */
    method Drop(randomItem: Option<Item>) returns (dropped: Option<Item>)
      modifies this`willDropItem
      ensures !hasState ==> dropped == None && willDropItem == old(willDropItem)
      ensures hasState && old(willDropItem) != Undecided ==> willDropItem == old(willDropItem)
      ensures hasState && old(willDropItem) == Undecided ==>
        willDropItem == (if randomItem.Some? then WillDrop(randomItem.value) else NoDrop)
      ensures hasState && willDropItem.WillDrop? ==> dropped == Some(willDropItem.item.(position := Point(position.x, position.y)))
      ensures hasState && !willDropItem.WillDrop? ==> dropped == None
    {
      if !hasState {
        return None;
      }
      if willDropItem == Undecided {
        willDropItem := if randomItem.Some? then WillDrop(randomItem.value) else NoDrop;
      }
      if willDropItem.WillDrop? {
        dropped := Some(willDropItem.item.(position := Point(position.x, position.y)));
      } else {
        dropped := None;
      }
    }

    /**
     * onDie: become walkable, give every unit that hit this one its share of
     * the experience worth (divided by the number of contributors and by the
     * contributor's own level), then drop.
     */
    method OnDie(randomItem: Option<Item>) returns (dropped: Option<Item>)
      requires Valid()
      requires forall k :: 0 <= k < |damageTakenFrom| ==> damageTakenFrom[k].lvl >= 1
      modifies this`walkable, this`willDropItem
      modifies damageTakenFrom`lvl, damageTakenFrom`pointsToDistribute, damageTakenFrom`hp, damageTakenFrom`mp,
        damageTakenFrom`xp, damageTakenFrom`attributes
      ensures walkable && damageTakenFrom == old(damageTakenFrom)
      ensures forall k :: 0 <= k < |damageTakenFrom| ==>
        damageTakenFrom[k].Prog() == UnitRules.GainXp(old(damageTakenFrom[k].Prog()),
          XpShare(old(XpWorthNow()), |damageTakenFrom|, old(damageTakenFrom[k].lvl)),
          damageTakenFrom[k].kind == EnemyUnit, old(damageTakenFrom[k].primaryAttribute))
      ensures !hasState || !willDropItem.WillDrop? ==> dropped == None
      ensures hasState && old(willDropItem) != Undecided ==> willDropItem == old(willDropItem)
      ensures hasState && old(willDropItem) == Undecided ==>
        willDropItem == (if randomItem.Some? then WillDrop(randomItem.value) else NoDrop)
      ensures hasState && willDropItem.WillDrop? ==> dropped == Some(willDropItem.item.(position := Point(position.x, position.y)))
    {
      walkable := true;
      var worth := XpWorthNow();
      ShareXp(damageTakenFrom, worth);
      dropped := Drop(randomItem);
    }

    /** onKill: the killer forgets its pending steps. */
    method OnKill()
      modifies this`position
      ensures position == old(position).(pending := [])
    {
      position := position.(pending := []);
    }

    /** updateDirection towards (`x`, `y`). */
    method UpdateDirection(x: int, y: int)
      modifies this`direction
      ensures direction == NextFacing(position.x, position.y, x, y, old(direction))
    {
      if position.y > y && position.x < x {
        direction := Left;
      } else if position.y < y && position.x > x {
        direction := Right;
      } else if position.x < x {
        direction := Bottom;
      } else if position.x > x {
        direction := Top;
      } else if position.y > y {
        direction := Left;
      } else if position.y < y {
        direction := Right;
      }
    }
  }

  /**
   * onDie's loop: every contributor, once each, gains `worth` divided by the
   * number of contributors and by its own level; nothing but their progress
   * changes.
   */
  method ShareXp(contributors: seq<Unit>, worth: int)
    requires NoDuplicates(contributors)
    requires forall k :: 0 <= k < |contributors| ==> contributors[k].lvl >= 1
    modifies contributors`lvl, contributors`pointsToDistribute, contributors`hp, contributors`mp,
      contributors`xp, contributors`attributes
    ensures forall k :: 0 <= k < |contributors| ==>
      contributors[k].Prog() == UnitRules.GainXp(old(contributors[k].Prog()),
        XpShare(worth, |contributors|, old(contributors[k].lvl)),
        contributors[k].kind == EnemyUnit, old(contributors[k].primaryAttribute))
    ensures forall u :: u in contributors ==>
      u.primaryAttribute == old(u.primaryAttribute) && u.walkable == old(u.walkable) &&
      u.damageTakenFrom == old(u.damageTakenFrom) && u.position == old(u.position) &&
      u.hasState == old(u.hasState) && u.willDropItem == old(u.willDropItem)
  {
    var n := |contributors|;
    var i := 0;
    while i < n
      invariant 0 <= i <= n
      invariant forall k :: 0 <= k < i ==>
        contributors[k].Prog() == UnitRules.GainXp(old(contributors[k].Prog()), XpShare(worth, n, old(contributors[k].lvl)),
          contributors[k].kind == EnemyUnit, old(contributors[k].primaryAttribute))
      invariant forall k :: i <= k < n ==> contributors[k].Prog() == old(contributors[k].Prog())
      invariant forall u :: u in contributors ==>
        u.primaryAttribute == old(u.primaryAttribute) && u.walkable == old(u.walkable) &&
        u.damageTakenFrom == old(u.damageTakenFrom) && u.position == old(u.position) &&
        u.hasState == old(u.hasState) && u.willDropItem == old(u.willDropItem)
    {
      var u := contributors[i];
      u.GainXp(XpShare(worth, n, u.lvl));
      i := i + 1;
    }
  }

  /** A BattleAction, as far as the unit reads it: who attacks whom. */
  datatype Battle = Battle(attacker: Unit, defender: Unit)
}
