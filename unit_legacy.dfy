/**
 * server/entities/Unit.js, the older JavaScript unit: four attributes,
 * experience from kills computed from the two levels, and a level-up that
 * raises every attribute.
 */
module LegacyUnitModel {
  import opened Common
  import opened Bars
  import opened UnitRules

  datatype AttributeEntry = AttributeEntry(name: string, value: int)

  /** The attribute object of a fresh unit, in key order. */
  const INITIAL_ATTRIBUTES: seq<AttributeEntry> := [
    AttributeEntry("strenght", 1), AttributeEntry("dexterity", 1),
    AttributeEntry("intelligence", 1), AttributeEntry("vitality", 1)
  ]

  /** What update hands on to: both the action and the movement, or the movement's own step. */
  datatype LegacyStep = Idle | ActionAndTouch | MovementStep

  function Raised(attrs: seq<AttributeEntry>): (r: seq<AttributeEntry>)
    ensures |r| == |attrs|
    ensures forall i :: 0 <= i < |r| ==> r[i].name == attrs[i].name && r[i].value == attrs[i].value + 1
  {
    seq(|attrs|, i requires 0 <= i < |attrs| => attrs[i].(value := attrs[i].value + 1))
  }

  function AttributeTotal(attrs: seq<AttributeEntry>): int
  {
    if attrs == [] then 0 else AttributeTotal(attrs[..|attrs| - 1]) + attrs[|attrs| - 1].value
  }

  /** Experience for killing a unit of level `killed` at level `killer`: `killed / (killer / 4)`. */
  function KillXp(killed: int, killer: int): real
    requires killer != 0
  {
    killed as real / (killer as real / 4.0)
  }

  /** onKill's experience step: past the maximum, level up once and keep the excess. */
  function KillOutcome(current: real, max: real, gained: real): (bool, real)
  {
    if current + gained > max then (true, current + gained - max) else (false, current + gained)
  }

  class LegacyUnit {
    const id: string
    var lvl: int
    var hp: Bar
    var mp: Bar
    var xp: Bar
    var attributes: seq<AttributeEntry>
    var action: Option<LegacyBattle>
    var direction: Facing
    var armor: int
    var damage: int
    var damageAttribute: string
    var walkSpeed: int
    var attackDistance: int
    var attackSpeed: int
    var hasState: bool
    /** Requests made to the state's dropItemFrom on this unit's behalf. */
    var dropRequests: nat

    /**
     * The constructor. `Bar(50)` is read as a full bar of 50, `Bar(0, 10)` as
     * 0 out of 10 (server/core/Bar is not part of this model). The level is
     * set by Entity, which is not part of this model either: it is a parameter.
     */
    constructor (id: string, lvl: int)
      ensures this.id == id && this.lvl == lvl
      ensures hp == Bar(50.0, 50.0) && mp == Bar(0.0, 0.0) && xp == Bar(0.0, 10.0)
      ensures attributes == INITIAL_ATTRIBUTES && action == None && direction == Bottom
      ensures armor == 1 && damage == 1 && damageAttribute == "strenght"
      ensures walkSpeed == 1000 && attackDistance == 1 && attackSpeed == 2000
      ensures !hasState && dropRequests == 0
    {
      this.id := id;
      this.lvl := lvl;
      hp := Bar(50.0, 50.0);
      mp := Bar(0.0, 0.0);
      xp := Bar(0.0, 10.0);
      attributes := INITIAL_ATTRIBUTES;
      action := None;
      direction := Bottom;
      armor := 1;
      damage := 1;
      damageAttribute := "strenght";
      walkSpeed := 1000;
      attackDistance := 1;
      attackSpeed := 2000;
      hasState := false;
      dropRequests := 0;
    }

    predicate IsAlive()
      reads this
    {
      hp.current > 0.0
    }

    predicate IsBattlingAgainst(u: LegacyUnit?)
      reads this
    {
      action.Some? && action.value.defender == u
    }

    /** update: the action (when eligible) runs before the movement is touched; otherwise the movement steps. */
    method Update(currentTime: int, actionEligible: bool) returns (step: LegacyStep)
      ensures step == (if !IsAlive() then Idle else if action.Some? && actionEligible then ActionAndTouch else MovementStep)
    {
      if !IsAlive() {
        return Idle;
      }
      if action.Some? && actionEligible {
        step := ActionAndTouch;
      } else {
        step := MovementStep;
      }
    }

    /** drop: ask the state for a drop, when the unit has one. */
    method Drop()
      modifies this`dropRequests
      ensures dropRequests == if hasState then old(dropRequests) + 1 else old(dropRequests)
    {
      if hasState {
        dropRequests := dropRequests + 1;
      }
    }

    method Attack(defender: LegacyUnit?)
      modifies this`action
      ensures defender == null || !defender.IsAlive() ==> action == None
      ensures defender != null && defender.IsAlive() && old(IsBattlingAgainst(defender)) ==> action == old(action)
      ensures defender != null && defender.IsAlive() && !old(IsBattlingAgainst(defender)) ==> action == Some(LegacyBattle(this, defender))
    {
      if defender == null || !defender.IsAlive() {
        action := None;
      } else if !IsBattlingAgainst(defender) {
        action := Some(LegacyBattle(this, defender));
      }
    }

    method TakeDamage(taken: real) returns (r: real)
      modifies this`hp
      ensures r == taken && hp == Bar(old(hp.current) - taken, old(hp.max))
    {
      hp := hp.(current := hp.current - taken);
      r := taken;
    }

    /** levelUp: one more level, every attribute raised by one, bars refilled, experience reset (its maximum is kept). */
    method LevelUp()
      modifies this`lvl, this`attributes, this`hp, this`mp, this`xp
      ensures lvl == old(lvl) + 1
      ensures attributes == Raised(old(attributes))
      ensures hp == old(hp).Filled() && mp == old(mp).Filled() && xp == Bar(0.0, old(xp.max))
    {
      lvl := lvl + 1;
      var i := 0;
      ghost var before := attributes;
      while i < |attributes|
        invariant 0 <= i <= |attributes| == |before|
        invariant forall k :: 0 <= k < i ==> attributes[k] == before[k].(value := before[k].value + 1)
        invariant forall k :: i <= k < |attributes| ==> attributes[k] == before[k]
        invariant lvl == old(lvl) + 1 && hp == old(hp) && mp == old(mp) && xp == old(xp)
      {
        attributes := attributes[i := attributes[i].(value := attributes[i].value + 1)];
        i := i + 1;
      }
      assert attributes == Raised(before);
      hp := hp.(current := hp.max);
      mp := mp.(current := mp.max);
      xp := xp.(current := 0.0);
    }

    /**
     * onKill: the killer gains `unit.lvl / (this.lvl / 4)` experience,
     * levelling up once (and keeping the excess) when that passes the
     * maximum; the killed unit drops when it has a state.
     */
    method OnKill(unit: LegacyUnit)
      requires lvl != 0
      modifies this`lvl, this`attributes, this`hp, this`mp, this`xp, unit`dropRequests
      ensures var o := KillOutcome(old(xp.current), old(xp.max), KillXp(old(unit.lvl), old(lvl)));
        xp == Bar(o.1, old(xp.max)) &&
        lvl == (if o.0 then old(lvl) + 1 else old(lvl)) &&
        attributes == (if o.0 then Raised(old(attributes)) else old(attributes)) &&
        hp == (if o.0 then old(hp).Filled() else old(hp)) &&
        mp == (if o.0 then old(mp).Filled() else old(mp))
      ensures unit.dropRequests == (if old(unit.hasState) then old(unit.dropRequests) + 1 else old(unit.dropRequests))
    {
      var gained := unit.lvl as real / (lvl as real / 4.0);
      if xp.current + gained > xp.max {
        gained := (xp.current + gained) - xp.max;
        LevelUp();
      }
      if unit.hasState {
        unit.Drop();
      }
      xp := xp.(current := xp.current + gained);
    }
  }

  datatype LegacyBattle = LegacyBattle(attacker: LegacyUnit, defender: LegacyUnit)

  /** The kill formula is four times the ratio of the two levels. */
  lemma KillXpIsRatio(killed: int, killer: int)
    requires killer != 0
    ensures KillXp(killed, killer) == 4.0 * killed as real / killer as real
  {
  }

  /** Killing a unit of one's own level gives 4 experience. */
  lemma KillXpSameLevel(lvl: int)
    requires lvl != 0
    ensures KillXp(lvl, lvl) == 4.0
  {
    KillXpIsRatio(lvl, lvl);
    var r := lvl as real;
    assert 4.0 * r / r == 4.0 * (r / r);
  }

  /** A level-up takes place exactly when the gain passes the maximum, and the excess is kept. */
  lemma KillOutcomeCarriesExcess(current: real, max: real, gained: real)
    ensures KillOutcome(current, max, gained).0 <==> current + gained > max
    ensures KillOutcome(current, max, gained).0 ==> KillOutcome(current, max, gained).1 + max == current + gained
  {
  }

  /** Only one level-up per kill: one large gain can leave experience above the kept maximum. */
  lemma OneLevelPerKill()
    ensures KillOutcome(0.0, 10.0, 25.0) == (true, 15.0)
  {
  }

  lemma {:induction false} RaisedTotal(attrs: seq<AttributeEntry>)
    ensures AttributeTotal(Raised(attrs)) == AttributeTotal(attrs) + |attrs|
    decreases |attrs|
  {
    if attrs != [] {
      var init := attrs[..|attrs| - 1];
      assert Raised(attrs)[..|attrs| - 1] == Raised(init);
      RaisedTotal(init);
    }
  }
}
