/**
 * server/entities/skills/MovementSpeedSkill.ts: a timed skill that raises
 * the unit's movement-speed boost by half its agility, at most 20, and takes
 * back exactly what it gave. The base Skill class is not part of this
 * model.
 */
module Skills {
  import opened Common
  import opened Stats
  import opened UnitModel

  const MAX_SPEED_BOOST: int := 20

  /** `min(floor(agility / 2), 20)`. */
  function SpeedBoost(agility: int): (v: int)
    ensures v <= MAX_SPEED_BOOST
    ensures agility >= 0 ==> 0 <= v
    ensures agility >= 2 * MAX_SPEED_BOOST ==> v == MAX_SPEED_BOOST
    ensures agility < 2 * MAX_SPEED_BOOST ==> 2 * v <= agility < 2 * v + 2
  {
    Min(agility / 2, MAX_SPEED_BOOST)
  }

  /** The boost map with `delta` added to the movement-speed entry and nothing else changed. */
  function Boosted(m: Mods, delta: int): (r: Mods)
    requires MovementSpeed in m
    ensures r.Keys == m.Keys
    ensures r[MovementSpeed] == m[MovementSpeed] + delta
    ensures forall k :: k in m && k != MovementSpeed ==> r[k] == m[k]
  {
    m[MovementSpeed := m[MovementSpeed] + delta]
  }

  class MovementSpeedSkill {
    const name: string
    const manaCost: int
    const duration: int
    /** What the last activation added; unset until the first one. */
    var increasedValue: Option<int>

    constructor ()
      ensures name == "movement-speed" && manaCost == 10 && duration == 2000 && increasedValue == None
    {
      name := "movement-speed";
      manaCost := 10;
      duration := 2000;
      increasedValue := None;
    }

    /** activate: record the boost for the unit's current agility and add it. */
    method Activate(unit: Unit)
      requires MovementSpeed in unit.statsBoostModifiers
      modifies this`increasedValue, unit`statsBoostModifiers
      ensures increasedValue == Some(SpeedBoost(unit.attributes.agility))
      ensures unit.statsBoostModifiers == Boosted(old(unit.statsBoostModifiers), SpeedBoost(unit.attributes.agility))
    {
      increasedValue := Some(SpeedBoost(unit.attributes.agility));
      unit.statsBoostModifiers := unit.statsBoostModifiers[MovementSpeed := unit.statsBoostModifiers[MovementSpeed] + increasedValue.value];
    }

    /**
     * deactivate: subtract the recorded boost, whatever the agility is now.
     * Before any activation the source subtracts `undefined`; that case is
     * outside what it handles.
     */
    method Deactivate(unit: Unit)
      requires increasedValue.Some? && MovementSpeed in unit.statsBoostModifiers
      modifies unit`statsBoostModifiers
      ensures unit.statsBoostModifiers == Boosted(old(unit.statsBoostModifiers), -increasedValue.value)
    {
      unit.statsBoostModifiers := unit.statsBoostModifiers[MovementSpeed := unit.statsBoostModifiers[MovementSpeed] - increasedValue.value];
    }
  }

  /** Taking back the boost that was given restores the boost map exactly. */
  lemma BoostRoundTrip(m: Mods, v: int)
    requires MovementSpeed in m
    ensures Boosted(Boosted(m, v), -v) == m
  {
  }

  /**
   * Activation followed by deactivation restores the boosts even when the
   * agility changed in between; recomputing from the new agility would not.
   */
  lemma DeactivateUsesRecordedBoost(m: Mods, agilityBefore: int, agilityAfter: int)
    requires MovementSpeed in m
    ensures Boosted(Boosted(m, SpeedBoost(agilityBefore)), -SpeedBoost(agilityBefore)) == m
    ensures 0 <= agilityBefore < agilityAfter < 2 * MAX_SPEED_BOOST && agilityAfter - agilityBefore >= 2 ==>
      Boosted(Boosted(m, SpeedBoost(agilityBefore)), -SpeedBoost(agilityAfter)) != m
  {
    BoostRoundTrip(m, SpeedBoost(agilityBefore));
    if 0 <= agilityBefore < agilityAfter < 2 * MAX_SPEED_BOOST && agilityAfter - agilityBefore >= 2 {
      var r := Boosted(Boosted(m, SpeedBoost(agilityBefore)), -SpeedBoost(agilityAfter));
      assert r[MovementSpeed] != m[MovementSpeed];
    }
  }
}
