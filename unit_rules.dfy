/**
 * The arithmetic of server/entities/Unit.ts, on values: derived stats,
 * experience worth and shares, the facing rule, and the effect of gaining
 * experience and levelling up.
 */
module UnitRules {
  import opened Common
  import opened Stats
  import opened Bars

  const BASE_MOVEMENT_SPEED: int := 1200
  const BASE_ATTACK_SPEED: int := 1000
  const XP_PER_LEVEL: int := 50
  const HP_REGENERATION_INTERVAL: int := 30000

  function HpMax(baseHp: int, attrs: Attributes, mods: Mods): int
    requires HasStatKeys(mods)
  {
    baseHp + (attrs.strength + mods[Attr(Strength)] + mods[Hp]) * 3
  }

  function MpMax(baseMp: int, attrs: Attributes, mods: Mods): int
    requires HasStatKeys(mods)
  {
    baseMp + (attrs.intelligence + mods[Attr(Intelligence)] + mods[Mp]) * 3
  }

  /** Milliseconds per step. */
  function MovementSpeedOf(attrs: Attributes, mods: Mods): int
    requires HasStatKeys(mods)
  {
    BASE_MOVEMENT_SPEED - (attrs.agility + mods[MovementSpeed]) * 10
  }

  /** Milliseconds per attack. */
  function AttackSpeedOf(attrs: Attributes, mods: Mods): int
    requires HasStatKeys(mods)
  {
    BASE_ATTACK_SPEED - (mods[AttackSpeed] + attrs.agility) * 10
  }

  function AttackDistanceOf(mods: Mods): int
    requires HasStatKeys(mods)
  {
    1 + mods[AttackDistance]
  }

  /** Lowest and highest damage roll for the given damage attribute. */
  function DamageBounds(attrs: Attributes, mods: Mods, a: Attribute): (int, int)
    requires HasStatKeys(mods)
  {
    AttrKeyKnown(a);
    var lo := attrs.Get(a) + mods[Attr(a)];
    (lo, lo + mods[Damage])
  }

  /** `d` lies between the two bounds, whichever order they come in. */
  predicate Between(lo: int, hi: int, d: int)
  {
    (lo <= d <= hi) || (hi <= d <= lo)
  }

  function XpMax(lvl: int): int
  {
    lvl * XP_PER_LEVEL
  }

  /** Sum of the values a modifier map holds for `keys`. */
  function SumOver(keys: seq<StatName>, mods: Mods): int
    requires forall i :: 0 <= i < |keys| ==> keys[i] in mods
  {
    if keys == [] then 0 else mods[keys[0]] + SumOver(keys[1..], mods)
  }

  /** getXPWorth: every attribute and every modifier, times the level. */
  function XpWorth(attrs: Attributes, mods: Mods, lvl: int): int
    requires HasStatKeys(mods)
  {
    (attrs.Total() + SumOver(STAT_KEYS, mods)) * lvl
  }

  /** Experience a contributor of level `lvl` receives when a unit worth `worth` dies after `n` contributors hit it. */
  function XpShare(worth: int, n: nat, lvl: int): real
    requires n > 0 && lvl != 0
  {
    (worth as real / n as real) / lvl as real
  }

  datatype Facing = Bottom | Left | Top | Right

  /** updateDirection, facing a unit at (`x`, `y`) towards (`nx`, `ny`). */
  function NextFacing(x: int, y: int, nx: int, ny: int, current: Facing): Facing
  {
    if y > ny && x < nx then Left
    else if y < ny && x > nx then Right
    else if x < nx then Bottom
    else if x > nx then Top
    else if y > ny then Left
    else if y < ny then Right
    else current
  }

  /** The parts of a unit that gaining experience can change. */
  datatype Progress = Progress(lvl: int, xp: Bar, hp: Bar, mp: Bar, points: int, attributes: Attributes)

  /**
   * onLevelUp, with Enemy's override when `spendOnPrimary`: the enemy spends
   * every free point on its primary attribute.
   */
  function LevelUp(p: Progress, spendOnPrimary: bool, primary: Attribute): Progress
  {
    var up := Progress(p.lvl + 1, Bar(0.0, XpMax(p.lvl + 1) as real), p.hp.Filled(), p.mp.Filled(), p.points + 2, p.attributes);
    if spendOnPrimary && up.points > 0 then
      up.(attributes := up.attributes.With(primary, up.attributes.Get(primary) + up.points), points := 0)
    else up
  }

  /** `xp.increment(v)`; reaching the maximum fires the level-up listener. */
  function GainXp(p: Progress, v: real, spendOnPrimary: bool, primary: Attribute): Progress
  {
    var c := p.xp.current + v;
    if c >= p.xp.max then LevelUp(p, spendOnPrimary, primary) else p.(xp := p.xp.(current := c))
  }

  // ---------------------------------------------------------------- lemmas

  /** Each agility point makes steps and attacks 10 ms faster; each strength point adds 3 hp. */
  lemma AttributePointEffects(attrs: Attributes, mods: Mods)
    requires HasStatKeys(mods)
    ensures MovementSpeedOf(attrs.(agility := attrs.agility + 1), mods) == MovementSpeedOf(attrs, mods) - 10
    ensures AttackSpeedOf(attrs.(agility := attrs.agility + 1), mods) == AttackSpeedOf(attrs, mods) - 10
    ensures HpMax(10, attrs.(strength := attrs.strength + 1), mods) == HpMax(10, attrs, mods) + 3
    ensures MpMax(10, attrs.(intelligence := attrs.intelligence + 1), mods) == MpMax(10, attrs, mods) + 3
  {
  }

  /** A damage roll spans exactly the damage modifier above the attribute's own value. */
  lemma DamageRangeWidth(attrs: Attributes, mods: Mods, a: Attribute)
    requires HasStatKeys(mods)
    ensures DamageBounds(attrs, mods, a).1 - DamageBounds(attrs, mods, a).0 == mods[Damage]
    ensures DamageBounds(attrs, mods, a).0 == attrs.Get(a) + mods[Attr(a)]
  {
    AttrKeyKnown(a);
  }

  lemma {:induction false} SumOverZero(keys: seq<StatName>, mods: Mods)
    requires forall i :: 0 <= i < |keys| ==> keys[i] in mods && mods[keys[i]] == 0
    ensures SumOver(keys, mods) == 0
    decreases |keys|
  {
    if keys != [] {
      SumOverZero(keys[1..], mods);
    }
  }

  /** A unit with no modifiers is worth its attribute total times its level. */
  lemma WorthWithoutModifiers(attrs: Attributes, mods: Mods, lvl: int)
    requires HasStatKeys(mods) && forall k :: k in STAT_KEY_SET ==> mods[k] == 0
    ensures XpWorth(attrs, mods, lvl) == attrs.Total() * lvl
  {
    SumOverZero(STAT_KEYS, mods);
  }

  /** The shares reconstruct the worth: each contributor gets worth/n once divided back by its own level. */
  lemma XpShareScales(worth: int, n: nat, lvl: int)
    requires n > 0 && lvl != 0
    ensures XpShare(worth, n, lvl) * lvl as real * n as real == worth as real
  {
    var w, nr, l := worth as real, n as real, lvl as real;
    calc {
      XpShare(worth, n, lvl) * l * nr;
      ((w / nr) / l) * l * nr;
      { assert ((w / nr) / l) * l == w / nr; }
      (w / nr) * nr;
      w;
    }
  }

  /** A unit worth 40 killed by two contributors of levels 5 and 10 gives them 4 and 2. */
  lemma XpShareExample()
    ensures XpShare(40, 2, 5) == 4.0 && XpShare(40, 2, 10) == 2.0
  {
  }

  /** Moving to each neighbour faces the unit as the client expects. */
  lemma FacingNeighbours(x: int, y: int, f: Facing)
    ensures NextFacing(x, y, x + 1, y, f) == Bottom
    ensures NextFacing(x, y, x - 1, y, f) == Top
    ensures NextFacing(x, y, x, y + 1, f) == Right
    ensures NextFacing(x, y, x, y - 1, f) == Left
    ensures NextFacing(x, y, x + 1, y - 1, f) == Left
    ensures NextFacing(x, y, x - 1, y + 1, f) == Right
    ensures NextFacing(x, y, x + 1, y + 1, f) == Bottom
    ensures NextFacing(x, y, x - 1, y - 1, f) == Top
    ensures NextFacing(x, y, x, y, f) == f
  {
  }

  /** Facing only stays unchanged when the target is the unit's own tile. */
  lemma FacingKeptOnlyInPlace(x: int, y: int, nx: int, ny: int, f: Facing)
    ensures (forall g :: NextFacing(x, y, nx, ny, g) == g) <==> (x == nx && y == ny)
  {
    if x != nx || y != ny {
      var g := if NextFacing(x, y, nx, ny, Bottom) == Bottom then Top else Bottom;
      assert NextFacing(x, y, nx, ny, g) != g;
    }
  }

  /** Levelling up adds exactly one level and two points, refills the bars and resets experience. */
  lemma LevelUpEffects(p: Progress, primary: Attribute)
    ensures var r := LevelUp(p, false, primary);
      r.lvl == p.lvl + 1 && r.points == p.points + 2 &&
      r.hp.current == r.hp.max == p.hp.max && r.mp.current == r.mp.max == p.mp.max &&
      r.xp.current == 0.0 && r.xp.max == (50 * (p.lvl + 1)) as real && r.attributes == p.attributes
  {
  }

  /** An enemy ends the level-up with no free points, its primary attribute grown by what it held. */
  lemma EnemyLevelUpSpendsPoints(p: Progress, primary: Attribute)
    requires p.points >= -1
    ensures var r := LevelUp(p, true, primary);
      r.points == 0 && r.attributes.Get(primary) == p.attributes.Get(primary) + p.points + 2 &&
      (forall b :: b != primary ==> r.attributes.Get(b) == p.attributes.Get(b))
  {
  }

  /**
   * Enemy.onLevelUp as the source stands: an enemy's `pointsToDistribute`
   * is never assigned, so `+= 2` leaves NaN (here `None`, an undefined or NaN
   * number), `NaN > 0` is false and the loop spends nothing.
   */
  function EnemyLevelUpAsWritten(points: Option<int>, attributes: Attributes, primary: Attribute): (r: (Option<int>, Attributes))
    ensures points.None? ==> r.0.None?
    ensures points.Some? && points.value + 2 > 0 ==> r.0 == Some(0)
  {
    var up := if points.Some? then Some(points.value + 2) else None;
    if up.Some? && up.value > 0 then (Some(0), attributes.With(primary, attributes.Get(primary) + up.value))
    else (up, attributes)
  }

  /** The discrepancy: a fresh enemy (points never set) reaches the next level with its primary attribute unchanged. */
  lemma EnemyLevelUpAsWrittenSpendsNothing(attributes: Attributes, primary: Attribute)
    ensures EnemyLevelUpAsWritten(None, attributes, primary).1 == attributes
    ensures EnemyLevelUpAsWritten(None, attributes, primary).1.Get(primary) != attributes.Get(primary) + 2
  {
  }

  /** A gain levels up if and only if it reaches the maximum, and never by more than one level. */
  lemma GainXpLevelsOnce(p: Progress, v: real, spend: bool, primary: Attribute)
    ensures GainXp(p, v, spend, primary).lvl == p.lvl + 1 <==> p.xp.current + v >= p.xp.max
    ensures GainXp(p, v, spend, primary).lvl <= p.lvl + 1
  {
  }

  /** Experience stays below its maximum for any unit of level one or more. */
  lemma GainXpStaysBelowMax(p: Progress, v: real, spend: bool, primary: Attribute)
    requires p.lvl >= 1
    ensures GainXp(p, v, spend, primary).xp.current < GainXp(p, v, spend, primary).xp.max
  {
  }
}
