/**
 * client/elements/hud/Character.js: the character panel of the HUD. It
 * shows the hero's stats (totalled from the equipped items), the damage
 * range, the attributes with their bonuses and the level-up buttons, and
 * sends `distribute-point` events when an attribute button is pressed.
 * Icons, fonts, layout and the HTML hints are left out.
 */
module CharacterPanel {
  import opened Common
  import opened Text
  import opened Stats
  import opened UnitRules

  /** The hero data `update` receives. */
  datatype HeroView = HeroView(
    name: string,
    lvl: int,
    attributes: Attributes,
    primaryAttribute: Attribute,
    slots: seq<EquipSlot>,
    pointsToDistribute: int)

  /** The global `player` the panel also reads: its equipped items, primary attribute, points and level. */
  datatype PlayerView = PlayerView(slots: seq<EquipSlot>, primaryAttribute: Attribute, pointsToDistribute: int, progress: int)

  /** Every text the panel shows. */
  datatype PanelTexts = PanelTexts(
    stairs: string,
    level: string,
    movementSpeed: string,
    attackSpeed: string,
    attackDistance: string,
    damage: string,
    armor: string,
    strength: string,
    agility: string,
    intelligence: string,
    points: string)

  /** Which level-up buttons are visible: the main one and one per attribute. */
  datatype Buttons = Buttons(levelUp: bool, strength: bool, agility: bool, intelligence: bool)

  /** `baseArmor[primaryAttribute]`, in tenths. */
  function BaseArmorTenths(a: Attribute): int
  {
    match a
    case Strength => 0
    case Agility => -10
    case Intelligence => -15
  }

  /** `x.toFixed(1)` for `x` a whole number of tenths `t`. */
  function FixedTenths(t: int): string
  {
    var u := if t < 0 then -t else t;
    (if t < 0 then "-" else "") + NatToString(u / 10) + "." + [DigitChar(u % 10)]
  }

  /** An attribute's text: its base value, followed by `+bonus` when the bonus is not zero. */
  function AttributeText(base: int, bonus: int): string
  {
    IntToString(base) + (if bonus != 0 then "+" + IntToString(bonus) else "")
  }

  /** The damage text for the base damage `b`: one number without a damage bonus, `b-(b+bonus)` with one. */
  function DamageText(b: int, bonus: int): string
  {
    if bonus != 0 then IntToString(b) + "-" + IntToString(b + bonus) else IntToString(b)
  }

  /** getDamageAttribute, read from the global player. */
  function PanelDamageAttribute(player: PlayerView): Attribute
  {
    DamageAttribute(SlotItem(player.slots, "left"), player.primaryAttribute)
  }

  /**
   * The texts `update` writes for `data`, with `mods` the totals of its
   * equipped items; `mapkindLabel` is `humanize(mapkind)`, whose helper is
   * not part of this model.
   */
  function Texts(data: HeroView, player: PlayerView, mods: Mods, mapkindLabel: string): PanelTexts
    requires HasStatKeys(mods)
  {
    PanelKeysKnown(mods);
    PanelTexts(
      IntToString(player.progress) + " - " + mapkindLabel,
      data.name + " (Level " + IntToString(data.lvl) + ")",
      IntToString(mods[MovementSpeed]),
      FixedTenths(10 * mods[AttackSpeed]),
      IntToString(mods[AttackDistance]),
      DamageText(DamageBounds(data.attributes, mods, PanelDamageAttribute(player)).0, mods[Damage]),
      FixedTenths(10 * mods[Armor] + BaseArmorTenths(data.primaryAttribute)),
      AttributeText(data.attributes.strength, mods[Attr(Strength)]),
      AttributeText(data.attributes.agility, mods[Attr(Agility)]),
      AttributeText(data.attributes.intelligence, mods[Attr(Intelligence)]),
      IntToString(data.pointsToDistribute))
  }

  /**
   * updateLevelUpButtons. Without a player nothing changes; without
   * points every button hides; with points, the attribute buttons show
   * while the inventory is open and the main button while it is closed.
   */
  function LevelUpButtons(player: Option<PlayerView>, inventoryOpen: bool, current: Buttons): (r: Buttons)
    ensures player.None? ==> r == current
    ensures player.Some? ==> (r.strength == r.agility == r.intelligence)
    ensures player.Some? ==> (r.levelUp <==> player.value.pointsToDistribute > 0 && !inventoryOpen)
    ensures player.Some? ==> (r.strength <==> player.value.pointsToDistribute > 0 && inventoryOpen)
  {
    if player.None? then current
    else if !(player.value.pointsToDistribute > 0) then Buttons(false, false, false, false)
    else if inventoryOpen then Buttons(false, true, true, true)
    else Buttons(true, false, false, false)
  }

  class Character {
    var texts: PanelTexts
    var buttons: Buttons
    /** Attributes carried by the `distribute-point` events sent so far. */
    var distributed: seq<Attribute>

    /**
     * The stairs and level texts start as a blank, the others as "0".
     * LevelUpButton is not part of this model, so the buttons' initial
     * visibility is a parameter.
     */
    constructor (initialButtons: Buttons)
      ensures texts == PanelTexts(" ", " ", "0", "0", "0", "0", "0", "0", "0", "0", "0")
      ensures buttons == initialButtons && distributed == []
    {
      texts := PanelTexts(" ", " ", "0", "0", "0", "0", "0", "0", "0", "0", "0");
      buttons := initialButtons;
      distributed := [];
    }

    /**
     * update: no data changes nothing; otherwise total the equipped items'
     * modifiers, write every text and refresh the buttons with the global
     * player's points.
     */
    method Update(data: Option<HeroView>, player: PlayerView, inventoryOpen: bool, mapkindLabel: string)
      requires data.Some? ==> KnownModifiers(data.value.slots)
      modifies this`texts, this`buttons
      ensures data.None? ==> texts == old(texts) && buttons == old(buttons)
      ensures data.Some? ==> (texts == Texts(data.value, player, ModifierTotals(data.value.slots), mapkindLabel)
        && buttons == LevelUpButtons(Some(player), inventoryOpen, old(buttons)))
    {
      if data.None? {
        return;
      }
      var mods := AccumulateModifiers(data.value.slots);
      texts := Texts(data.value, player, mods, mapkindLabel);
      UpdateLevelUpButtons(Some(player), inventoryOpen);
    }

    method UpdateLevelUpButtons(player: Option<PlayerView>, inventoryOpen: bool)
      modifies this`buttons
      ensures buttons == LevelUpButtons(player, inventoryOpen, old(buttons))
    {
      if player.None? {
        return;
      }
      if !(player.value.pointsToDistribute > 0) {
        buttons := Buttons(false, false, false, false);
      } else if inventoryOpen {
        buttons := Buttons(false, true, true, true);
      } else {
        buttons := Buttons(true, false, false, false);
      }
    }

    /** onIncreaseAttribute: exactly one `distribute-point` event for `a`. */
    method OnIncreaseAttribute(a: Attribute)
      modifies this`distributed
      ensures distributed == old(distributed) + [a]
    {
      distributed := distributed + [a];
    }
  }

  // ----------------------------------------------------------------- lemmas

  lemma PanelKeysKnown(mods: Mods)
    requires HasStatKeys(mods)
    ensures Armor in mods && Damage in mods && MovementSpeed in mods && AttackDistance in mods && AttackSpeed in mods
    ensures forall a :: Attr(a) in mods
  {
    assert STAT_KEYS[5] == Armor && STAT_KEYS[6] == Damage && STAT_KEYS[7] == MovementSpeed;
    assert STAT_KEYS[8] == AttackDistance && STAT_KEYS[9] == AttackSpeed;
    forall a: Attribute
      ensures Attr(a) in mods
    {
      AttrKeyKnown(a);
    }
  }

  /** A rendered integer is a minus sign or digits, never a plus sign. */
  lemma NoPlusSign(n: int)
    ensures forall i :: 0 <= i < |IntToString(n)| ==> IntToString(n)[i] != '+'
  {
    IntToStringReadsBack(n);
    var s := IntToString(n);
    if |s| > 1 && s[0] == '-' && AllDigits(s[1..]) {
      forall i | 1 <= i < |s|
        ensures s[i] != '+'
      {
        assert s[1..][i - 1] == s[i];
      }
    }
  }

  /**
   * An attribute's text reads back: without a bonus it is the base value
   * alone and holds no `+`; with one, the first `+` separates the base
   * value from the bonus.
   */
  lemma AttributeTextReadsBack(base: int, bonus: int)
    ensures var s := AttributeText(base, bonus); var k := |IntToString(base)|;
      (forall i :: 0 <= i < k ==> s[i] != '+') &&
      (bonus == 0 ==> s == IntToString(base) && ParseDecimal(s) == Some(base)) &&
      (bonus != 0 ==> |s| > k && s[k] == '+' && ParseDecimal(s[..k]) == Some(base) && ParseDecimal(s[k + 1..]) == Some(bonus))
  {
    var s := AttributeText(base, bonus);
    var k := |IntToString(base)|;
    NoPlusSign(base);
    IntToStringReadsBack(base);
    IntToStringReadsBack(bonus);
    assert s[..k] == IntToString(base);
    if bonus != 0 {
      assert s[k + 1..] == IntToString(bonus);
    }
  }

  /**
   * The panel's damage text shows the same bounds the server rolls the
   * damage between (UnitRules.DamageBounds): a single number when the
   * items give no damage bonus, and for non-negative bounds `lo-hi`, whose
   * two numbers read back.
   */
  lemma DamageTextShowsRoll(data: HeroView, player: PlayerView, mods: Mods, mapkindLabel: string)
    requires HasStatKeys(mods)
    ensures var b := DamageBounds(data.attributes, mods, PanelDamageAttribute(player));
      var s := Texts(data, player, mods, mapkindLabel).damage;
      var k := |IntToString(b.0)|;
      (mods[Damage] == 0 ==> ParseDecimal(s) == Some(b.0) && b.0 == b.1) &&
      (mods[Damage] != 0 && b.0 >= 0 ==> |s| > k && s[k] == '-' && ParseDecimal(s[..k]) == Some(b.0) && ParseDecimal(s[k + 1..]) == Some(b.1))
  {
    var b := DamageBounds(data.attributes, mods, PanelDamageAttribute(player));
    DamageRangeWidth(data.attributes, mods, PanelDamageAttribute(player));
    PanelKeysKnown(mods);
    var s := DamageText(b.0, mods[Damage]);
    var k := |IntToString(b.0)|;
    IntToStringReadsBack(b.0);
    IntToStringReadsBack(b.1);
    if mods[Damage] != 0 {
      assert s[..k] == IntToString(b.0);
      assert s[k + 1..] == IntToString(b.1);
    }
  }

  /** `toFixed(1)` reads back: a leading `-` for negatives, the whole part's digits, a point and the tenths digit. */
  lemma FixedTenthsReadsBack(t: int)
    ensures var s := FixedTenths(t); var u := if t < 0 then -t else t; var off := if t < 0 then 1 else 0;
      |s| >= off + 3 && (s[0] == '-' <==> t < 0) && s[|s| - 2] == '.' &&
      s[|s| - 1] as int - '0' as int == u % 10 &&
      AllDigits(s[off..|s| - 2]) && DigitsValue(s[off..|s| - 2]) == u / 10
  {
    var u := if t < 0 then -t else t;
    var n := NatToString(u / 10);
    NatToStringReadsBack(u / 10);
    DigitCharValue(u % 10);
    assert IsDigit(n[0]);
    var s := FixedTenths(t);
    var off := if t < 0 then 1 else 0;
    assert s[off..|s| - 2] == n;
  }

  /** `toFixed(1)` renders distinct tenths differently. */
  lemma FixedTenthsInjective(a: int, b: int)
    ensures FixedTenths(a) == FixedTenths(b) ==> a == b
  {
    FixedTenthsReadsBack(a);
    FixedTenthsReadsBack(b);
    var ua, ub := if a < 0 then -a else a, if b < 0 then -b else b;
    assert ua == 10 * (ua / 10) + ua % 10;
    assert ub == 10 * (ub / 10) + ub % 10;
  }

  /** With no points to spend no button shows; with points, exactly one kind of button does. */
  lemma OneKindOfButton(player: PlayerView, inventoryOpen: bool, current: Buttons)
    ensures var r := LevelUpButtons(Some(player), inventoryOpen, current);
      (player.pointsToDistribute <= 0 ==> r == Buttons(false, false, false, false)) &&
      (player.pointsToDistribute > 0 ==> r.levelUp != r.strength)
  {
  }
}
