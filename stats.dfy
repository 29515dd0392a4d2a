/**
 * Attributes, stat modifiers and equipped items, shared by the server's
 * Unit and the client's character panel, which both total the modifiers
 * of the equipped items the same way.
 */
module Stats {
  import opened Common

  datatype Attribute = Strength | Agility | Intelligence

  /** Keys a modifier may name. `AiDistance` only occurs in enemy configurations. */
  datatype StatName =
    | Hp | Mp | Xp
    | Attr(attribute: Attribute)
    | Armor | Damage | MovementSpeed | AttackDistance | AttackSpeed
    | Evasion | CriticalStrikeChance
    | AiDistance

  /** The keys of a fresh `statsModifiers` object, in declaration order. */
  const STAT_KEYS: seq<StatName> := [
    Hp, Mp,
    Attr(Strength), Attr(Agility), Attr(Intelligence),
    Armor, Damage, MovementSpeed, AttackDistance, AttackSpeed,
    Evasion, CriticalStrikeChance
  ]

  const STAT_KEY_SET: set<StatName> := set k | k in STAT_KEYS

  type Mods = map<StatName, int>

  /** A modifier map carrying every key of a fresh `statsModifiers` object. */
  predicate HasStatKeys(m: Mods)
  {
    STAT_KEY_SET <= m.Keys
  }

  lemma AttrKeyKnown(a: Attribute)
    ensures Attr(a) in STAT_KEY_SET
  {
    match a
    case Strength => assert STAT_KEYS[2] == Attr(a);
    case Agility => assert STAT_KEYS[3] == Attr(a);
    case Intelligence => assert STAT_KEYS[4] == Attr(a);
  }

  datatype Attributes = Attributes(strength: int, agility: int, intelligence: int)
  {
    function Get(a: Attribute): int
    {
      match a
      case Strength => strength
      case Agility => agility
      case Intelligence => intelligence
    }

    function With(a: Attribute, v: int): (r: Attributes)
      ensures r.Get(a) == v
      ensures forall b :: b != a ==> r.Get(b) == Get(b)
      ensures v == Get(a) ==> r == this
    {
      match a
      case Strength => this.(strength := v)
      case Agility => this.(agility := v)
      case Intelligence => this.(intelligence := v)
    }

    function Total(): int
    {
      strength + agility + intelligence
    }
  }

  /** Entity type of an item, as far as the items in this model need it. */
  datatype ItemType =
    | HpPotion(hpTier: int)
    | MpPotion(mpTier: int)
    | XpPotion(xpTier: int)
    | ElixirPotion
    | NamedItem(name: string)

  datatype Modifier = Modifier(attr: StatName, modifier: int)

  datatype Item = Item(
    id: string,
    itemType: ItemType,
    modifiers: seq<Modifier>,
    damageAttribute: Option<Attribute>,
    consumable: bool,
    position: Point)

  /** One named slot of the equipped items; `item` is `None` when the slot is empty. */
  datatype EquipSlot = EquipSlot(name: string, item: Option<Item>)

  /** Sum of the modifiers in `mods` naming `k`. */
  function ItemContribution(mods: seq<Modifier>, k: StatName): int
  {
    if mods == [] then 0
    else ItemContribution(mods[..|mods| - 1], k) + (if mods[|mods| - 1].attr == k then mods[|mods| - 1].modifier else 0)
  }

  function SlotContribution(slot: EquipSlot, k: StatName): int
  {
    if slot.item.Some? then ItemContribution(slot.item.value.modifiers, k) else 0
  }

  /** Sum, over every equipped item, of its modifiers naming `k`. */
  function EquipmentTotal(slots: seq<EquipSlot>, k: StatName): int
  {
    if slots == [] then 0
    else EquipmentTotal(slots[..|slots| - 1], k) + SlotContribution(slots[|slots| - 1], k)
  }

  function ModifierTotals(slots: seq<EquipSlot>): Mods
  {
    map k | k in STAT_KEY_SET :: EquipmentTotal(slots, k)
  }

  /** Every modifier of an equipped item names a key of `statsModifiers`. */
  predicate KnownModifiers(slots: seq<EquipSlot>)
  {
    forall i, j :: 0 <= i < |slots| && slots[i].item.Some? && 0 <= j < |slots[i].item.value.modifiers| ==>
      slots[i].item.value.modifiers[j].attr in STAT_KEY_SET
  }

  /** Item in the first slot called `name`, as `slots[name]` reads it. */
  function SlotItem(slots: seq<EquipSlot>, name: string): (r: Option<Item>)
    ensures r.Some? ==> exists i :: 0 <= i < |slots| && slots[i].name == name && slots[i].item == r
    ensures (forall i :: 0 <= i < |slots| ==> slots[i].name != name) ==> r == None
  {
    if slots == [] then None
    else if slots[0].name == name then slots[0].item
    else SlotItem(slots[1..], name)
  }

  /** The weapon's damage attribute when it has one, otherwise the primary attribute. */
  function DamageAttribute(weapon: Option<Item>, primary: Attribute): Attribute
  {
    if weapon.Some? && weapon.value.damageAttribute.Some? then weapon.value.damageAttribute.value else primary
  }

  /**
   * The loop shared by recalculateStatsModifiers (server) and the character
   * panel's update (client): zero every key, then add each modifier of each
   * equipped item to the key it names.
   */
  method AccumulateModifiers(slots: seq<EquipSlot>) returns (mods: Mods)
    requires KnownModifiers(slots)
    ensures mods == ModifierTotals(slots)
  {
    mods := map k | k in STAT_KEY_SET :: 0;
    var i := 0;
    while i < |slots|
      invariant 0 <= i <= |slots|
      invariant mods.Keys == STAT_KEY_SET
      invariant forall k :: k in STAT_KEY_SET ==> mods[k] == EquipmentTotal(slots[..i], k)
    {
      assert slots[..i + 1][..i] == slots[..i];
      if slots[i].item.Some? {
        mods := AddModifiers(mods, slots[i].item.value.modifiers);
      }
      i := i + 1;
    }
    assert slots[..|slots|] == slots;
  }

  /** The inner loop: `item.modifiers.forEach(m => mods[m.attr] += m.modifier)`. */
  method AddModifiers(mods: Mods, ms: seq<Modifier>) returns (r: Mods)
    requires mods.Keys == STAT_KEY_SET
    requires forall j :: 0 <= j < |ms| ==> ms[j].attr in STAT_KEY_SET
    ensures r.Keys == STAT_KEY_SET
    ensures forall k :: k in STAT_KEY_SET ==> r[k] == mods[k] + ItemContribution(ms, k)
  {
    r := mods;
    var j := 0;
    while j < |ms|
      invariant 0 <= j <= |ms|
      invariant r.Keys == STAT_KEY_SET
      invariant forall k :: k in STAT_KEY_SET ==> r[k] == mods[k] + ItemContribution(ms[..j], k)
    {
      assert ms[..j + 1][..j] == ms[..j];
      r := r[ms[j].attr := r[ms[j].attr] + ms[j].modifier];
      j := j + 1;
    }
    assert ms[..|ms|] == ms;
  }

  lemma {:induction false} EquipmentTotalAppend(a: seq<EquipSlot>, b: seq<EquipSlot>, k: StatName)
    ensures EquipmentTotal(a + b, k) == EquipmentTotal(a, k) + EquipmentTotal(b, k)
    decreases |b|
  {
    if b == [] {
      assert a + b == a;
    } else {
      var b' := b[..|b| - 1];
      assert (a + b)[..|a + b| - 1] == a + b';
      EquipmentTotalAppend(a, b', k);
    }
  }

  /** Equipping an item into an empty slot adds exactly that item's modifiers to every total. */
  lemma EquipIntoEmptySlot(slots: seq<EquipSlot>, i: int, item: Item, k: StatName)
    requires 0 <= i < |slots| && slots[i].item.None?
    ensures EquipmentTotal(slots[i := EquipSlot(slots[i].name, Some(item))], k)
         == EquipmentTotal(slots, k) + ItemContribution(item.modifiers, k)
  {
    var s := EquipSlot(slots[i].name, Some(item));
    var before, after := slots[..i], slots[i + 1..];
    assert slots == before + [slots[i]] + after;
    assert slots[i := s] == before + [s] + after;
    EquipmentTotalAppend(before + [slots[i]], after, k);
    EquipmentTotalAppend(before + [s], after, k);
    EquipmentTotalAppend(before, [slots[i]], k);
    EquipmentTotalAppend(before, [s], k);
    assert [slots[i]][..0] == [] && [s][..0] == [];
  }

  /** With nothing equipped every modifier is zero. */
  lemma {:induction false} NothingEquippedMeansZero(slots: seq<EquipSlot>, k: StatName)
    requires forall i :: 0 <= i < |slots| ==> slots[i].item.None?
    ensures EquipmentTotal(slots, k) == 0
    decreases |slots|
  {
    if slots != [] {
      NothingEquippedMeansZero(slots[..|slots| - 1], k);
    }
  }
}
