/**
 * Consumable items: server/entities/items/ConsumableItem.ts (picking into
 * the quick inventory or the bag, the default `use`) and
 * server/entities/items/consumable/Potion.ts (the potion's type from its
 * modifier, and drinking it). Items are values (Stats.Item); a potion's
 * `addModifier` returns the updated item.
 */
module ItemRules {
  import opened Common
  import opened Stats
  import opened Bars
  import opened Text
  import opened UnitRules
  import opened UnitModel
  import opened DungeonStateModel

  const POTION_TEXT_TTL: int := 100

  /** The key a modifier names, as spelled in the hero documents. */
  function KeyName(k: StatName): string
  {
    match k
    case Hp => "hp"
    case Mp => "mp"
    case Xp => "xp"
    case Attr(Strength) => "strength"
    case Attr(Agility) => "agility"
    case Attr(Intelligence) => "intelligence"
    case Armor => "armor"
    case Damage => "damage"
    case MovementSpeed => "movementSpeed"
    case AttackDistance => "attackDistance"
    case AttackSpeed => "attackSpeed"
    case Evasion => "evasion"
    case CriticalStrikeChance => "criticalStrikeChance"
    case AiDistance => "aiDistance"
  }

  /** The potion size for an amount: up to 10, up to 40, up to 80, above. */
  function PotionTier(amount: int): (tier: int)
    ensures 1 <= tier <= 4
    ensures tier == 1 <==> amount <= 10
    ensures tier == 2 <==> 10 < amount <= 40
    ensures tier == 3 <==> 40 < amount <= 80
    ensures tier == 4 <==> 80 < amount
  {
    if amount <= 10 then 1
    else if amount <= 40 then 2
    else if amount <= 80 then 3
    else 4
  }

  /** The entity type `addModifier` gives a potion: hp, mp and xp potions by size, an elixir for anything else. */
  function PotionType(m: Modifier): ItemType
  {
    match m.attr
    case Hp => HpPotion(PotionTier(m.modifier))
    case Mp => MpPotion(PotionTier(m.modifier))
    case Xp => XpPotion(PotionTier(m.modifier))
    case _ => ElixirPotion
  }

  /** Potion.addModifier: the type follows the new modifier, which is then appended as for any item. */
  function PotionAddModifier(potion: Item, m: Modifier): (r: Item)
    ensures r.modifiers == potion.modifiers + [m]
    ensures r.itemType == PotionType(m)
    ensures r == potion.(itemType := r.itemType, modifiers := r.modifiers)
  {
    potion.(itemType := PotionType(m), modifiers := potion.modifiers + [m])
  }

  /** The colour of the "+ amount attr" text; other attributes have none. */
  function PotionColor(k: StatName): Option<string>
  {
    match k
    case Hp => Some("red")
    case Mp => Some("blue")
    case Xp => Some("white")
    case _ => None
  }

  function PotionText(m: Modifier): string
  {
    "+ " + IntToString(m.modifier) + " " + KeyName(m.attr)
  }

  /**
   * Potion.use: only the first modifier counts; the player's bar of that
   * name grows by the amount (xp through the bar's level-up listener), an
   * attribute that is not a bar is left alone; a text event appears at the
   * player (`textId` is its id) and the potion sound plays. Always used.
   * The source reads `modifiers[0]` without a check, so a potion without
   * modifiers is outside what it handles.
   */
  method PotionUse(potion: Item, player: Unit, state: DungeonState, textId: string) returns (used: bool, sound: string)
    requires |potion.modifiers| > 0 && state.Valid()
    modifies player`hp, player`mp, player`xp, player`lvl, player`pointsToDistribute, player`attributes
    modifies state`entities, state`order
    ensures used && sound == "potion" && state.Valid()
    ensures var m := potion.modifiers[0];
      match m.attr
      case Hp => player.Prog() == old(player.Prog()).(hp := old(player.hp).Increment(m.modifier as real))
      case Mp => player.Prog() == old(player.Prog()).(mp := old(player.mp).Increment(m.modifier as real))
      case Xp => player.Prog() == GainXp(old(player.Prog()), m.modifier as real, player.kind == EnemyUnit, player.primaryAttribute)
      case _ => player.Prog() == old(player.Prog())
    ensures state.entities == old(state.entities)[textId := TextEventEntity(textId, PotionText(potion.modifiers[0]),
      Point(player.position.x, player.position.y), PotionColor(potion.modifiers[0].attr), Some(POTION_TEXT_TTL), false)]
    ensures state.order == Appended(old(state.order), textId)
  {
    var m := potion.modifiers[0];
    match m.attr {
      case Hp => player.hp := player.hp.Increment(m.modifier as real);
      case Mp => player.mp := player.mp.Increment(m.modifier as real);
      case Xp => player.GainXp(m.modifier as real);
      case _ =>
    }
    state.CreateTextEvent(textId, PotionText(m), Point(player.position.x, player.position.y), PotionColor(m.attr), Some(POTION_TEXT_TTL), false);
    used, sound := true, "potion";
  }

  /** ConsumableItem.use: a plain consumable is used only when forced; `force` defaults to false. */
  function ConsumableUse(force: Option<bool>): (used: bool)
    ensures used <==> force == Some(true)
  {
    force.GetOr(false)
  }

  datatype PickOutcome = PickOutcome(quick: Inventory, bag: Inventory, success: bool)

  /**
   * ConsumableItem.pick on the two inventories: the quick inventory when it
   * has room, else the bag when it has room, else nowhere. The item ends up
   * in exactly one of them when the pick succeeds and in neither otherwise.
   */
  function Pick(quick: Inventory, bag: Inventory, item: Item): (r: PickOutcome)
    ensures r.quick.capacity == quick.capacity && r.bag.capacity == bag.capacity
    ensures r.success <==> quick.HasAvailability() || bag.HasAvailability()
    ensures multiset(r.quick.items) + multiset(r.bag.items) ==
      multiset(quick.items) + multiset(bag.items) + (if r.success then multiset{item} else multiset{})
    ensures r.quick.items == quick.items || r.quick.items == quick.items + [item]
    ensures r.bag.items == bag.items || r.bag.items == bag.items + [item]
    ensures r.quick.items != quick.items <==> quick.HasAvailability()
    ensures !r.success ==> r.quick == quick && r.bag == bag
    ensures |quick.items| <= quick.capacity && |bag.items| <= bag.capacity ==>
      |r.quick.items| <= r.quick.capacity && |r.bag.items| <= r.bag.capacity
  {
    if quick.HasAvailability() then PickOutcome(quick.Add(item), bag, true)
    else if bag.HasAvailability() then PickOutcome(quick, bag.Add(item), true)
    else PickOutcome(quick, bag, false)
  }

  /** ConsumableItem.pick on a player: the inventories change as `Pick` says, and the pick sound plays exactly on success. */
  method ConsumablePick(item: Item, player: Unit) returns (success: bool, sound: Option<string>)
    modifies player`quickInventory, player`inventory
    ensures PickOutcome(player.quickInventory, player.inventory, success) == Pick(old(player.quickInventory), old(player.inventory), item)
    ensures sound.Some? <==> success
    ensures sound.Some? ==> sound.value == "pickItem"
  {
    success := false;
    if player.quickInventory.HasAvailability() {
      player.quickInventory := player.quickInventory.Add(item);
      success := true;
    } else if player.inventory.HasAvailability() {
      player.inventory := player.inventory.Add(item);
      success := true;
    }
    sound := if success then Some("pickItem") else None;
  }

  // ----------------------------------------------------------------- lemmas

  /** The potion size never shrinks as the amount grows. */
  lemma PotionTierMonotone(a: int, b: int)
    requires a <= b
    ensures PotionTier(a) <= PotionTier(b)
  {
  }

  /** Bar potions are typed by their bar and size; every other attribute makes an elixir. */
  lemma PotionTypeByAttribute(m: Modifier)
    ensures m.attr == Hp <==> PotionType(m) == HpPotion(PotionTier(m.modifier))
    ensures m.attr == Mp <==> PotionType(m) == MpPotion(PotionTier(m.modifier))
    ensures m.attr == Xp <==> PotionType(m) == XpPotion(PotionTier(m.modifier))
    ensures m.attr !in {Hp, Mp, Xp} <==> PotionType(m) == ElixirPotion
  {
  }

  /** Adding several modifiers: the potion's type is that of the last one, though `use` reads the first. */
  function AddAll(potion: Item, ms: seq<Modifier>): Item
  {
    if ms == [] then potion else PotionAddModifier(AddAll(potion, ms[..|ms| - 1]), ms[|ms| - 1])
  }

  lemma {:induction false} AddAllTypeAndModifiers(potion: Item, ms: seq<Modifier>)
    ensures AddAll(potion, ms).modifiers == potion.modifiers + ms
    ensures ms != [] ==> AddAll(potion, ms).itemType == PotionType(ms[|ms| - 1])
    ensures ms != [] && potion.modifiers == [] ==> AddAll(potion, ms).modifiers[0] == ms[0]
  {
    if ms != [] {
      AddAllTypeAndModifiers(potion, ms[..|ms| - 1]);
      assert ms[..|ms| - 1] + [ms[|ms| - 1]] == ms;
    }
  }

  /** Each attribute names a different key. */
  lemma KeyNamesDistinct(a: StatName, b: StatName)
    requires a != b
    ensures KeyName(a) != KeyName(b)
  {
  }

  /** A second pick into the same quick inventory keeps both items, in pick order. */
  lemma PickTwice(quick: Inventory, bag: Inventory, x: Item, y: Item)
    requires |quick.items| + 2 <= quick.capacity
    ensures var r1 := Pick(quick, bag, x); var r2 := Pick(r1.quick, r1.bag, y);
      r2.success && r2.quick.items == quick.items + [x, y] && r2.bag == bag
  {
    assert quick.items + [x] + [y] == quick.items + [x, y];
  }

  /** When both inventories are full nothing changes. */
  lemma PickIntoFullInventories(quick: Inventory, bag: Inventory, item: Item)
    requires |quick.items| >= quick.capacity && |bag.items| >= bag.capacity
    ensures Pick(quick, bag, item) == PickOutcome(quick, bag, false)
  {
  }
}
