// The precedence chain that sorts one pickup into a pool, as the drop-list
// pass applies it to every entry that survives the two skip checks.
module Classification {
  import opened GameTypes

  /** Where a classified pickup goes: granted always, one of the four item
      pools (keyed by the tier its picks are tagged with), the equipment
      pool, or nowhere (no rule matched; only its name is recorded). */
  datatype Category = Always | Items(tier: ItemTier) | Equipment | Unmatched

  /** The categories whose picks are capped, in block order. */
  predicate Capped(c: Category)
  {
    c.Items? || c == Equipment
  }

  /** Position of a category in the drop list the pass builds:
      Tier1, Tier2, Tier3, Lunar, Equipment, then Always. */
  function Rank(c: Category): nat
  {
    match c
    case Items(Tier1) => 0
    case Items(Tier2) => 1
    case Items(Tier3) => 2
    case Items(Lunar) => 3
    case Equipment => 4
    case Always => 5
    case Unmatched => 6
  }

  /** The `if/else` chain an entry meets once it has passed the two skip
      checks (already placed, name already seen). Its rules, tried in this
      order with the first match winning, are: boss, lunar, scrap, standard
      equipment, other equipment, unknown item, tier 1, tier 2, tier 3; an
      entry none of them matches is unmatched. */
  function Classify(cat: Catalogs, d: PickupDef): (c: Category)
    // boss: boss pickups are always granted, whatever else holds
    ensures d.isBoss ==> c == Always
    // lunar: every non-boss lunar pickup goes to the lunar pool, and only those
    ensures c == Items(Lunar) <==> !d.isBoss && d.isLunar
    // standard equipment: the equipment pool takes standard equipment that no earlier rule took
    ensures c == Equipment <==>
      !d.isBoss && !d.isLunar && !IsScrap(d) && d.equipmentIndex in cat.equipmentList
    // tier 1, tier 2, tier 3: a tier pool only takes catalogued, non-equipment, non-scrap items,
    // and the lowest tier list that holds the item wins
    ensures c == Items(Tier1) <==> NoEarlierRule(cat, d) && d.itemIndex in cat.tier1ItemList
    ensures c == Items(Tier2) <==>
      NoEarlierRule(cat, d) && d.itemIndex !in cat.tier1ItemList && d.itemIndex in cat.tier2ItemList
    ensures c == Items(Tier3) <==>
      NoEarlierRule(cat, d) && d.itemIndex !in cat.tier1ItemList &&
      d.itemIndex !in cat.tier2ItemList && d.itemIndex in cat.tier3ItemList
    // scrap, other equipment, unknown item: scrap, non-standard equipment and unknown items fail open to Always
    ensures !d.isLunar && IsScrap(d) ==> c == Always
    ensures !d.isLunar && d.equipmentIndex !in cat.equipmentList && d.equipmentIndex in cat.allEquipment
      ==> c == Always
    ensures !d.isLunar && d.equipmentIndex !in cat.equipmentList && d.itemIndex !in cat.allItems
      ==> c == Always
    // unmatched: an item catalogued in no tier list matches nothing
    ensures c == Unmatched <==>
      NoEarlierRule(cat, d) && d.itemIndex !in cat.tier1ItemList &&
      d.itemIndex !in cat.tier2ItemList && d.itemIndex !in cat.tier3ItemList
  {
    if d.isBoss then Always
    else if d.isLunar then Items(Lunar)
    else if IsScrap(d) then Always
    else if d.equipmentIndex in cat.equipmentList then Equipment
    else if d.equipmentIndex in cat.allEquipment then Always
    else if d.itemIndex !in cat.allItems then Always
    else if d.itemIndex in cat.tier1ItemList then Items(Tier1)
    else if d.itemIndex in cat.tier2ItemList then Items(Tier2)
    else if d.itemIndex in cat.tier3ItemList then Items(Tier3)
    else Unmatched
  }

  /** None of the rules before tier 1 applies (boss, lunar, scrap, standard
      equipment, other equipment, unknown item): a catalogued, non-boss, non-lunar,
      non-scrap item that is no equipment. */
  predicate NoEarlierRule(cat: Catalogs, d: PickupDef)
  {
    !d.isBoss && !d.isLunar && !IsScrap(d) &&
    d.equipmentIndex !in cat.equipmentList && d.equipmentIndex !in cat.allEquipment &&
    d.itemIndex in cat.allItems
  }

  /** The category of a pickup handle, through the pickup catalog. */
  function CategoryOf(cat: Catalogs, x: PickupIndex): Category
  {
    Classify(cat, cat.def(x))
  }
}
