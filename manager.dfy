// The artifact's manager: the lists it keeps, the drop-list pass, the
// per-stage re-draw, the revert, and the enable and disable guards.
module Simplicity {
  import opened GameTypes
  import opened Classification
  import opened DropPass
  import opened PassSteps
  import opened Redraw

  class SimplicityManager {
    // Entries granted always (written, never read).
    var alwaysItems: seq<PickupIndex>
    // The five capped pools; they only ever grow.
    var tier1Items: seq<PickupIndex>
    var tier2Items: seq<PickupIndex>
    var tier3Items: seq<PickupIndex>
    var lunarItems: seq<PickupIndex>
    var equipItems: seq<PickupIndex>
    // The drop list captured before the first pass, published again on revert.
    var runItems: seq<PickupIndex>
    // The drop list the manager builds and publishes.
    var currentItems: seq<PickupIndex>
    // The (item, tier) pairs and equipment handles recorded for the picks.
    var currentItemsKVP: seq<(ItemIndex, ItemTier)>
    var currentEquip: seq<EquipmentIndex>
    // The player and monster drop lists the item-drop library reads.
    var playerItems: seq<PickupIndex>
    var monsterItems: seq<PickupIndex>
    // How many times the stage-complete and drop-list handlers are subscribed.
    var subscriptions: nat

    /** Every list of the manager starts empty; the published drop lists are
        whatever the library holds. */
    constructor (player: seq<PickupIndex>, monster: seq<PickupIndex>)
      ensures alwaysItems == [] && tier1Items == [] && tier2Items == [] && tier3Items == []
      ensures lunarItems == [] && equipItems == [] && runItems == [] && currentItems == []
      ensures currentItemsKVP == [] && currentEquip == [] && subscriptions == 0
      ensures playerItems == player && monsterItems == monster
    {
      alwaysItems, tier1Items, tier2Items, tier3Items := [], [], [], [];
      lunarItems, equipItems, runItems, currentItems := [], [], [], [];
      currentItemsKVP, currentEquip, subscriptions := [], [], 0;
      playerItems, monsterItems := player, monster;
    }

    /** The list a pass walks: the published player list while no baseline
        has been captured, the captured baseline afterwards. */
    function Baseline(): seq<PickupIndex>
      reads this`runItems, this`playerItems
    {
      if |runItems| == 0 then playerItems else runItems
    }

    /** The lists a pass appends to, as one value. */
    function Lists(): Pools
      reads this`tier1Items, this`tier2Items, this`tier3Items, this`lunarItems, this`equipItems
      reads this`alwaysItems, this`currentItemsKVP, this`currentEquip
    {
      Pools(tier1Items, tier2Items, tier3Items, lunarItems, equipItems, alwaysItems, currentItemsKVP, currentEquip)
    }

    /** The drop-list pass: capture the baseline on the first pass, clear the
        drop list, classify a shuffle of the baseline into it, and publish it
        as both the player and the monster drop list. */
    method SetDropList(cat: Catalogs, shuffled: seq<PickupIndex>)
      requires multiset(shuffled) == multiset(Baseline())
      modifies this`runItems, this`currentItems, this`tier1Items, this`tier2Items, this`tier3Items
      modifies this`lunarItems, this`equipItems, this`alwaysItems, this`currentItemsKVP, this`currentEquip
      modifies this`playerItems, this`monsterItems
      ensures runItems == old(Baseline())
      ensures Lists() == Pass(cat, old(Lists()), shuffled).pools
      ensures currentItems == Pass(cat, old(Lists()), shuffled).current
      ensures playerItems == currentItems && monsterItems == currentItems
    {
      ghost var start := Lists();
      if |runItems| == 0 {
        runItems := playerItems;
      }
      if |currentItems| != 0 {
        currentItems := [];
      }
      Walk(cat, shuffled, start);
      Publish();
    }

    /** Both published drop lists become the manager's drop list. */
    method Publish()
      modifies this`playerItems, this`monsterItems
      ensures playerItems == currentItems && monsterItems == currentItems
    {
      playerItems := currentItems;
      monsterItems := currentItems;
    }

    /** The pass's loop: walk the shuffle, skip entries already placed or
        whose name was seen, classify the rest, append them to their pools,
        and place up to two picks per capped category. */
    method Walk(cat: Catalogs, shuffled: seq<PickupIndex>, ghost start: Pools)
      requires currentItems == [] && start == Lists()
      modifies this`currentItems, this`tier1Items, this`tier2Items, this`tier3Items, this`lunarItems
      modifies this`equipItems, this`alwaysItems, this`currentItemsKVP, this`currentEquip
      ensures Lists() == Pass(cat, start, shuffled).pools && currentItems == Pass(cat, start, shuffled).current
    {
      var tier1count, tier2count, tier3count, tier4count, tier5count := 0, 0, 0, 0, 0;
      var currentItemNames: seq<string> := [];
      var k := 0;
      ghost var adm: seq<PickupIndex> := [];
      while k < |shuffled|
        invariant 0 <= k <= |shuffled|
        invariant adm == Admitted(cat, shuffled[..k])
        invariant currentItemNames == Names(cat, shuffled[..k])
        invariant PassState(Lists(), currentItems, Counts(tier1count, tier2count, tier3count, tier4count, tier5count))
                  == Run(cat, start, adm)
      {
        tier1count, tier2count, tier3count, tier4count, tier5count, adm :=
          ConsiderEntry(cat, shuffled, k, currentItemNames, adm, start,
                        tier1count, tier2count, tier3count, tier4count, tier5count);
        currentItemNames := currentItemNames + [Name(cat, shuffled[k])];
        k := k + 1;
      }
      assert shuffled[..k] == shuffled;
    }

    /** One turn of the pass's loop over entry `k` of the walk: the two skip
        checks, then the classification of an entry that passes them. */
    method ConsiderEntry(cat: Catalogs, shuffled: seq<PickupIndex>, k: nat, currentItemNames: seq<string>,
                         ghost adm: seq<PickupIndex>, ghost start: Pools,
                         tier1count: nat, tier2count: nat, tier3count: nat, tier4count: nat, tier5count: nat)
      returns (t1: nat, t2: nat, t3: nat, t4: nat, t5: nat, ghost adm': seq<PickupIndex>)
      requires k < |shuffled|
      requires adm == Admitted(cat, shuffled[..k]) && currentItemNames == Names(cat, shuffled[..k])
      requires PassState(Lists(), currentItems, Counts(tier1count, tier2count, tier3count, tier4count, tier5count))
               == Run(cat, start, adm)
      modifies this`currentItems, this`tier1Items, this`tier2Items, this`tier3Items, this`lunarItems
      modifies this`equipItems, this`alwaysItems, this`currentItemsKVP, this`currentEquip
      ensures adm' == Admitted(cat, shuffled[..k + 1])
      ensures currentItemNames + [Name(cat, shuffled[k])] == Names(cat, shuffled[..k + 1])
      ensures PassState(Lists(), currentItems, Counts(t1, t2, t3, t4, t5)) == Run(cat, start, adm')
    {
      var item := shuffled[k];
      WalkStep(cat, shuffled, k);
      t1, t2, t3, t4, t5, adm' := tier1count, tier2count, tier3count, tier4count, tier5count, adm;
      if item in currentItems {
        // already placed this pass
        RunLayout(cat, start, adm);
        PlacedWasSeen(cat, shuffled, k);
      } else if Name(cat, item) in currentItemNames {
        // another entry with this name was seen this pass
      } else {
        t1, t2, t3, t4, t5 := ClassifyEntry(cat, item, tier1count, tier2count, tier3count, tier4count, tier5count);
        RunSnoc(cat, start, adm, item);
        adm' := adm + [item];
      }
    }

    /** The `else if` chain for an entry that passed both skip checks: the
        first rule that matches decides where the entry goes. */
    method ClassifyEntry(cat: Catalogs, item: PickupIndex,
                         tier1count: nat, tier2count: nat, tier3count: nat, tier4count: nat, tier5count: nat)
      returns (t1: nat, t2: nat, t3: nat, t4: nat, t5: nat)
      requires tier1count + tier2count + tier3count + tier4count + tier5count <= |currentItems|
      modifies this`currentItems, this`tier1Items, this`tier2Items, this`tier3Items, this`lunarItems
      modifies this`equipItems, this`alwaysItems, this`currentItemsKVP, this`currentEquip
      ensures PassState(Lists(), currentItems, Counts(t1, t2, t3, t4, t5)) ==
        Step(cat, PassState(old(Lists()), old(currentItems),
                            Counts(tier1count, tier2count, tier3count, tier4count, tier5count)), item)
    {
      var itemDef := cat.def(item);
      t1, t2, t3, t4, t5 := tier1count, tier2count, tier3count, tier4count, tier5count;
      if itemDef.isBoss {
        GrantAlways(cat, item);
      } else if itemDef.isLunar {
        t4 := PlaceLunar(cat, item, t1, t2, t3, t4, t5);
      } else if IsScrap(itemDef) {
        GrantAlways(cat, item);
      } else if itemDef.equipmentIndex in cat.equipmentList {
        t5 := PlaceEquipment(cat, item, t1, t2, t3, t4, t5);
      } else if itemDef.equipmentIndex in cat.allEquipment {
        GrantAlways(cat, item);
      } else if itemDef.itemIndex !in cat.allItems {
        GrantAlways(cat, item);
      } else if itemDef.itemIndex in cat.tier1ItemList {
        t1 := PlaceTier1(cat, item, t1, t2, t3, t4, t5);
      } else if itemDef.itemIndex in cat.tier2ItemList {
        t2 := PlaceTier2(cat, item, t1, t2, t3, t4, t5);
      } else if itemDef.itemIndex in cat.tier3ItemList {
        t3 := PlaceTier3(cat, item, t1, t2, t3, t4, t5);
      } else {
        assert CategoryOf(cat, item) == Unmatched;
      }
    }

    /** An always-granted entry (boss, scrap, non-standard equipment, unknown
        item) goes to the end of the drop list and to the always list. */
    method GrantAlways(cat: Catalogs, item: PickupIndex)
      requires CategoryOf(cat, item) == Always
      modifies this`currentItems, this`alwaysItems
      ensures Lists() == AddTo(old(Lists()), Always, item) && currentItems == old(currentItems) + [item]
    {
      currentItems := currentItems + [item];
      alwaysItems := alwaysItems + [item];
    }

    /** A lunar pickup: while fewer than two lunar picks are placed, insert
        it after the tier blocks and record it (as equipment when its
        equipment handle is catalogued); then add it to the lunar pool. */
    method PlaceLunar(cat: Catalogs, item: PickupIndex, t1: nat, t2: nat, t3: nat, t4: nat, ghost t5: nat)
      returns (n4: nat)
      requires CategoryOf(cat, item) == Items(Lunar)
      requires t1 + t2 + t3 + t4 + t5 <= |currentItems|
      modifies this`currentItems, this`lunarItems, this`currentItemsKVP, this`currentEquip
      ensures PassState(Lists(), currentItems, Counts(t1, t2, t3, n4, t5)) ==
        Step(cat, PassState(old(Lists()), old(currentItems), Counts(t1, t2, t3, t4, t5)), item)
    {
      n4 := t4;
      ghost var before := Lists();
      if n4 < 2 {
        n4 := n4 + 1;
        currentItems := Insert(currentItems, t1 + t2 + t3, item);
        RecordLunar(cat, item);
        lunarItems := lunarItems + [item];
        assert Lists() == AddTo(Grant(cat, before, item), Items(Lunar), item);
      } else {
        lunarItems := lunarItems + [item];
        assert Lists() == AddTo(before, Items(Lunar), item);
      }
    }

    /** The record of a lunar pick: its equipment handle when the equipment
        catalogue holds it, its (item, Lunar) pair otherwise. */
    method RecordLunar(cat: Catalogs, item: PickupIndex)
      requires CategoryOf(cat, item) == Items(Lunar)
      modifies this`currentItemsKVP, this`currentEquip
      ensures Lists() == Grant(cat, old(Lists()), item)
    {
      var itemDef := cat.def(item);
      if itemDef.equipmentIndex in cat.allEquipment {
        currentEquip := currentEquip + [itemDef.equipmentIndex];
      } else {
        currentItemsKVP := currentItemsKVP + [(itemDef.itemIndex, Lunar)];
      }
    }

    /** Standard equipment: while fewer than two equipment picks are placed,
        insert it after the lunar block and record its handle; then add it to
        the equipment pool. */
    method PlaceEquipment(cat: Catalogs, item: PickupIndex, t1: nat, t2: nat, t3: nat, t4: nat, t5: nat)
      returns (n5: nat)
      requires CategoryOf(cat, item) == Equipment
      requires t1 + t2 + t3 + t4 + t5 <= |currentItems|
      modifies this`currentItems, this`equipItems, this`currentEquip
      ensures PassState(Lists(), currentItems, Counts(t1, t2, t3, t4, n5)) ==
        Step(cat, PassState(old(Lists()), old(currentItems), Counts(t1, t2, t3, t4, t5)), item)
    {
      var itemDef := cat.def(item);
      n5 := t5;
      ghost var before := Lists();
      if n5 < 2 {
        n5 := n5 + 1;
        currentItems := Insert(currentItems, t1 + t2 + t3 + t4, item);
        currentEquip := currentEquip + [itemDef.equipmentIndex];
        equipItems := equipItems + [item];
        assert Lists() == AddTo(Grant(cat, before, item), Equipment, item);
      } else {
        equipItems := equipItems + [item];
        assert Lists() == AddTo(before, Equipment, item);
      }
    }

    /** A tier 1 item: while fewer than two are placed, insert it at the
        front of the drop list and record it; then add it to the tier 1 pool. */
    method PlaceTier1(cat: Catalogs, item: PickupIndex, t1: nat, ghost t2: nat, ghost t3: nat, ghost t4: nat,
                      ghost t5: nat)
      returns (n1: nat)
      requires CategoryOf(cat, item) == Items(Tier1)
      requires t1 + t2 + t3 + t4 + t5 <= |currentItems|
      modifies this`currentItems, this`tier1Items, this`currentItemsKVP
      ensures PassState(Lists(), currentItems, Counts(n1, t2, t3, t4, t5)) ==
        Step(cat, PassState(old(Lists()), old(currentItems), Counts(t1, t2, t3, t4, t5)), item)
    {
      var itemDef := cat.def(item);
      n1 := t1;
      ghost var before := Lists();
      if n1 < 2 {
        n1 := n1 + 1;
        currentItems := Insert(currentItems, 0, item);
        currentItemsKVP := currentItemsKVP + [(itemDef.itemIndex, Tier1)];
        tier1Items := tier1Items + [item];
        assert Lists() == AddTo(Grant(cat, before, item), Items(Tier1), item);
      } else {
        tier1Items := tier1Items + [item];
        assert Lists() == AddTo(before, Items(Tier1), item);
      }
    }

    /** A tier 2 item: while fewer than two are placed, insert it after the
        tier 1 block and record it; then add it to the tier 2 pool. */
    method PlaceTier2(cat: Catalogs, item: PickupIndex, t1: nat, t2: nat, ghost t3: nat, ghost t4: nat,
                      ghost t5: nat)
      returns (n2: nat)
      requires CategoryOf(cat, item) == Items(Tier2)
      requires t1 + t2 + t3 + t4 + t5 <= |currentItems|
      modifies this`currentItems, this`tier2Items, this`currentItemsKVP
      ensures PassState(Lists(), currentItems, Counts(t1, n2, t3, t4, t5)) ==
        Step(cat, PassState(old(Lists()), old(currentItems), Counts(t1, t2, t3, t4, t5)), item)
    {
      var itemDef := cat.def(item);
      n2 := t2;
      ghost var before := Lists();
      if n2 < 2 {
        n2 := n2 + 1;
        currentItems := Insert(currentItems, t1, item);
        currentItemsKVP := currentItemsKVP + [(itemDef.itemIndex, Tier2)];
        tier2Items := tier2Items + [item];
        assert Lists() == AddTo(Grant(cat, before, item), Items(Tier2), item);
      } else {
        tier2Items := tier2Items + [item];
        assert Lists() == AddTo(before, Items(Tier2), item);
      }
    }

    /** A tier 3 item: while fewer than two are placed, insert it after the
        tier 2 block and record it; then add it to the tier 3 pool. */
    method PlaceTier3(cat: Catalogs, item: PickupIndex, t1: nat, t2: nat, t3: nat, ghost t4: nat, ghost t5: nat)
      returns (n3: nat)
      requires CategoryOf(cat, item) == Items(Tier3)
      requires t1 + t2 + t3 + t4 + t5 <= |currentItems|
      modifies this`currentItems, this`tier3Items, this`currentItemsKVP
      ensures PassState(Lists(), currentItems, Counts(t1, t2, n3, t4, t5)) ==
        Step(cat, PassState(old(Lists()), old(currentItems), Counts(t1, t2, t3, t4, t5)), item)
    {
      var itemDef := cat.def(item);
      n3 := t3;
      ghost var before := Lists();
      if n3 < 2 {
        n3 := n3 + 1;
        currentItems := Insert(currentItems, t1 + t2, item);
        currentItemsKVP := currentItemsKVP + [(itemDef.itemIndex, Tier3)];
        tier3Items := tier3Items + [item];
        assert Lists() == AddTo(Grant(cat, before, item), Items(Tier3), item);
      } else {
        tier3Items := tier3Items + [item];
        assert Lists() == AddTo(before, Items(Tier3), item);
      }
    }

    /** The per-stage re-draw, given each pool in the order the shuffle puts
        it: clear the records, write the first two entries of each pool over
        index 0 of the drop list (the index is never advanced) and record
        them, then publish the drop list. Writing to an empty drop list
        throws, which ends the re-draw with the records cleared and nothing
        published. */
    method RandomizeItems(cat: Catalogs, o1: seq<PickupIndex>, o2: seq<PickupIndex>, o3: seq<PickupIndex>,
                          o4: seq<PickupIndex>, o5: seq<PickupIndex>)
      returns (thrown: bool)
      requires multiset(o1) == multiset(tier1Items) && multiset(o2) == multiset(tier2Items)
      requires multiset(o3) == multiset(tier3Items) && multiset(o4) == multiset(lunarItems)
      requires multiset(o5) == multiset(equipItems)
      modifies this`currentItems, this`currentItemsKVP, this`currentEquip, this`playerItems, this`monsterItems
      ensures thrown <==> AllDraws(o1, o2, o3, o4, o5) != [] && old(currentItems) == []
      ensures currentItems == Overwrite(old(currentItems), AllDraws(o1, o2, o3, o4, o5))
      ensures thrown ==> currentItemsKVP == [] && currentEquip == []
      ensures thrown ==> playerItems == old(playerItems) && monsterItems == old(monsterItems)
      ensures !thrown ==>
        currentItemsKVP == TierRecords(cat, Draw(o1), Tier1) + TierRecords(cat, Draw(o2), Tier2) +
                           TierRecords(cat, Draw(o3), Tier3) + TierRecords(cat, Draw(o4), Lunar) &&
        currentEquip == EquipmentRecords(cat, Draw(o5))
      ensures !thrown ==> playerItems == currentItems && monsterItems == currentItems
    {
      currentItemsKVP := [];
      currentEquip := [];
      thrown := RedrawTier(cat, o1, Tier1);
      if thrown {
        return;
      }
      assert currentItemsKVP == TierRecords(cat, Draw(o1), Tier1);
      thrown := RedrawTier(cat, o2, Tier2);
      OverwriteTwice(old(currentItems), Draw(o1), Draw(o2));
      if thrown {
        return;
      }
      thrown := RedrawTier(cat, o3, Tier3);
      OverwriteTwice(old(currentItems), Draw(o1) + Draw(o2), Draw(o3));
      if thrown {
        return;
      }
      thrown := RedrawTier(cat, o4, Lunar);
      OverwriteTwice(old(currentItems), Draw(o1) + Draw(o2) + Draw(o3), Draw(o4));
      if thrown {
        return;
      }
      thrown := RedrawEquipment(cat, o5);
      OverwriteTwice(old(currentItems), Draw(o1) + Draw(o2) + Draw(o3) + Draw(o4), Draw(o5));
      if thrown {
        return;
      }
      assert currentEquip == EquipmentRecords(cat, Draw(o5));
      Publish();
    }

    /** One item loop of the re-draw over a pool shuffled into `order`: each
        of its first two entries overwrites index 0 of the drop list and is
        recorded with tier `tier`; a write to an empty drop list throws. */
    method RedrawTier(cat: Catalogs, order: seq<PickupIndex>, tier: ItemTier) returns (thrown: bool)
      modifies this`currentItems, this`currentItemsKVP
      ensures thrown <==> Draw(order) != [] && old(currentItems) == []
      ensures currentItems == Overwrite(old(currentItems), Draw(order))
      ensures thrown ==> currentItemsKVP == old(currentItemsKVP)
      ensures !thrown ==> currentItemsKVP == old(currentItemsKVP) + TierRecords(cat, Draw(order), tier)
    {
      var picks := Draw(order);
      var i := 0;
      var j := 0;
      thrown := false;
      while j < |picks|
        invariant 0 <= j <= |picks|
        invariant |currentItems| == |old(currentItems)| && (j > 0 ==> old(currentItems) != [])
        invariant currentItems == Overwrite(old(currentItems), picks[..j])
        invariant currentItemsKVP == old(currentItemsKVP) + TierRecords(cat, picks[..j], tier)
      {
        var item := picks[j];
        if i >= |currentItems| {
          thrown := true;
          return;
        }
        currentItems := currentItems[i := item];
        currentItemsKVP := currentItemsKVP + [(cat.def(item).itemIndex, tier)];
        assert TierRecords(cat, picks[..j + 1], tier) == TierRecords(cat, picks[..j], tier) + [(cat.def(item).itemIndex, tier)];
        j := j + 1;
      }
      assert picks[..j] == picks;
    }

    /** The equipment loop of the re-draw: as for an item pool, but each
        entry is recorded by its equipment handle. */
    method RedrawEquipment(cat: Catalogs, order: seq<PickupIndex>) returns (thrown: bool)
      modifies this`currentItems, this`currentEquip
      ensures thrown <==> Draw(order) != [] && old(currentItems) == []
      ensures currentItems == Overwrite(old(currentItems), Draw(order))
      ensures thrown ==> currentEquip == old(currentEquip)
      ensures !thrown ==> currentEquip == old(currentEquip) + EquipmentRecords(cat, Draw(order))
    {
      var picks := Draw(order);
      var i := 0;
      var j := 0;
      thrown := false;
      while j < |picks|
        invariant 0 <= j <= |picks|
        invariant |currentItems| == |old(currentItems)| && (j > 0 ==> old(currentItems) != [])
        invariant currentItems == Overwrite(old(currentItems), picks[..j])
        invariant currentEquip == old(currentEquip) + EquipmentRecords(cat, picks[..j])
      {
        var item := picks[j];
        if i >= |currentItems| {
          thrown := true;
          return;
        }
        currentItems := currentItems[i := item];
        currentEquip := currentEquip + [cat.def(item).equipmentIndex];
        assert EquipmentRecords(cat, picks[..j + 1]) == EquipmentRecords(cat, picks[..j]) + [cat.def(item).equipmentIndex];
        j := j + 1;
      }
      assert picks[..j] == picks;
    }

    /** The revert: both published drop lists go back to the baseline, and
        the drop list and the baseline are emptied. */
    method RevertItems()
      modifies this`playerItems, this`monsterItems, this`currentItems, this`runItems
      ensures playerItems == old(runItems) && monsterItems == old(runItems)
      ensures currentItems == [] && runItems == []
    {
      playerItems := runItems;
      monsterItems := runItems;
      currentItems := [];
      runItems := [];
    }

    /** The enable handler: only on the server and only for this artifact
        does it subscribe the two handlers (once more on every call). */
    method OnArtifactEnabled(serverActive: bool, isThisArtifact: bool)
      modifies this`subscriptions
      ensures subscriptions == if serverActive && isThisArtifact then old(subscriptions) + 1 else old(subscriptions)
    {
      if !serverActive || !isThisArtifact {
        return;
      }
      subscriptions := subscriptions + 1;
    }

    /** The disable handler: for this artifact it unsubscribes the handlers
        once (if subscribed) and reverts, on the server or not. */
    method OnArtifactDisabled(isThisArtifact: bool)
      modifies this`subscriptions, this`playerItems, this`monsterItems, this`currentItems, this`runItems
      ensures !isThisArtifact ==> (subscriptions == old(subscriptions) && playerItems == old(playerItems) &&
                                   monsterItems == old(monsterItems) && currentItems == old(currentItems) &&
                                   runItems == old(runItems))
      ensures isThisArtifact ==> subscriptions == if old(subscriptions) > 0 then old(subscriptions) - 1 else 0
      ensures isThisArtifact ==> (playerItems == old(runItems) && monsterItems == old(runItems) &&
                                  currentItems == [] && runItems == [])
    {
      if !isThisArtifact {
        return;
      }
      if subscriptions > 0 {
        subscriptions := subscriptions - 1;
      }
      RevertItems();
    }
  }
}
