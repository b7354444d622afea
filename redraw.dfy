// The per-stage re-draw on values: what each pool contributes, where the
// contributions land in the drop list, and what gets recorded.
module Redraw {
  import opened GameTypes
  import opened Classification
  import opened DropPass
  import opened PassSteps

  /** The entries a re-draw takes from a pool shuffled into `order`: its first
      two, or all of them if the pool holds fewer. */
  function Draw(order: seq<PickupIndex>): seq<PickupIndex>
  {
    FirstPicks(order)
  }

  /** The drop list after writing each of `picks`, in turn, over index 0 of
      `current`. Writing to an empty list throws, so an empty list is left
      as it is; the caller reports the throw. */
  function Overwrite(current: seq<PickupIndex>, picks: seq<PickupIndex>): (r: seq<PickupIndex>)
    ensures |r| == |current|
    ensures forall j :: 0 < j < |current| ==> r[j] == current[j]
    ensures picks != [] && current != [] ==> r[0] == picks[|picks| - 1]
    ensures picks == [] ==> r == current
  {
    if picks == [] || current == [] then current else current[0 := picks[|picks| - 1]]
  }

  /** The (item, tier) records of re-drawn entries of tier `tier`. */
  function TierRecords(cat: Catalogs, picks: seq<PickupIndex>, tier: ItemTier): (r: seq<(ItemIndex, ItemTier)>)
  {
    seq(|picks|, j requires 0 <= j < |picks| => (cat.def(picks[j]).itemIndex, tier))
  }

  /** The equipment handles of re-drawn equipment entries. */
  function EquipmentRecords(cat: Catalogs, picks: seq<PickupIndex>): (r: seq<EquipmentIndex>)
  {
    seq(|picks|, j requires 0 <= j < |picks| => cat.def(picks[j]).equipmentIndex)
  }

  /** Everything a re-draw takes from the five pools, in the order it writes
      them: tier 1, tier 2, tier 3, lunar, equipment. */
  function AllDraws(o1: seq<PickupIndex>, o2: seq<PickupIndex>, o3: seq<PickupIndex>, o4: seq<PickupIndex>,
                    o5: seq<PickupIndex>): seq<PickupIndex>
  {
    Draw(o1) + Draw(o2) + Draw(o3) + Draw(o4) + Draw(o5)
  }

  /* ---------- lemmas ---------- */

  /** A re-draw takes min(2, |pool|) entries from distinct positions of the
      pool: as a multiset they are part of the pool. */
  lemma DrawFromPool(pool: seq<PickupIndex>, order: seq<PickupIndex>)
    requires multiset(order) == multiset(pool)
    ensures |Draw(order)| == Min(PicksPerPool, |pool|)
    ensures multiset(Draw(order)) <= multiset(pool)
    ensures forall x :: x in Draw(order) ==> x in pool
  {
    assert |order| == |multiset(order)| == |multiset(pool)| == |pool|;
    var n := Min(PicksPerPool, |order|);
    assert order == order[..n] + order[n..];
    assert multiset(order) == multiset(order[..n]) + multiset(order[n..]);
    forall x | x in Draw(order)
      ensures x in pool
    {
      assert x in multiset(Draw(order));
      assert x in multiset(pool);
    }
  }

  /** A re-draw records min(2, |pool|) entries of an item pool, each tagged
      with the pool's tier and naming the item of an entry of the pool. */
  lemma TierRecordsFromPool(cat: Catalogs, pool: seq<PickupIndex>, order: seq<PickupIndex>, tier: ItemTier)
    requires multiset(order) == multiset(pool)
    ensures |TierRecords(cat, Draw(order), tier)| == Min(PicksPerPool, |pool|)
    ensures forall r :: r in TierRecords(cat, Draw(order), tier) ==>
      r.1 == tier && exists x :: x in pool && r.0 == cat.def(x).itemIndex
  {
    DrawFromPool(pool, order);
    var picks := Draw(order);
    assert forall x :: x in picks ==> x in pool;
    forall r | r in TierRecords(cat, picks, tier)
      ensures r.1 == tier && exists x :: x in pool && r.0 == cat.def(x).itemIndex
    {
      var j :| 0 <= j < |picks| && TierRecords(cat, picks, tier)[j] == r;
      assert picks[j] in picks;
      var x := picks[j];
      assert x in pool && r.0 == cat.def(x).itemIndex;
      assert exists y :: y in pool && r.0 == cat.def(y).itemIndex;
    }
  }

  /** A re-draw records min(2, |pool|) equipment handles, each the handle of
      an entry of the equipment pool. */
  lemma EquipmentRecordsFromPool(cat: Catalogs, pool: seq<PickupIndex>, order: seq<PickupIndex>)
    requires multiset(order) == multiset(pool)
    ensures |EquipmentRecords(cat, Draw(order))| == Min(PicksPerPool, |pool|)
    ensures forall e :: e in EquipmentRecords(cat, Draw(order)) ==>
      exists x :: x in pool && e == cat.def(x).equipmentIndex
  {
    DrawFromPool(pool, order);
    var picks := Draw(order);
    assert forall x :: x in picks ==> x in pool;
    forall e | e in EquipmentRecords(cat, picks)
      ensures exists x :: x in pool && e == cat.def(x).equipmentIndex
    {
      var j :| 0 <= j < |picks| && EquipmentRecords(cat, picks)[j] == e;
      assert picks[j] in picks;
      var x := picks[j];
      assert x in pool && e == cat.def(x).equipmentIndex;
      assert exists y :: y in pool && e == cat.def(y).equipmentIndex;
    }
  }

  /** Writing one batch of picks and then another is writing both in turn. */
  lemma OverwriteTwice(current: seq<PickupIndex>, p: seq<PickupIndex>, q: seq<PickupIndex>)
    ensures Overwrite(Overwrite(current, p), q) == Overwrite(current, p + q)
  {
    if q != [] {
      assert (p + q)[|p + q| - 1] == q[|q| - 1];
    } else {
      assert p + q == p;
    }
  }

  /** A catalog of three tier 1 items, 10, 11 and 12, named "A", "B", "C". */
  function ThreeWhites(): Catalogs
  {
    Catalogs(x => PickupDef(if x == 10 then "A" else if x == 11 then "B" else "C", "Item", false, false, x, -1),
             {}, {}, {10, 11, 12}, {10, 11, 12}, {}, {})
  }

  /** The three entries of `ThreeWhites` are tier 1 items. */
  lemma ThreeWhitesTier1()
    ensures CategoryOf(ThreeWhites(), 10) == Items(Tier1) && CategoryOf(ThreeWhites(), 11) == Items(Tier1)
    ensures CategoryOf(ThreeWhites(), 12) == Items(Tier1)
  {
    var cat := ThreeWhites();
    assert ToLower("Item") == "item";
    assert !IsScrap(cat.def(10)) && !IsScrap(cat.def(11)) && !IsScrap(cat.def(12));
  }

  /** The walk [11, 10, 12] of `ThreeWhites` has three distinct names, so
      every entry is admitted. */
  lemma ThreeWhitesAdmitted()
    ensures Admitted(ThreeWhites(), [11, 10, 12]) == [11, 10, 12]
  {
    var cat := ThreeWhites();
    var w: seq<PickupIndex> := [11, 10, 12];
    assert Names(cat, w[..2]) == ["B", "A"];
    assert w[..3][..2] == w[..2] && w[..2][..1] == w[..1] && w[..1][..0] == [];
    assert Admitted(cat, w[..1]) == [11];
    assert Admitted(cat, w[..2]) == [11, 10];
    assert w[..3] == w;
  }

  /** The pass over [11, 10, 12] of `ThreeWhites` picks 11 and then 10 at
      the front, and puts all three in the tier 1 pool. */
  lemma ThreeWhitesRun()
    ensures var r := Run(ThreeWhites(), Pools([], [], [], [], [], [], [], []), [11, 10, 12]);
      r.current == [10, 11] && r.pools.tier1 == [11, 10, 12]
  {
    var cat := ThreeWhites();
    ThreeWhitesTier1();
    var e := Pools([], [], [], [], [], [], [], []);
    var s0 := Run(cat, e, []);
    RunSnoc(cat, e, [], 11);
    assert [] + [11] == [11];
    var s1 := Step(cat, s0, 11);
    assert s1.current == [11] && s1.pools.tier1 == [11] && s1.n.tier1 == 1;
    RunSnoc(cat, e, [11], 10);
    var s2 := Step(cat, s1, 10);
    assert s2.current == [10, 11] && s2.pools.tier1 == [11, 10] && s2.n.tier1 == 2;
    RunSnoc(cat, e, [11, 10], 12);
    assert [11] + [10] == [11, 10] && [11, 10] + [12] == [11, 10, 12];
    var s3 := Step(cat, s2, 12);
    assert s3.current == [10, 11] && s3.pools.tier1 == [11, 10, 12];
  }

  /** The pass over the walk [11, 10, 12] of `ThreeWhites`, from empty
      lists, builds the drop list [10, 11] and the tier 1 pool [11, 10, 12]. */
  lemma ThreeWhitesPass()
    ensures var r := Pass(ThreeWhites(), Pools([], [], [], [], [], [], [], []), [11, 10, 12]);
      r.current == [10, 11] && r.pools.tier1 == [11, 10, 12]
  {
    ThreeWhitesAdmitted();
    ThreeWhitesRun();
  }

  /** Only index 0 is written, so a re-draw can put an entry in the drop
      list twice. A pass over the walk [11, 10, 12] of three tier 1 items
      builds the drop list [10, 11] and the tier 1 pool [11, 10, 12]; a
      re-draw that orders that pool [12, 11, 10] writes 12 and then 11 over
      index 0, leaving [11, 11]. */
  lemma OverwriteCanRepeat()
    ensures var r := Pass(ThreeWhites(), Pools([], [], [], [], [], [], [], []), [11, 10, 12]);
      r.current == [10, 11] && r.pools.tier1 == [11, 10, 12] &&
      multiset([12, 11, 10]) == multiset(r.pools.tier1) &&
      Overwrite(r.current, Draw([12, 11, 10])) == [11, 11]
  {
    ThreeWhitesPass();
    var o: seq<PickupIndex> := [12, 11, 10];
    assert Draw(o) == [12, 11];
    assert multiset(o) == multiset([11, 10, 12]);
  }

  /** A catalog of a tier 1 item 1 and a boss pickup 2 that both print as "N". */
  function BossAndWhite(): Catalogs
  {
    Catalogs(x => PickupDef("N", "Item", x == 2, false, x, -1), {}, {}, {1}, {1}, {}, {})
  }

  /** In `BossAndWhite`, 1 is a tier 1 item and 2 is always granted. */
  lemma BossAndWhiteCategories()
    ensures CategoryOf(BossAndWhite(), 1) == Items(Tier1) && CategoryOf(BossAndWhite(), 2) == Always
  {
    var cat := BossAndWhite();
    assert ToLower("Item") == "item";
    assert !IsScrap(cat.def(1));
  }

  /** A walk of `BossAndWhite` admits only its first entry: the second has
      the same name. */
  lemma BossAndWhiteAdmitted(x: PickupIndex, y: PickupIndex)
    ensures Admitted(BossAndWhite(), [x, y]) == [x]
  {
    var cat := BossAndWhite();
    var w: seq<PickupIndex> := [x, y];
    assert w[..|w| - 1] == [x] && [x][..0] == [];
    assert Name(cat, x) == "N" && Name(cat, y) == "N";
    assert Names(cat, []) == [];
    assert Admitted(cat, [x]) == [x];
    assert Names(cat, [x]) == ["N"];
  }

  /** The first step of a pass of `BossAndWhite`: the tier 1 item 1 is
      picked to the front and joins its pool; the boss pickup 2 is appended
      and joins the always list. */
  lemma BossAndWhiteSteps(start: Pools)
    ensures Step(BossAndWhite(), PassState(start, [], Counts(0, 0, 0, 0, 0)), 1) ==
      PassState(start.(tier1 := start.tier1 + [1], kvp := start.kvp + [(1, Tier1)]), [1], Counts(1, 0, 0, 0, 0))
    ensures Step(BossAndWhite(), PassState(start, [], Counts(0, 0, 0, 0, 0)), 2) ==
      PassState(start.(always := start.always + [2]), [2], Counts(0, 0, 0, 0, 0))
  {
    BossAndWhiteCategories();
    assert BossAndWhite().def(1).equipmentIndex !in BossAndWhite().allEquipment;
  }

  /** A pass of `BossAndWhite` over a walk of two entries is the step of
      its first entry from an empty drop list. */
  lemma BossAndWhitePass(start: Pools, x: PickupIndex, y: PickupIndex)
    ensures Pass(BossAndWhite(), start, [x, y]) ==
      Step(BossAndWhite(), PassState(start, [], Counts(0, 0, 0, 0, 0)), x)
  {
    BossAndWhiteAdmitted(x, y);
    PassOfOne(BossAndWhite(), start, [x, y], x);
  }

  /** A pass whose walk admits one entry is the step of that entry from an
      empty drop list. */
  lemma PassOfOne(cat: Catalogs, start: Pools, w: seq<PickupIndex>, x: PickupIndex)
    requires Admitted(cat, w) == [x]
    ensures Pass(cat, start, w) == Step(cat, PassState(start, [], Counts(0, 0, 0, 0, 0)), x)
  {
    RunSnoc(cat, start, [], x);
    assert [] + [x] == [x];
  }

  /** A pass over [1, 2] of `BossAndWhite` from empty lists puts the tier 1
      item 1 in its pool and leaves the other capped pools empty. */
  lemma BossAndWhiteFirstPass()
    ensures var r := Pass(BossAndWhite(), Pools([], [], [], [], [], [], [], []), [1, 2]);
      r.current == [1] && r.pools.tier1 == [1] && r.pools.tier2 == [] && r.pools.tier3 == [] &&
      r.pools.lunar == [] && r.pools.equip == []
  {
    var e := Pools([], [], [], [], [], [], [], []);
    BossAndWhitePass(e, 1, 2);
    BossAndWhiteSteps(e);
  }

  /** A pass over [2, 1] of `BossAndWhite` admits only the boss pickup, so
      the drop list is [2] and the capped pools stay as they were. */
  lemma BossAndWhiteSecondPass(start: Pools)
    ensures var r := Pass(BossAndWhite(), start, [2, 1]);
      r.current == [2] && r.pools.tier1 == start.tier1 && r.pools.tier2 == start.tier2 &&
      r.pools.tier3 == start.tier3 && r.pools.lunar == start.lunar && r.pools.equip == start.equip
  {
    BossAndWhitePass(start, 2, 1);
    BossAndWhiteSteps(start);
  }

  /** An always-granted entry of the last pass is lost to a re-draw when it
      sits at index 0, that is when the pass placed no capped pick while a
      pool is non-empty. With `BossAndWhite`, a pass over [1, 2] fills the
      tier 1 pool with [1]; a pass over [2, 1] then publishes [2], the boss
      pickup alone; the re-draw draws 1 and writes it over index 0, so the
      boss pickup is gone from the drop list. */
  lemma AlwaysEntryOverwritten()
    ensures var cat, e := BossAndWhite(), Pools([], [], [], [], [], [], [], []);
      var r := Pass(cat, Pass(cat, e, [1, 2]).pools, [2, 1]);
      r.current == [2] && CategoryOf(cat, 2) == Always &&
      r.pools.tier1 == [1] && r.pools.tier2 == [] && r.pools.tier3 == [] && r.pools.lunar == [] &&
      r.pools.equip == [] &&
      Overwrite(r.current, AllDraws([1], [], [], [], [])) == [1]
  {
    var cat, e := BossAndWhite(), Pools([], [], [], [], [], [], [], []);
    BossAndWhiteFirstPass();
    BossAndWhiteSecondPass(Pass(cat, e, [1, 2]).pools);
    BossAndWhiteCategories();
    RedrawOverBoss();
  }

  /** The re-draw over a tier 1 pool [1] and empty other pools writes 1
      over the drop list [2]. */
  lemma RedrawOverBoss()
    ensures Overwrite([2], AllDraws([1], [], [], [], [])) == [1]
  {
    var none: seq<PickupIndex> := [];
    assert AllDraws([1], none, none, none, none) == [1];
  }
}
