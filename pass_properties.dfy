// What one drop-list pass guarantees about the drop list and the records it
// builds, stated on the reference definition the manager is proved to follow.
module PassProperties {
  import opened GameTypes
  import opened Classification
  import opened DropPass
  import opened PassSteps

  /** The admitted entries of a walk carry pairwise distinct names: the
      name check lets only the first entry of each name through. */
  lemma {:induction false} AdmittedDistinct(cat: Catalogs, s: seq<PickupIndex>)
    ensures DistinctNames(cat, Admitted(cat, s))
  {
    if s != [] {
      var p, x := s[..|s| - 1], s[|s| - 1];
      AdmittedDistinct(cat, p);
      AdmittedFromWalk(cat, p);
      var a := Admitted(cat, p);
      if Name(cat, x) !in Names(cat, p) {
        forall y | y in a
          ensures Name(cat, y) != Name(cat, x)
        {
          var j :| 0 <= j < |p| && p[j] == y;
          assert Names(cat, p)[j] == Name(cat, y);
        }
        DistinctSnoc(cat, a, x);
      }
    }
  }

  /** Every name of the walk is the name of an admitted entry: the first
      entry of each name is admitted. */
  lemma {:induction false} AdmittedCoversNames(cat: Catalogs, s: seq<PickupIndex>)
    ensures forall y :: y in s ==> Name(cat, y) in Names(cat, Admitted(cat, s))
  {
    if s != [] {
      var p, x := s[..|s| - 1], s[|s| - 1];
      AdmittedCoversNames(cat, p);
      assert s == p + [x];
      var a := Admitted(cat, p);
      if Name(cat, x) in Names(cat, p) {
        var j :| 0 <= j < |p| && Names(cat, p)[j] == Name(cat, x);
        assert p[j] in p;
      } else {
        forall y | y in a
          ensures Name(cat, y) in Names(cat, a + [x])
        {
          var j :| 0 <= j < |a| && a[j] == y;
          assert Names(cat, a + [x])[j] == Name(cat, y);
        }
        assert Names(cat, a + [x])[|a|] == Name(cat, x);
      }
    }
  }

  /** The drop list built from entries with pairwise distinct names has
      pairwise distinct names, and so no entry twice. */
  lemma {:induction false} LayoutDistinct(cat: Catalogs, a: seq<PickupIndex>)
    requires DistinctNames(cat, a)
    ensures DistinctNames(cat, Layout(cat, a))
    ensures forall i, j :: 0 <= i < j < |Layout(cat, a)| ==> Layout(cat, a)[i] != Layout(cat, a)[j]
  {
    if a == [] {
      assert Layout(cat, a) == [];
    } else {
      var p, x := a[..|a| - 1], a[|a| - 1];
      assert a == p + [x];
      assert DistinctNames(cat, p) by {
        forall i, j | 0 <= i < j < |p|
          ensures Name(cat, p[i]) != Name(cat, p[j])
        {
          assert p[i] == a[i] && p[j] == a[j];
        }
      }
      LayoutDistinct(cat, p);
      var l := Layout(cat, p);
      LayoutMembers(cat, p);
      forall y | y in l
        ensures Name(cat, y) != Name(cat, x)
      {
        var j :| 0 <= j < |p| && p[j] == y;
        assert a[j] == y && a[|a| - 1] == x;
      }
      if CategoryOf(cat, x) == Always {
        LayoutSnocAlways(cat, p, x);
        DistinctSnoc(cat, l, x);
      } else if IsPick(cat, p, x) {
        LayoutSnocPick(cat, p, x);
        DistinctInsert(cat, l, Offset(cat, p, CategoryOf(cat, x)), x);
      } else {
        LayoutSnocUnchanged(cat, p, x);
      }
    }
  }

  /** A pass over any shuffle of the baseline publishes a drop list with no
      repeated name and no repeated entry. */
  lemma PassDistinct(cat: Catalogs, s: seq<PickupIndex>)
    ensures DistinctNames(cat, Layout(cat, Admitted(cat, s)))
    ensures forall i, j :: 0 <= i < j < |Layout(cat, Admitted(cat, s))| ==>
      Layout(cat, Admitted(cat, s))[i] != Layout(cat, Admitted(cat, s))[j]
  {
    AdmittedDistinct(cat, s);
    LayoutDistinct(cat, Admitted(cat, s));
  }

  /** The picks of a pass are recorded once each: the number of (item, tier)
      records plus equipment records is the number of picks. */
  lemma {:induction false} GrantsPerPick(cat: Catalogs, a: seq<PickupIndex>)
    ensures |ItemGrants(cat, a)| + |EquipGrants(cat, a)| == Total(Tally(cat, a))
  {
    if a != [] {
      var p, x := a[..|a| - 1], a[|a| - 1];
      assert a == p + [x];
      GrantsPerPick(cat, p);
      CountedStep(cat, p, x, Tally(cat, p));
      if IsPick(cat, p, x) {
        assert |ItemGrants(cat, a)| + |EquipGrants(cat, a)| == |ItemGrants(cat, p)| + |EquipGrants(cat, p)| + 1;
      } else {
        assert ItemGrants(cat, a) == ItemGrants(cat, p) && EquipGrants(cat, a) == EquipGrants(cat, p);
      }
    }
  }

  /** The entries of `l` are in block order: no entry comes before one of
      a category laid out earlier. */
  predicate InBlockOrder(cat: Catalogs, l: seq<PickupIndex>)
  {
    forall i, j :: 0 <= i < j < |l| ==> Rank(CategoryOf(cat, l[i])) <= Rank(CategoryOf(cat, l[j]))
  }

  /** The drop list is in block order: tier 1 picks, tier 2, tier 3, lunar,
      equipment, then the always-granted entries. */
  lemma LayoutInBlockOrder(cat: Catalogs, a: seq<PickupIndex>)
    ensures InBlockOrder(cat, Layout(cat, a))
  {
    var b1, b2, b3 := Block(cat, a, Items(Tier1)), Block(cat, a, Items(Tier2)), Block(cat, a, Items(Tier3));
    var b4, b5, al := Block(cat, a, Items(Lunar)), Block(cat, a, Equipment), OfCategory(cat, a, Always);
    BlockMembers(cat, a, Items(Tier1));
    BlockMembers(cat, a, Items(Tier2));
    BlockMembers(cat, a, Items(Tier3));
    BlockMembers(cat, a, Items(Lunar));
    BlockMembers(cat, a, Equipment);
    OfCategoryMembers(cat, a, Always);
    SameRankInOrder(cat, b1, 0);
    SameRankInOrder(cat, b2, 1);
    SameRankInOrder(cat, b3, 2);
    SameRankInOrder(cat, b4, 3);
    SameRankInOrder(cat, b5, 4);
    SameRankInOrder(cat, al, 5);
    InOrderAppend(cat, b1, b2, 1);
    InOrderAppend(cat, b1 + b2, b3, 2);
    InOrderAppend(cat, b1 + b2 + b3, b4, 3);
    InOrderAppend(cat, b1 + b2 + b3 + b4, b5, 4);
    InOrderAppend(cat, b1 + b2 + b3 + b4 + b5, al, 5);
  }

  /** What the manager holds after a pass over the shuffle `s`: a drop list
      in block order with no repeated name or entry, at most two picks per
      capped category, one record per pick, and pools that only grew. */
  lemma PassOutcome(cat: Catalogs, s: seq<PickupIndex>, start: Pools)
    ensures DistinctNames(cat, Pass(cat, start, s).current)
    ensures var current := Pass(cat, start, s).current;
      forall i, j :: 0 <= i < j < |current| ==> current[i] != current[j]
    ensures InBlockOrder(cat, Pass(cat, start, s).current)
    ensures var n := Pass(cat, start, s).n;
      n.tier1 <= PicksPerPool && n.tier2 <= PicksPerPool && n.tier3 <= PicksPerPool &&
      n.lunar <= PicksPerPool && n.equip <= PicksPerPool
    ensures var r := Pass(cat, start, s);
      |r.pools.kvp| - |start.kvp| + |r.pools.equipRecords| - |start.equipRecords| ==
      Total(r.n)
    ensures var now := Pass(cat, start, s).pools;
      start.tier1 <= now.tier1 && start.tier2 <= now.tier2 && start.tier3 <= now.tier3 &&
      start.lunar <= now.lunar && start.equip <= now.equip && start.always <= now.always
  {
    var a := Admitted(cat, s);
    var r := Run(cat, start, a);
    RunReaches(cat, start, a);
    PassDistinct(cat, s);
    LayoutInBlockOrder(cat, a);
    GrantsPerPick(cat, a);
  }

  /* ---------- what each category contributes to the drop list ---------- */

  /** Picking out one category commutes with concatenation. */
  lemma {:induction false} OfCategoryAppend(cat: Catalogs, s: seq<PickupIndex>, t: seq<PickupIndex>, c: Category)
    ensures OfCategory(cat, s + t, c) == OfCategory(cat, s, c) + OfCategory(cat, t, c)
  {
    if t != [] {
      var p, x := t[..|t| - 1], t[|t| - 1];
      assert t == p + [x];
      OfCategoryAppend(cat, s, p, c);
      assert s + t == (s + p) + [x];
      OfCategorySnoc(cat, s + p, x, c);
      OfCategorySnoc(cat, p, x, c);
    } else {
      assert s + t == s;
    }
  }

  /** Picking category `c` out of a list whose entries all have category
      `d` keeps the whole list when `c == d` and nothing otherwise. */
  lemma {:induction false} OfCategoryUniform(cat: Catalogs, s: seq<PickupIndex>, c: Category, d: Category)
    requires forall y :: y in s ==> CategoryOf(cat, y) == d
    ensures OfCategory(cat, s, c) == if c == d then s else []
  {
    if s != [] {
      var p, x := s[..|s| - 1], s[|s| - 1];
      assert s == p + [x];
      OfCategoryUniform(cat, p, c, d);
    }
  }

  /** Picking out one category from a list of six parts picks it out of each part. */
  lemma OfCategorySix(cat: Catalogs, b1: seq<PickupIndex>, b2: seq<PickupIndex>, b3: seq<PickupIndex>,
                      b4: seq<PickupIndex>, b5: seq<PickupIndex>, b6: seq<PickupIndex>, c: Category)
    ensures OfCategory(cat, b1 + b2 + b3 + b4 + b5 + b6, c) ==
      OfCategory(cat, b1, c) + OfCategory(cat, b2, c) + OfCategory(cat, b3, c) +
      OfCategory(cat, b4, c) + OfCategory(cat, b5, c) + OfCategory(cat, b6, c)
  {
    OfCategoryAppend(cat, b1, b2, c);
    OfCategoryAppend(cat, b1 + b2, b3, c);
    OfCategoryAppend(cat, b1 + b2 + b3, b4, c);
    OfCategoryAppend(cat, b1 + b2 + b3 + b4, b5, c);
    OfCategoryAppend(cat, b1 + b2 + b3 + b4 + b5, b6, c);
  }

  /** Picking category `c` out of the block of `d` keeps the block when
      `c == d` and nothing otherwise; likewise for the always entries. */
  lemma PartOfCategory(cat: Catalogs, a: seq<PickupIndex>, d: Category, c: Category)
    ensures Capped(d) ==> OfCategory(cat, Block(cat, a, d), c) == if c == d then Block(cat, a, d) else []
    ensures d == Always ==> OfCategory(cat, OfCategory(cat, a, d), c) == if c == d then OfCategory(cat, a, d) else []
  {
    if Capped(d) {
      BlockMembers(cat, a, d);
      OfCategoryUniform(cat, Block(cat, a, d), c, d);
    } else if d == Always {
      OfCategoryMembers(cat, a, d);
      OfCategoryUniform(cat, OfCategory(cat, a, d), c, d);
    }
  }

  /** The entries of each category in the drop list: for a capped category,
      exactly its block (the first two of its admitted entries, most recent
      first); for the always-granted category, every admitted always entry in
      encounter order; for unmatched entries, none. */
  lemma LayoutByCategory(cat: Catalogs, a: seq<PickupIndex>, c: Category)
    ensures OfCategory(cat, Layout(cat, a), c) ==
      if Capped(c) then Block(cat, a, c)
      else if c == Always then OfCategory(cat, a, Always)
      else []
  {
    var b1, b2, b3 := Block(cat, a, Items(Tier1)), Block(cat, a, Items(Tier2)), Block(cat, a, Items(Tier3));
    var b4, b5, al := Block(cat, a, Items(Lunar)), Block(cat, a, Equipment), OfCategory(cat, a, Always);
    OfCategorySix(cat, b1, b2, b3, b4, b5, al, c);
    PartOfCategory(cat, a, Items(Tier1), c);
    PartOfCategory(cat, a, Items(Tier2), c);
    PartOfCategory(cat, a, Items(Tier3), c);
    PartOfCategory(cat, a, Items(Lunar), c);
    PartOfCategory(cat, a, Equipment, c);
    PartOfCategory(cat, a, Always, c);
    var r1, r2, r3 := OfCategory(cat, b1, c), OfCategory(cat, b2, c), OfCategory(cat, b3, c);
    var r4, r5, r6 := OfCategory(cat, b4, c), OfCategory(cat, b5, c), OfCategory(cat, al, c);
    OnePart(r1, r2, r3, r4, r5, r6);
    assert Layout(cat, a) == b1 + b2 + b3 + b4 + b5 + al;
    assert OfCategory(cat, Layout(cat, a), c) == r1 + r2 + r3 + r4 + r5 + r6;
    match c {
      case Items(Tier1) => assert r1 + r2 + r3 + r4 + r5 + r6 == b1;
      case Items(Tier2) => assert r1 + r2 + r3 + r4 + r5 + r6 == b2;
      case Items(Tier3) => assert r1 + r2 + r3 + r4 + r5 + r6 == b3;
      case Items(Lunar) => assert r1 + r2 + r3 + r4 + r5 + r6 == b4;
      case Equipment => assert r1 + r2 + r3 + r4 + r5 + r6 == b5;
      case Always => assert r1 + r2 + r3 + r4 + r5 + r6 == al;
      case Unmatched => assert r1 + r2 + r3 + r4 + r5 + r6 == [];
    }
  }

  /** Six parts of which at most one is non-empty concatenate to that one. */
  lemma OnePart<T>(r1: seq<T>, r2: seq<T>, r3: seq<T>, r4: seq<T>, r5: seq<T>, r6: seq<T>)
    ensures r2 == r3 == r4 == r5 == r6 == [] ==> r1 + r2 + r3 + r4 + r5 + r6 == r1
    ensures r1 == r3 == r4 == r5 == r6 == [] ==> r1 + r2 + r3 + r4 + r5 + r6 == r2
    ensures r1 == r2 == r4 == r5 == r6 == [] ==> r1 + r2 + r3 + r4 + r5 + r6 == r3
    ensures r1 == r2 == r3 == r5 == r6 == [] ==> r1 + r2 + r3 + r4 + r5 + r6 == r4
    ensures r1 == r2 == r3 == r4 == r6 == [] ==> r1 + r2 + r3 + r4 + r5 + r6 == r5
    ensures r1 == r2 == r3 == r4 == r5 == [] ==> r1 + r2 + r3 + r4 + r5 + r6 == r6
  {
  }

  /** A pass places min(2, n) entries of each capped category, where n is
      the number of its admitted entries, and every admitted always-granted
      entry (boss, scrap, non-standard equipment, unknown item) whatever the
      shuffle. */
  lemma PassPlacement(cat: Catalogs, s: seq<PickupIndex>, c: Category)
    ensures var a := Admitted(cat, s);
      Capped(c) ==> |OfCategory(cat, Layout(cat, a), c)| == Min(PicksPerPool, |OfCategory(cat, a, c)|)
    ensures var a := Admitted(cat, s);
      forall y :: y in a && CategoryOf(cat, y) == Always ==> y in Layout(cat, a)
  {
    var a := Admitted(cat, s);
    LayoutByCategory(cat, a, c);
    LayoutByCategory(cat, a, Always);
    OfCategoryMembers(cat, a, Always);
    OfCategoryMembers(cat, Layout(cat, a), Always);
  }

  /* ---------- helpers ---------- */

  lemma DistinctSnoc(cat: Catalogs, l: seq<PickupIndex>, x: PickupIndex)
    requires DistinctNames(cat, l)
    requires forall y :: y in l ==> Name(cat, y) != Name(cat, x)
    ensures DistinctNames(cat, l + [x])
  {
    forall i, j | 0 <= i < j < |l + [x]|
      ensures Name(cat, (l + [x])[i]) != Name(cat, (l + [x])[j])
    {
      if j == |l| {
        assert (l + [x])[i] == l[i] && l[i] in l;
      }
    }
  }

  lemma DistinctInsert(cat: Catalogs, l: seq<PickupIndex>, k: nat, x: PickupIndex)
    requires k <= |l| && DistinctNames(cat, l)
    requires forall y :: y in l ==> Name(cat, y) != Name(cat, x)
    ensures DistinctNames(cat, Insert(l, k, x))
  {
    var r := Insert(l, k, x);
    forall i, j | 0 <= i < j < |r|
      ensures Name(cat, r[i]) != Name(cat, r[j])
    {
      var i' := if i < k then i else i - 1;
      var j' := if j < k then j else j - 1;
      if i == k {
        assert l[j'] in l;
      } else if j == k {
        assert l[i'] in l;
      } else {
        assert r[i] == l[i'] && r[j] == l[j'];
      }
    }
  }

  lemma SameRankInOrder(cat: Catalogs, l: seq<PickupIndex>, k: nat)
    requires forall y :: y in l ==> Rank(CategoryOf(cat, y)) == k
    ensures InBlockOrder(cat, l)
  {
    forall i, j | 0 <= i < j < |l|
      ensures Rank(CategoryOf(cat, l[i])) <= Rank(CategoryOf(cat, l[j]))
    {
      assert l[i] in l && l[j] in l;
    }
  }

  lemma InOrderAppend(cat: Catalogs, l: seq<PickupIndex>, m: seq<PickupIndex>, k: nat)
    requires InBlockOrder(cat, l) && InBlockOrder(cat, m)
    requires forall y :: y in l ==> Rank(CategoryOf(cat, y)) <= k
    requires forall y :: y in m ==> Rank(CategoryOf(cat, y)) == k
    ensures InBlockOrder(cat, l + m)
    ensures forall y :: y in l + m ==> Rank(CategoryOf(cat, y)) <= k
  {
    var r := l + m;
    forall i, j | 0 <= i < j < |r|
      ensures Rank(CategoryOf(cat, r[i])) <= Rank(CategoryOf(cat, r[j]))
    {
      if j < |l| {
        assert r[i] == l[i] && r[j] == l[j];
      } else if i < |l| {
        assert r[i] == l[i] && l[i] in l && r[j] == m[j - |l|] && m[j - |l|] in m;
      } else {
        assert r[i] == m[i - |l|] && r[j] == m[j - |l|];
      }
    }
  }
}
