// The reference definition of one drop-list pass: which entries of a shuffled
// baseline are classified, which become picks, where they sit in the drop
// list and what gets recorded for the game's drop tables. The imperative pass
// in the manager is proved equal to these functions.
module DropPass {
  import opened GameTypes
  import opened Classification

  /** The cap on picks per capped pool in one pass (and in one re-draw). */
  const PicksPerPool: nat := 2

  function Min(a: int, b: int): int
  {
    if a <= b then a else b
  }

  /* ---------- sequence helpers ---------- */

  /** `List.Insert(i, x)`: `x` lands at index `i` and later entries shift up. */
  function Insert<T>(s: seq<T>, i: nat, x: T): (r: seq<T>)
    requires i <= |s|
    ensures |r| == |s| + 1 && r[i] == x
    ensures forall j :: 0 <= j < i ==> r[j] == s[j]
    ensures forall j :: i < j < |r| ==> r[j] == s[j - 1]
  {
    s[..i] + [x] + s[i..]
  }

  function Reverse<T>(s: seq<T>): (r: seq<T>)
    ensures |r| == |s|
    ensures forall j :: 0 <= j < |s| ==> r[j] == s[|s| - 1 - j]
  {
    if s == [] then [] else [s[|s| - 1]] + Reverse(s[..|s| - 1])
  }

  /** The first `PicksPerPool` entries of `s`, or all of them if fewer. */
  function FirstPicks<T>(s: seq<T>): (r: seq<T>)
    ensures |r| == Min(PicksPerPool, |s|)
    ensures r <= s
  {
    s[..Min(PicksPerPool, |s|)]
  }

  /* ---------- names and the two skip checks ---------- */

  /** The names of the entries of `s`, in order. */
  function Names(cat: Catalogs, s: seq<PickupIndex>): seq<string>
  {
    seq(|s|, j requires 0 <= j < |s| => Name(cat, s[j]))
  }

  /** No two entries of `s` share a name (so no two are the same handle). */
  predicate DistinctNames(cat: Catalogs, s: seq<PickupIndex>)
  {
    forall i, j :: 0 <= i < j < |s| ==> Name(cat, s[i]) != Name(cat, s[j])
  }

  /** The entries of the walk `s` that pass both skip checks: an entry is
      skipped exactly when an earlier entry of the walk had its name. */
  function Admitted(cat: Catalogs, s: seq<PickupIndex>): seq<PickupIndex>
  {
    if s == [] then []
    else
      var p := s[..|s| - 1];
      if Name(cat, s[|s| - 1]) in Names(cat, p) then Admitted(cat, p)
      else Admitted(cat, p) + [s[|s| - 1]]
  }

  /** The entries of `s` of category `c`, in encounter order. */
  function OfCategory(cat: Catalogs, s: seq<PickupIndex>, c: Category): seq<PickupIndex>
  {
    if s == [] then []
    else
      OfCategory(cat, s[..|s| - 1], c) +
      (if CategoryOf(cat, s[|s| - 1]) == c then [s[|s| - 1]] else [])
  }

  /* ---------- the drop list a pass builds ---------- */

  /** The block of category `c` in the drop list: the first picks of the
      category, most recent first. */
  function Block(cat: Catalogs, a: seq<PickupIndex>, c: Category): seq<PickupIndex>
  {
    Reverse(FirstPicks(OfCategory(cat, a, c)))
  }

  /** The drop list after classifying the admitted entries `a`: the capped
      blocks in order Tier1, Tier2, Tier3, Lunar, Equipment, then every
      always-granted entry in encounter order. */
  function Layout(cat: Catalogs, a: seq<PickupIndex>): seq<PickupIndex>
  {
    Block(cat, a, Items(Tier1)) + Block(cat, a, Items(Tier2)) + Block(cat, a, Items(Tier3)) +
    Block(cat, a, Items(Lunar)) + Block(cat, a, Equipment) + OfCategory(cat, a, Always)
  }

  /** Where the block of capped category `c` starts in the drop list. */
  function Offset(cat: Catalogs, a: seq<PickupIndex>, c: Category): nat
    requires Capped(c)
  {
    var b1, b2, b3 := |Block(cat, a, Items(Tier1))|, |Block(cat, a, Items(Tier2))|, |Block(cat, a, Items(Tier3))|;
    match c
    case Items(Tier1) => 0
    case Items(Tier2) => b1
    case Items(Tier3) => b1 + b2
    case Items(Lunar) => b1 + b2 + b3
    case Equipment => b1 + b2 + b3 + |Block(cat, a, Items(Lunar))|
  }

  /** An entry arriving after `p` is picked when its category is capped and
      fewer than `PicksPerPool` entries of that category came before it. */
  predicate IsPick(cat: Catalogs, p: seq<PickupIndex>, x: PickupIndex)
  {
    var c := CategoryOf(cat, x);
    Capped(c) && |OfCategory(cat, p, c)| < PicksPerPool
  }

  /** A pick is recorded as equipment when it is standard equipment, or a
      lunar pickup whose equipment handle is in the full equipment catalog. */
  predicate GrantsEquipment(cat: Catalogs, x: PickupIndex)
  {
    var c := CategoryOf(cat, x);
    c == Equipment || (c == Items(Lunar) && cat.def(x).equipmentIndex in cat.allEquipment)
  }

  /** The (item, tier) pairs the picks among `a` record, in encounter order. */
  function ItemGrants(cat: Catalogs, a: seq<PickupIndex>): seq<(ItemIndex, ItemTier)>
  {
    if a == [] then []
    else
      var p, x := a[..|a| - 1], a[|a| - 1];
      ItemGrants(cat, p) +
      (if IsPick(cat, p, x) && !GrantsEquipment(cat, x)
       then [(cat.def(x).itemIndex, CategoryOf(cat, x).tier)] else [])
  }

  /** The equipment handles the picks among `a` record, in encounter order. */
  function EquipGrants(cat: Catalogs, a: seq<PickupIndex>): seq<EquipmentIndex>
  {
    if a == [] then []
    else
      var p, x := a[..|a| - 1], a[|a| - 1];
      EquipGrants(cat, p) +
      (if IsPick(cat, p, x) && GrantsEquipment(cat, x) then [cat.def(x).equipmentIndex] else [])
  }

  /* ---------- lemmas: sequences ---------- */

  lemma {:induction false} InsertBetween<T>(p: seq<T>, q: seq<T>, x: T)
    ensures Insert(p + q, |p|, x) == p + [x] + q
  {
    assert (p + q)[..|p|] == p;
    assert (p + q)[|p|..] == q;
  }

  lemma ReverseSnoc<T>(s: seq<T>, x: T)
    ensures Reverse(s + [x]) == [x] + Reverse(s)
  {
  }

  lemma ReverseMembers<T>(s: seq<T>)
    ensures forall y :: y in Reverse(s) <==> y in s
  {
    forall y | y in s ensures y in Reverse(s) {
      var j :| 0 <= j < |s| && s[j] == y;
      assert Reverse(s)[|s| - 1 - j] == y;
    }
  }

  /** Appending an entry to the walk adds its category's pick to the front
      of that block while the cap is not reached. */
  lemma {:induction false} BlockSnoc(cat: Catalogs, a: seq<PickupIndex>, x: PickupIndex, c: Category)
    ensures Block(cat, a + [x], c) ==
      if CategoryOf(cat, x) == c && |OfCategory(cat, a, c)| < PicksPerPool
      then [x] + Block(cat, a, c) else Block(cat, a, c)
  {
    OfCategorySnoc(cat, a, x, c);
    var o := OfCategory(cat, a, c);
    if CategoryOf(cat, x) == c && |o| < PicksPerPool {
      assert FirstPicks(o + [x]) == FirstPicks(o) + [x];
      ReverseSnoc(FirstPicks(o), x);
    } else if CategoryOf(cat, x) == c {
      assert FirstPicks(o + [x]) == FirstPicks(o);
    }
  }

  lemma {:induction false} OfCategorySnoc(cat: Catalogs, a: seq<PickupIndex>, x: PickupIndex, c: Category)
    ensures OfCategory(cat, a + [x], c) ==
      OfCategory(cat, a, c) + (if CategoryOf(cat, x) == c then [x] else [])
  {
    assert (a + [x])[..|a|] == a;
  }

  /* ---------- lemmas: the pass ---------- */

  /** Membership in a category's entries: exactly the entries of that category. */
  lemma {:induction false} OfCategoryMembers(cat: Catalogs, s: seq<PickupIndex>, c: Category)
    ensures forall y :: y in OfCategory(cat, s, c) <==> y in s && CategoryOf(cat, y) == c
  {
    if s != [] {
      var p := s[..|s| - 1];
      OfCategoryMembers(cat, p, c);
      assert s == p + [s[|s| - 1]];
    }
  }

  /** Every entry of a block is an entry of the walk with that block's category. */
  lemma BlockMembers(cat: Catalogs, a: seq<PickupIndex>, c: Category)
    ensures forall y :: y in Block(cat, a, c) ==> y in OfCategory(cat, a, c)
    ensures forall y :: y in Block(cat, a, c) ==> y in a && CategoryOf(cat, y) == c
  {
    OfCategoryMembers(cat, a, c);
    ReverseMembers(FirstPicks(OfCategory(cat, a, c)));
  }

  /** Every entry of the drop list is an admitted entry that was either
      picked or is always granted; unmatched entries never appear. */
  lemma LayoutMembers(cat: Catalogs, a: seq<PickupIndex>)
    ensures forall y :: y in Layout(cat, a) ==> y in a
    ensures forall y :: y in Layout(cat, a) ==> CategoryOf(cat, y) != Unmatched
  {
    BlockMembers(cat, a, Items(Tier1));
    BlockMembers(cat, a, Items(Tier2));
    BlockMembers(cat, a, Items(Tier3));
    BlockMembers(cat, a, Items(Lunar));
    BlockMembers(cat, a, Equipment);
    OfCategoryMembers(cat, a, Always);
  }

  /** The drop list as its six parts, with the parts after one more
      admitted entry `x`: only the part of `x`'s category can change. */
  lemma {:induction false} LayoutParts(cat: Catalogs, a: seq<PickupIndex>, x: PickupIndex)
    ensures Layout(cat, a) ==
      Block(cat, a, Items(Tier1)) + Block(cat, a, Items(Tier2)) + Block(cat, a, Items(Tier3)) +
      Block(cat, a, Items(Lunar)) + Block(cat, a, Equipment) + OfCategory(cat, a, Always)
    ensures forall c :: CategoryOf(cat, x) != c ==>
      Block(cat, a + [x], c) == Block(cat, a, c) && OfCategory(cat, a + [x], c) == OfCategory(cat, a, c)
  {
    forall c | CategoryOf(cat, x) != c
      ensures Block(cat, a + [x], c) == Block(cat, a, c) && OfCategory(cat, a + [x], c) == OfCategory(cat, a, c)
    {
      BlockSnoc(cat, a, x, c);
      OfCategorySnoc(cat, a, x, c);
    }
  }

  /** An always-granted entry is appended to the drop list. */
  lemma LayoutSnocAlways(cat: Catalogs, a: seq<PickupIndex>, x: PickupIndex)
    requires CategoryOf(cat, x) == Always
    ensures Layout(cat, a + [x]) == Layout(cat, a) + [x]
  {
    LayoutParts(cat, a, x);
    OfCategorySnoc(cat, a, x, Always);
    var p := Block(cat, a, Items(Tier1)) + Block(cat, a, Items(Tier2)) + Block(cat, a, Items(Tier3)) +
             Block(cat, a, Items(Lunar)) + Block(cat, a, Equipment);
    var al := OfCategory(cat, a, Always);
    assert Layout(cat, a + [x]) == p + (al + [x]);
    AppendAssoc(p, al, [x]);
  }

  /** Concatenation is associative. */
  lemma AppendAssoc<T>(p: seq<T>, q: seq<T>, r: seq<T>)
    ensures p + q + r == p + (q + r)
  {
  }

  /** An entry that is neither picked nor always granted leaves the drop list as it is. */
  lemma LayoutSnocUnchanged(cat: Catalogs, a: seq<PickupIndex>, x: PickupIndex)
    requires CategoryOf(cat, x) != Always && !IsPick(cat, a, x)
    ensures Layout(cat, a + [x]) == Layout(cat, a)
  {
    LayoutParts(cat, a, x);
    BlockSnoc(cat, a, x, CategoryOf(cat, x));
  }

  /** A pick is inserted at the front of its category's block. */
  lemma LayoutSnocPick(cat: Catalogs, a: seq<PickupIndex>, x: PickupIndex)
    requires IsPick(cat, a, x)
    ensures Offset(cat, a, CategoryOf(cat, x)) <= |Layout(cat, a)|
    ensures Layout(cat, a + [x]) == Insert(Layout(cat, a), Offset(cat, a, CategoryOf(cat, x)), x)
  {
    var c := CategoryOf(cat, x);
    var b1, b2, b3 := Block(cat, a, Items(Tier1)), Block(cat, a, Items(Tier2)), Block(cat, a, Items(Tier3));
    var b4, b5, al := Block(cat, a, Items(Lunar)), Block(cat, a, Equipment), OfCategory(cat, a, Always);
    LayoutParts(cat, a, x);
    BlockSnoc(cat, a, x, c);
    var l, o := Layout(cat, a), Offset(cat, a, c);
    match c
    case Items(Tier1) =>
      InsertInto(l, o, b1, b2, b3, b4, b5, al, 0, x);
      assert Layout(cat, a + [x]) == [x] + b1 + b2 + b3 + b4 + b5 + al;
    case Items(Tier2) =>
      InsertInto(l, o, b1, b2, b3, b4, b5, al, 1, x);
      assert Layout(cat, a + [x]) == b1 + ([x] + b2) + b3 + b4 + b5 + al;
    case Items(Tier3) =>
      InsertInto(l, o, b1, b2, b3, b4, b5, al, 2, x);
      assert Layout(cat, a + [x]) == b1 + b2 + ([x] + b3) + b4 + b5 + al;
    case Items(Lunar) =>
      InsertInto(l, o, b1, b2, b3, b4, b5, al, 3, x);
      assert Layout(cat, a + [x]) == b1 + b2 + b3 + ([x] + b4) + b5 + al;
    case Equipment =>
      InsertInto(l, o, b1, b2, b3, b4, b5, al, 4, x);
      assert Layout(cat, a + [x]) == b1 + b2 + b3 + b4 + ([x] + b5) + al;
  }

  /** Inserting at the start of the `k`-th of five blocks (followed by a tail)
      puts the entry at the front of that block. */
  lemma InsertInto<T>(l: seq<T>, o: nat, b1: seq<T>, b2: seq<T>, b3: seq<T>, b4: seq<T>, b5: seq<T>, al: seq<T>,
                      k: nat, x: T)
    requires k < 5 && l == b1 + b2 + b3 + b4 + b5 + al
    requires o == if k == 0 then 0 else if k == 1 then |b1| else if k == 2 then |b1| + |b2|
                  else if k == 3 then |b1| + |b2| + |b3| else |b1| + |b2| + |b3| + |b4|
    ensures o <= |l|
    ensures Insert(l, o, x) ==
      (if k == 0 then [x] + b1 else b1) + (if k == 1 then [x] + b2 else b2) +
      (if k == 2 then [x] + b3 else b3) + (if k == 3 then [x] + b4 else b4) +
      (if k == 4 then [x] + b5 else b5) + al
  {
    var s1, s2, s3, s4 := b1 + b2, b1 + b2 + b3, b1 + b2 + b3 + b4, b1 + b2 + b3 + b4 + b5;
    InsertLeft(s4, al, o, x);
    if k == 4 {
      InsertAfter(s3, b5, x);
    } else {
      InsertLeft(s3, b5, o, x);
      if k == 3 {
        InsertAfter(s2, b4, x);
      } else {
        InsertLeft(s2, b4, o, x);
        if k == 2 {
          InsertAfter(s1, b3, x);
        } else {
          InsertLeft(s1, b3, o, x);
          if k == 1 {
            InsertAfter(b1, b2, x);
          } else {
            InsertLeft(b1, b2, o, x);
            InsertAfter([], b1, x);
            assert [] + b1 == b1;
          }
        }
      }
    }
  }

  /** Inserting inside the front part of a concatenation leaves the back part alone. */
  lemma InsertLeft<T>(s: seq<T>, t: seq<T>, i: nat, x: T)
    requires i <= |s|
    ensures Insert(s + t, i, x) == Insert(s, i, x) + t
  {
  }

  lemma InsertAfter<T>(p: seq<T>, q: seq<T>, x: T)
    ensures Insert(p + q, |p|, x) == p + ([x] + q)
  {
    InsertBetween(p, q, x);
  }

  /* ---------- lemmas: one step of the walk ---------- */

  /** One step of the walk: the names seen grow by the entry's name, and the
      entry is admitted exactly when its name was not seen. */
  lemma {:induction false} WalkStep(cat: Catalogs, s: seq<PickupIndex>, k: nat)
    requires k < |s|
    ensures Names(cat, s[..k + 1]) == Names(cat, s[..k]) + [Name(cat, s[k])]
    ensures Admitted(cat, s[..k + 1]) ==
      if Name(cat, s[k]) in Names(cat, s[..k]) then Admitted(cat, s[..k])
      else Admitted(cat, s[..k]) + [s[k]]
  {
    assert s[..k + 1][..k] == s[..k];
  }

  /** The first skip check is subsumed by the second: an entry already in the
      drop list has its name among those seen. */
  lemma {:induction false} PlacedWasSeen(cat: Catalogs, s: seq<PickupIndex>, k: nat)
    requires k < |s|
    requires s[k] in Layout(cat, Admitted(cat, s[..k]))
    ensures Name(cat, s[k]) in Names(cat, s[..k])
  {
    var a := Admitted(cat, s[..k]);
    LayoutMembers(cat, a);
    AdmittedFromWalk(cat, s[..k]);
    var j :| 0 <= j < k && s[..k][j] == s[k];
    assert Names(cat, s[..k])[j] == Name(cat, s[k]);
  }

  /** The admitted entries are entries of the walk. */
  lemma {:induction false} AdmittedFromWalk(cat: Catalogs, s: seq<PickupIndex>)
    ensures forall y :: y in Admitted(cat, s) ==> y in s
  {
    if s != [] {
      var p := s[..|s| - 1];
      AdmittedFromWalk(cat, p);
      assert s == p + [s[|s| - 1]];
    }
  }

  /** One more admitted entry `x` leaves the entries and the block of every
      other category as they were. */
  lemma StepElsewhere(cat: Catalogs, a: seq<PickupIndex>, x: PickupIndex)
    ensures forall c :: c != CategoryOf(cat, x) ==> OfCategory(cat, a + [x], c) == OfCategory(cat, a, c)
    ensures forall c :: c != CategoryOf(cat, x) ==> Block(cat, a + [x], c) == Block(cat, a, c)
  {
    LayoutParts(cat, a, x);
  }

  /** A block holds the first `PicksPerPool` entries of its category. */
  lemma BlockSize(cat: Catalogs, a: seq<PickupIndex>, c: Category)
    ensures |Block(cat, a, c)| == Min(PicksPerPool, |OfCategory(cat, a, c)|)
  {
  }
}
