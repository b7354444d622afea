// One step of the drop-list pass on values: the lists the pass grows, the
// state they reach after the admitted entries of a walk, and how each kind
// of entry moves that state one step on.
module PassSteps {
  import opened GameTypes
  import opened Classification
  import opened DropPass

  /** The lists a pass appends to: the five capped pools, the always-granted
      entries, the (item, tier) records and the equipment records. */
  datatype Pools = Pools(
    tier1: seq<PickupIndex>,
    tier2: seq<PickupIndex>,
    tier3: seq<PickupIndex>,
    lunar: seq<PickupIndex>,
    equip: seq<PickupIndex>,
    always: seq<PickupIndex>,
    kvp: seq<(ItemIndex, ItemTier)>,
    equipRecords: seq<EquipmentIndex>)

  /** `p` with `x` appended to the list of category `c` (no list for Unmatched). */
  function AddTo(p: Pools, c: Category, x: PickupIndex): (r: Pools)
    ensures r.kvp == p.kvp && r.equipRecords == p.equipRecords
  {
    match c
    case Items(Tier1) => p.(tier1 := p.tier1 + [x])
    case Items(Tier2) => p.(tier2 := p.tier2 + [x])
    case Items(Tier3) => p.(tier3 := p.tier3 + [x])
    case Items(Lunar) => p.(lunar := p.lunar + [x])
    case Equipment => p.(equip := p.equip + [x])
    case Always => p.(always := p.always + [x])
    case Unmatched => p
  }

  /** `p` with the record of the pick `x`: its equipment handle when it
      grants equipment, its (item, tier) pair otherwise. */
  function Grant(cat: Catalogs, p: Pools, x: PickupIndex): (r: Pools)
    requires Capped(CategoryOf(cat, x))
    ensures |r.kvp| + |r.equipRecords| == |p.kvp| + |p.equipRecords| + 1
  {
    if GrantsEquipment(cat, x) then p.(equipRecords := p.equipRecords + [cat.def(x).equipmentIndex])
    else p.(kvp := p.kvp + [(cat.def(x).itemIndex, CategoryOf(cat, x).tier)])
  }

  /** The five pick counters of a pass: tier 1, tier 2, tier 3, lunar and
      equipment picks placed so far. */
  datatype Counts = Counts(tier1: nat, tier2: nat, tier3: nat, lunar: nat, equip: nat)

  /** `n` with the counter of capped category `c` one higher. */
  function Bump(n: Counts, c: Category): (r: Counts)
    requires Capped(c)
    ensures Total(r) == Total(n) + 1
  {
    match c
    case Items(Tier1) => n.(tier1 := n.tier1 + 1)
    case Items(Tier2) => n.(tier2 := n.tier2 + 1)
    case Items(Tier3) => n.(tier3 := n.tier3 + 1)
    case Items(Lunar) => n.(lunar := n.lunar + 1)
    case Equipment => n.(equip := n.equip + 1)
  }

  /** The number of picks of each capped category after the admitted
      entries `a`: the entries of that category, up to the cap. */
  function Tally(cat: Catalogs, a: seq<PickupIndex>): Counts
  {
    Counts(Min(PicksPerPool, |OfCategory(cat, a, Items(Tier1))|), Min(PicksPerPool, |OfCategory(cat, a, Items(Tier2))|),
           Min(PicksPerPool, |OfCategory(cat, a, Items(Tier3))|), Min(PicksPerPool, |OfCategory(cat, a, Items(Lunar))|),
           Min(PicksPerPool, |OfCategory(cat, a, Equipment)|))
  }

  /** All picks the counters `n` count. */
  function Total(n: Counts): nat
  {
    n.tier1 + n.tier2 + n.tier3 + n.lunar + n.equip
  }

  /** Where the counters `n` put the block of capped category `c`: after
      the picks of every category laid out before it. */
  function Before(n: Counts, c: Category): (r: nat)
    requires Capped(c)
    ensures r <= n.tier1 + n.tier2 + n.tier3 + n.lunar
  {
    match c
    case Items(Tier1) => 0
    case Items(Tier2) => n.tier1
    case Items(Tier3) => n.tier1 + n.tier2
    case Items(Lunar) => n.tier1 + n.tier2 + n.tier3
    case Equipment => n.tier1 + n.tier2 + n.tier3 + n.lunar
  }

  /** The pools of `now` are those of `start` grown by the admitted entries
      `a`, each in its category's pool. */
  predicate Filled(cat: Catalogs, a: seq<PickupIndex>, start: Pools, now: Pools)
  {
    now.tier1 == start.tier1 + OfCategory(cat, a, Items(Tier1)) &&
    now.tier2 == start.tier2 + OfCategory(cat, a, Items(Tier2)) &&
    now.tier3 == start.tier3 + OfCategory(cat, a, Items(Tier3)) &&
    now.lunar == start.lunar + OfCategory(cat, a, Items(Lunar)) &&
    now.equip == start.equip + OfCategory(cat, a, Equipment) &&
    now.always == start.always + OfCategory(cat, a, Always)
  }

  /** The records of `now` are those of `start` grown by the grants of the
      picks among `a`. */
  predicate Recorded(cat: Catalogs, a: seq<PickupIndex>, start: Pools, now: Pools)
  {
    now.kvp == start.kvp + ItemGrants(cat, a) &&
    now.equipRecords == start.equipRecords + EquipGrants(cat, a)
  }

  /** `now`, `current` and `n` are what a pass that started from `start`
      holds after classifying the admitted entries `a`: the drop list is
      their layout, every pool and record has grown by exactly their share,
      and the counters count their picks. */
  predicate Reached(cat: Catalogs, a: seq<PickupIndex>, start: Pools, now: Pools, current: seq<PickupIndex>,
                    n: Counts)
  {
    current == Layout(cat, a) && Filled(cat, a, start, now) && Recorded(cat, a, start, now) && n == Tally(cat, a)
  }

  /** A pass starts from its pools as they are, an empty drop list and
      zero counters. */
  lemma ReachedStart(cat: Catalogs, start: Pools)
    ensures Reached(cat, [], start, start, [], Counts(0, 0, 0, 0, 0))
  {
    assert start.tier1 + [] == start.tier1 && start.tier2 + [] == start.tier2 && start.tier3 + [] == start.tier3;
    assert start.lunar + [] == start.lunar && start.equip + [] == start.equip && start.always + [] == start.always;
    assert start.kvp + [] == start.kvp && start.equipRecords + [] == start.equipRecords;
  }

  /** One more admitted entry joins the pool of its category. */
  lemma FilledStep(cat: Catalogs, a: seq<PickupIndex>, x: PickupIndex, start: Pools, now: Pools)
    requires Filled(cat, a, start, now)
    ensures Filled(cat, a + [x], start, AddTo(now, CategoryOf(cat, x), x))
  {
    OfCategorySnoc(cat, a, x, Items(Tier1));
    OfCategorySnoc(cat, a, x, Items(Tier2));
    OfCategorySnoc(cat, a, x, Items(Tier3));
    OfCategorySnoc(cat, a, x, Items(Lunar));
    OfCategorySnoc(cat, a, x, Equipment);
    OfCategorySnoc(cat, a, x, Always);
    var c := CategoryOf(cat, x);
    var next := AddTo(now, c, x);
    match c {
      case Items(Tier1) => assert next.tier1 == start.tier1 + OfCategory(cat, a + [x], c);
      case Items(Tier2) => assert next.tier2 == start.tier2 + OfCategory(cat, a + [x], c);
      case Items(Tier3) => assert next.tier3 == start.tier3 + OfCategory(cat, a + [x], c);
      case Items(Lunar) => assert next.lunar == start.lunar + OfCategory(cat, a + [x], c);
      case Equipment => assert next.equip == start.equip + OfCategory(cat, a + [x], c);
      case Always => assert next.always == start.always + OfCategory(cat, a + [x], c);
      case Unmatched =>
    }
  }

  /** One more admitted entry is recorded exactly when it is a pick. */
  lemma RecordedStep(cat: Catalogs, a: seq<PickupIndex>, x: PickupIndex, start: Pools, now: Pools)
    requires Recorded(cat, a, start, now)
    ensures IsPick(cat, a, x) ==> Recorded(cat, a + [x], start, Grant(cat, now, x))
    ensures !IsPick(cat, a, x) ==> Recorded(cat, a + [x], start, now)
  {
    assert (a + [x])[..|a|] == a;
  }

  /** One more admitted entry bumps its counter exactly when it is a pick. */
  lemma CountedStep(cat: Catalogs, a: seq<PickupIndex>, x: PickupIndex, n: Counts)
    requires n == Tally(cat, a)
    ensures IsPick(cat, a, x) ==> Bump(n, CategoryOf(cat, x)) == Tally(cat, a + [x])
    ensures !IsPick(cat, a, x) ==> n == Tally(cat, a + [x])
  {
    OfCategorySnoc(cat, a, x, Items(Tier1));
    OfCategorySnoc(cat, a, x, Items(Tier2));
    OfCategorySnoc(cat, a, x, Items(Tier3));
    OfCategorySnoc(cat, a, x, Items(Lunar));
    OfCategorySnoc(cat, a, x, Equipment);
    var c := CategoryOf(cat, x);
    var m := Min(PicksPerPool, |OfCategory(cat, a, c)| + 1);
    match c {
      case Items(Tier1) => assert Tally(cat, a + [x]) == n.(tier1 := m);
      case Items(Tier2) => assert Tally(cat, a + [x]) == n.(tier2 := m);
      case Items(Tier3) => assert Tally(cat, a + [x]) == n.(tier3 := m);
      case Items(Lunar) => assert Tally(cat, a + [x]) == n.(lunar := m);
      case Equipment => assert Tally(cat, a + [x]) == n.(equip := m);
      case Always => assert Tally(cat, a + [x]) == n;
      case Unmatched => assert Tally(cat, a + [x]) == n;
    }
  }

  /** An always-granted entry goes to the end of the drop list and to the
      always-granted list. */
  lemma ReachAlways(cat: Catalogs, a: seq<PickupIndex>, x: PickupIndex, start: Pools, now: Pools,
                    current: seq<PickupIndex>, n: Counts)
    requires Reached(cat, a, start, now, current, n) && CategoryOf(cat, x) == Always
    ensures Reached(cat, a + [x], start, AddTo(now, Always, x), current + [x], n)
  {
    LayoutSnocAlways(cat, a, x);
    FilledStep(cat, a, x, start, now);
    RecordedStep(cat, a, x, start, now);
    CountedStep(cat, a, x, n);
  }

  /** A capped entry whose block has room is inserted at the start of its
      block, recorded, counted, and appended to its pool. */
  lemma ReachPick(cat: Catalogs, a: seq<PickupIndex>, x: PickupIndex, start: Pools, now: Pools,
                  current: seq<PickupIndex>, n: Counts)
    requires Reached(cat, a, start, now, current, n)
    requires IsPick(cat, a, x)
    ensures Before(n, CategoryOf(cat, x)) <= |current|
    ensures Reached(cat, a + [x], start, AddTo(Grant(cat, now, x), CategoryOf(cat, x), x),
                    Insert(current, Before(n, CategoryOf(cat, x)), x), Bump(n, CategoryOf(cat, x)))
  {
    var c := CategoryOf(cat, x);
    BlockSize(cat, a, Items(Tier1));
    BlockSize(cat, a, Items(Tier2));
    BlockSize(cat, a, Items(Tier3));
    BlockSize(cat, a, Items(Lunar));
    assert Before(n, c) == Offset(cat, a, c);
    LayoutSnocPick(cat, a, x);
    RecordedStep(cat, a, x, start, now);
    CountedStep(cat, a, x, n);
    var g := Grant(cat, now, x);
    assert Filled(cat, a, start, g);
    FilledStep(cat, a, x, start, g);
  }

  /** A capped entry whose block is full is only appended to its pool. */
  lemma ReachFull(cat: Catalogs, a: seq<PickupIndex>, x: PickupIndex, start: Pools, now: Pools,
                  current: seq<PickupIndex>, n: Counts)
    requires Reached(cat, a, start, now, current, n)
    requires Capped(CategoryOf(cat, x)) && !IsPick(cat, a, x)
    ensures Reached(cat, a + [x], start, AddTo(now, CategoryOf(cat, x), x), current, n)
  {
    LayoutSnocUnchanged(cat, a, x);
    RecordedStep(cat, a, x, start, now);
    CountedStep(cat, a, x, n);
    FilledStep(cat, a, x, start, now);
  }

  /** An entry no rule matches changes nothing the pass builds. */
  lemma ReachUnmatched(cat: Catalogs, a: seq<PickupIndex>, x: PickupIndex, start: Pools, now: Pools,
                       current: seq<PickupIndex>, n: Counts)
    requires Reached(cat, a, start, now, current, n) && CategoryOf(cat, x) == Unmatched
    ensures Reached(cat, a + [x], start, now, current, n)
  {
    LayoutSnocUnchanged(cat, a, x);
    RecordedStep(cat, a, x, start, now);
    CountedStep(cat, a, x, n);
    FilledStep(cat, a, x, start, now);
  }

  /* ---------- the pass as a fold over the admitted entries ---------- */

  /** What the loop of a pass carries: the lists it appends to, the drop
      list and the five pick counters. */
  datatype PassState = PassState(pools: Pools, current: seq<PickupIndex>, n: Counts)

  /** The counter of capped category `c`. */
  function Count(n: Counts, c: Category): nat
    requires Capped(c)
  {
    match c
    case Items(Tier1) => n.tier1
    case Items(Tier2) => n.tier2
    case Items(Tier3) => n.tier3
    case Items(Lunar) => n.lunar
    case Equipment => n.equip
  }

  /** Every counted pick sits in the drop list, so every block offset the
      counters give is a valid insert index. */
  predicate Fits(s: PassState)
  {
    s.n.tier1 + s.n.tier2 + s.n.tier3 + s.n.lunar + s.n.equip <= |s.current|
  }

  /** One admitted entry `x` classified: an always-granted entry goes to the
      end of the drop list and to the always list; a capped entry whose
      counter is below the cap is inserted at the start of its block,
      recorded and counted; every capped entry joins its pool; an unmatched
      entry changes nothing. */
  function Step(cat: Catalogs, s: PassState, x: PickupIndex): (r: PassState)
    requires Fits(s)
    ensures Fits(r)
  {
    var c := CategoryOf(cat, x);
    if c == Always then PassState(AddTo(s.pools, Always, x), s.current + [x], s.n)
    else if c == Unmatched then s
    else if Count(s.n, c) < PicksPerPool then
      PassState(AddTo(Grant(cat, s.pools, x), c, x), Insert(s.current, Before(s.n, c), x), Bump(s.n, c))
    else PassState(AddTo(s.pools, c, x), s.current, s.n)
  }

  /** The state after classifying the admitted entries `a` in turn, from
      the pools `start`, an empty drop list and zero counters. */
  function Run(cat: Catalogs, start: Pools, a: seq<PickupIndex>): (r: PassState)
    ensures Fits(r)
  {
    if a == [] then PassState(start, [], Counts(0, 0, 0, 0, 0))
    else Step(cat, Run(cat, start, a[..|a| - 1]), a[|a| - 1])
  }

  /** The state a pass over the walk `s` reaches: the fold over the entries
      of `s` that pass both skip checks. */
  function Pass(cat: Catalogs, start: Pools, s: seq<PickupIndex>): PassState
  {
    Run(cat, start, Admitted(cat, s))
  }

  /** One more admitted entry is one more step. */
  lemma RunSnoc(cat: Catalogs, start: Pools, a: seq<PickupIndex>, x: PickupIndex)
    ensures Run(cat, start, a + [x]) == Step(cat, Run(cat, start, a), x)
  {
    assert (a + [x])[..|a|] == a;
  }

  /** The fold reaches the reference state: its drop list is the layout of
      the admitted entries, its pools and records grew by exactly their
      share, and its counters are the block sizes. */
  lemma {:induction false} RunReaches(cat: Catalogs, start: Pools, a: seq<PickupIndex>)
    ensures Reached(cat, a, start, Run(cat, start, a).pools, Run(cat, start, a).current, Run(cat, start, a).n)
  {
    if a == [] {
      ReachedStart(cat, start);
    } else {
      var p, x := a[..|a| - 1], a[|a| - 1];
      assert a == p + [x];
      RunReaches(cat, start, p);
      var s := Run(cat, start, p);
      var c := CategoryOf(cat, x);
      if c == Always {
        ReachAlways(cat, p, x, start, s.pools, s.current, s.n);
      } else if c == Unmatched {
        ReachUnmatched(cat, p, x, start, s.pools, s.current, s.n);
      } else {
        assert Count(s.n, c) == Min(PicksPerPool, |OfCategory(cat, p, c)|);
        if Count(s.n, c) < PicksPerPool {
          ReachPick(cat, p, x, start, s.pools, s.current, s.n);
        } else {
          ReachFull(cat, p, x, start, s.pools, s.current, s.n);
        }
      }
    }
  }

  /** The drop list of the fold is the layout of the admitted entries. */
  lemma RunLayout(cat: Catalogs, start: Pools, a: seq<PickupIndex>)
    ensures Run(cat, start, a).current == Layout(cat, a)
  {
    RunReaches(cat, start, a);
  }
}
