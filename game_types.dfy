// The game-side types the reward-pool engine reads: pickup handles, the
// attributes of a pickup definition, and the catalogs it looks pickups up in.
module GameTypes {

  /** Handles into the game's catalogs (PickupIndex, ItemIndex, EquipmentIndex). */
  type PickupIndex = int
  type ItemIndex = int
  type EquipmentIndex = int

  /** The item tiers the engine tags its picks with. */
  datatype ItemTier = Tier1 | Tier2 | Tier3 | Lunar

  /** The attributes of a pickup that the classification reads.
      `name` is the text `ToString()` of the pickup handle yields. */
  datatype PickupDef = PickupDef(
    name: string,
    internalName: string,
    isBoss: bool,
    isLunar: bool,
    itemIndex: ItemIndex,
    equipmentIndex: EquipmentIndex)

  /** The catalogs: the pickup lookup, the standard and the full equipment
      lists, all items, and the three item tier lists. */
  datatype Catalogs = Catalogs(
    def: PickupIndex -> PickupDef,
    equipmentList: set<EquipmentIndex>,
    allEquipment: set<EquipmentIndex>,
    allItems: set<ItemIndex>,
    tier1ItemList: set<ItemIndex>,
    tier2ItemList: set<ItemIndex>,
    tier3ItemList: set<ItemIndex>)

  /** The name a pickup handle prints as. */
  function Name(cat: Catalogs, x: PickupIndex): string
  {
    cat.def(x).name
  }

  /** Lower-casing of one character; only the ASCII letters A-Z change. */
  function ToLowerChar(c: char): char
  {
    if 'A' <= c <= 'Z' then (c as int + 32) as char else c
  }

  function ToLower(s: string): (r: string)
    ensures |r| == |s|
    ensures forall i :: 0 <= i < |s| ==> 'A' <= s[i] <= 'Z' || r[i] == s[i]
    ensures forall i :: 0 <= i < |s| && 'A' <= s[i] <= 'Z' ==> r[i] as int == s[i] as int + 32
    ensures forall i :: 0 <= i < |r| ==> !('A' <= r[i] <= 'Z')
  {
    seq(|s|, i requires 0 <= i < |s| => ToLowerChar(s[i]))
  }

  /** `t` occurs in `s` starting at position `i`. */
  predicate OccursAt(s: string, t: string, i: int)
  {
    0 <= i <= |s| - |t| && s[i..i + |t|] == t
  }

  /** `t` occurs in `s` as a contiguous run of characters. */
  function Contains(s: string, t: string): (b: bool)
    ensures b <==> exists i :: OccursAt(s, t, i)
    decreases |s|
  {
    if |t| > |s| then false
    else if s[..|t|] == t then assert OccursAt(s, t, 0); true
    else
      var rest := Contains(s[1..], t);
      assert rest ==> exists i :: OccursAt(s, t, i) by {
        if rest {
          var j :| OccursAt(s[1..], t, j);
          assert s[j + 1..j + 1 + |t|] == s[1..][j..j + |t|];
          assert OccursAt(s, t, j + 1);
        }
      }
      assert (exists i :: OccursAt(s, t, i)) ==> rest by {
        if exists i :: OccursAt(s, t, i) {
          var i :| OccursAt(s, t, i);
          assert i != 0;
          assert s[1..][i - 1..i - 1 + |t|] == s[i..i + |t|];
          assert OccursAt(s[1..], t, i - 1);
        }
      }
      rest
  }

  /** The scrap test: the internal name, lower-cased, contains "scrap". */
  predicate IsScrap(d: PickupDef)
  {
    Contains(ToLower(d.internalName), "scrap")
  }

  /** Lower-casing works character by character, so it distributes over
      concatenation. */
  lemma ToLowerAppend(s: string, t: string)
    ensures ToLower(s + t) == ToLower(s) + ToLower(t)
  {
  }

  /** The scrap test holds of every internal name with a run of five
      characters that lower-cases to "scrap", wherever it sits and whatever
      its letter case. */
  lemma ScrapAnywhere(p: string, u: string, q: string, d: PickupDef)
    requires ToLower(u) == "scrap" && d.internalName == p + u + q
    ensures IsScrap(d)
  {
    ToLowerAppend(p + u, q);
    ToLowerAppend(p, u);
    assert OccursAt(ToLower(p + u + q), "scrap", |p|);
  }

  lemma ScrapIgnoresCase()
    ensures IsScrap(PickupDef("", "ScrapWhite", false, false, 0, -1))
    ensures IsScrap(PickupDef("", "RegeneratingSCRAP", false, false, 0, -1))
    ensures !IsScrap(PickupDef("", "Scra", false, false, 0, -1))
  {
    assert OccursAt(ToLower("ScrapWhite"), "scrap", 0);
    assert OccursAt(ToLower("RegeneratingSCRAP"), "scrap", 12);
  }
}
