# Artifact of Simplicity — the reward-pool engine, modelled in Dafny

The Artifact of Simplicity limits the normal and lunar drops of a run to a
small random subset per rarity each stage. Its engine is the static class
`ArtifactOfSimplicityManager` (`ArtifactOfSimplicity.cs`). This project
models that class as one Dafny class, `Simplicity.SimplicityManager`. Its
fields are the static lists of the manager. It also holds the two drop
lists of the item-drop library that the manager reads and publishes
(`playerItems`, `monsterItems`).

The model has three parts.

* **The drop-list pass** (`SetDropList`). On a pass with no baseline held
  it captures the baseline list. It then clears the drop list and walks a shuffle of
  the baseline. An entry is skipped when it is already in the drop list or
  when its name was seen earlier in the walk. Every other entry goes
  through the first-match `if/else` chain. The chain sends it to the
  always-granted list, to one of the four item pools (tier 1, 2, 3 or
  lunar), to the equipment pool, or nowhere. At most two picks per capped
  pool are inserted into the drop list, at offsets computed from five
  running counters. Each pick is also recorded as an (item, tier) pair or
  as an equipment handle. The method is proved equal to a reference
  definition on values (`DropPass.Layout`, `PassSteps.Run`). The lemmas in
  `PassProperties` prove what the pass promises:
  * the drop list is the tier 1 block, then tier 2, tier 3, lunar and
    equipment, then every always-granted entry in encounter order;
  * each capped block holds the first two entries of its category, most
    recent first;
  * no entry and no name appears twice;
  * every classified entry joins its pool, and pools only grow;
  * there is one record per pick.
* **The per-stage re-draw** (`RandomizeItems`). It clears the records and
  takes the first two entries of each pool in a caller-supplied order.
  It records each pick. Each pick is written over index 0 of the drop
  list, because the index `i` is never advanced. The model states exactly
  this: the drop list keeps its length and only index 0 changes, and it
  ends up holding the last pick. `Redraw.OverwriteCanRepeat` shows that
  this can put the same entry in the drop list twice. Writing to an empty
  drop list throws. The model returns `thrown` with the records already
  cleared and nothing published.
* **Lifecycle.** The enable handler subscribes the two handlers only on
  the server and only for this artifact; every successful call subscribes
  them once more. The disable handler checks only the artifact. It
  unsubscribes the handlers and reverts. The revert publishes the captured
  baseline as both drop lists and empties the drop list and the baseline.
  A disable before any pass has captured a baseline therefore publishes an
  empty drop list, since the baseline is still empty (lines 97-98).

The game's types are abstracted as follows. Pickups, items and equipment
are integer handles. A pickup definition is a record of the attributes the
chain reads: the printed name, the internal name, the boss and lunar flags,
and the item and equipment handles. The catalogs are sets, and the pickup
lookup is a total function. `OrderBy(x => rnd.Next())` becomes a sequence
supplied by the caller with the same multiset of entries. Every property
is proved for every such order.

The model follows the code as written, including these behaviours:

* The pools are never cleared and never deduplicated across passes.
* No code re-adds the always-granted entries: the `alwaysItems` list is
  written but never read. Every always-granted entry of the last pass at
  index 1 or later stays in the published drop list, only because a
  re-draw writes index 0 alone and keeps every other index
  (`Redraw.Overwrite`). One at index 0 (the pass placed no capped pick)
  is overwritten when any pool is non-empty
  (`Redraw.AlwaysEntryOverwritten`).
* The re-draw overwrites index 0 only.
* The pass does not clear the records, so they accumulate until the next
  re-draw clears them.
* Enabling twice subscribes the handlers twice.
* A name seen in the walk is recorded even for skipped entries. As a
  result, the first skip check (already in the drop list) never decides
  anything the second does not (`DropPass.PlacedWasSeen`).

## Model

| member | source | states |
|---|---|---|
| `GameTypes.ToLower` | ArtifactOfSimplicity.cs:215 | lower-casing keeps the length, sends each letter A-Z to its lower-case letter (code + 32), and keeps every other character |
| `GameTypes.Contains` | ArtifactOfSimplicity.cs:215 | substring search is true exactly when the pattern occurs at some position |
| `GameTypes.ScrapAnywhere` | ArtifactOfSimplicity.cs:215 | for every internal name with a five-character run that lower-cases to "scrap", in any letter case and at any position, the scrap test holds |
| `GameTypes.ScrapIgnoresCase` | ArtifactOfSimplicity.cs:215 | examples: "ScrapWhite" and "RegeneratingSCRAP" pass the scrap test, the near miss "Scra" does not |
| `Classification.Classify` | ArtifactOfSimplicity.cs:190-277 | first-match precedence: boss wins; lunar exactly for non-boss lunar; the equipment pool exactly for non-boss, non-lunar, non-scrap standard equipment; tier n exactly for catalogued plain items in tier list n and no lower one; scrap, non-standard equipment and unknown items are always granted; unmatched exactly when no rule applies |
| `DropPass.WalkStep` | ArtifactOfSimplicity.cs:185-189 | one step of the walk records the entry's name; the entry is admitted exactly when its name was not seen before |
| `DropPass.PlacedWasSeen` | ArtifactOfSimplicity.cs:180-189 | an entry already in the drop list always has its name among those seen, so the second skip check covers the first |
| `DropPass.AdmittedFromWalk` | ArtifactOfSimplicity.cs:177-189 | only entries of the walk are admitted |
| `DropPass.OfCategoryMembers` | ArtifactOfSimplicity.cs:190-277 | a category's entries are exactly the walk entries of that category |
| `DropPass.BlockMembers` | ArtifactOfSimplicity.cs:197-200 | every entry of a capped block is an admitted entry of that block's category |
| `DropPass.LayoutMembers` | ArtifactOfSimplicity.cs:190-277 | every entry of the drop list is admitted and classified; unmatched entries never appear |
| `DropPass.BlockSnoc` | ArtifactOfSimplicity.cs:244-252 | one more entry of a category goes to the front of its block while fewer than two came before, and leaves the block alone otherwise |
| `DropPass.BlockSize` | ArtifactOfSimplicity.cs:197-200 | a block holds min(2, n) entries, n the number of admitted entries of its category |
| `DropPass.LayoutSnocAlways` | ArtifactOfSimplicity.cs:190-194 | an always-granted entry is appended to the drop list |
| `DropPass.LayoutSnocUnchanged` | ArtifactOfSimplicity.cs:195-277 | a capped entry over the cap, or an unmatched one, leaves the drop list unchanged |
| `DropPass.LayoutSnocPick` | ArtifactOfSimplicity.cs:195-277 | a pick is inserted at the start of its category's block, at the offset the earlier blocks give |
| `DropPass.StepElsewhere` | ArtifactOfSimplicity.cs:190-277 | one more entry leaves the entries and the block of every other category unchanged |
| `PassSteps.FilledStep` | ArtifactOfSimplicity.cs:213 | every admitted entry joins the pool of its category, picked or not |
| `PassSteps.RecordedStep` | ArtifactOfSimplicity.cs:202-211 | an admitted entry is recorded exactly when it is a pick |
| `PassSteps.CountedStep` | ArtifactOfSimplicity.cs:197-199 | a counter rises exactly when its category gets a pick |
| `PassSteps.ReachAlways` | ArtifactOfSimplicity.cs:190-194 | an always-granted entry keeps the pass state equal to the reference state |
| `PassSteps.ReachPick` | ArtifactOfSimplicity.cs:244-252 | a pick under the cap keeps the pass state equal to the reference state; the counter offset is its block's start |
| `PassSteps.ReachFull` | ArtifactOfSimplicity.cs:244-252 | a capped entry over the cap keeps the pass state equal to the reference state |
| `PassSteps.ReachUnmatched` | ArtifactOfSimplicity.cs:266-278 | an unmatched entry keeps the pass state equal to the reference state |
| `PassSteps.RunReaches` | ArtifactOfSimplicity.cs:177-279 | the pass reaches the reference state: the drop list is the block layout, pools and records grew by exactly their share, and the counters are the block sizes |
| `PassSteps.RunLayout` | ArtifactOfSimplicity.cs:177-279 | the drop list the pass builds is the block layout of the admitted entries |
| `PassProperties.AdmittedDistinct` | ArtifactOfSimplicity.cs:185-189 | the admitted entries have pairwise distinct names |
| `PassProperties.AdmittedCoversNames` | ArtifactOfSimplicity.cs:185-189 | every name in the baseline is the name of some admitted entry |
| `PassProperties.LayoutDistinct` | ArtifactOfSimplicity.cs:170-278 | entries with distinct names give a drop list with no repeated name and no repeated entry |
| `PassProperties.PassDistinct` | ArtifactOfSimplicity.cs:170-281 | for every shuffle, the published drop list has no repeated name and no repeated entry |
| `PassProperties.GrantsPerPick` | ArtifactOfSimplicity.cs:195-277 | the records of a pass number exactly the picks it placed |
| `PassProperties.LayoutInBlockOrder` | ArtifactOfSimplicity.cs:190-277 | the drop list is in block order: tier 1, tier 2, tier 3, lunar, equipment, then the always-granted entries |
| `PassProperties.LayoutByCategory` | ArtifactOfSimplicity.cs:190-277 | the drop list's entries of a capped category are exactly its block; its always-granted entries are all admitted always entries in encounter order; it has no unmatched entries |
| `PassProperties.PassPlacement` | ArtifactOfSimplicity.cs:190-277 | for every shuffle, the drop list holds min(2, n) entries of each capped category and every admitted always-granted entry |
| `PassProperties.PassOutcome` | ArtifactOfSimplicity.cs:166-282 | for every shuffle: no repeated name or entry, block order, each counter at most 2, one record per pick, and every pool extends the pool it started from |
| `Redraw.Overwrite` | ArtifactOfSimplicity.cs:125-153 | writing the picks over index 0 keeps the length and every other index; index 0 ends up holding the last pick |
| `Redraw.DrawFromPool` | ArtifactOfSimplicity.cs:123-157 | a re-draw takes min(2, pool size) entries from distinct positions of the pool (a sub-multiset of the pool) |
| `Redraw.TierRecordsFromPool` | ArtifactOfSimplicity.cs:123-150 | an item pool adds min(2, pool size) records, each tagged with the pool's tier and naming an item of the pool |
| `Redraw.EquipmentRecordsFromPool` | ArtifactOfSimplicity.cs:151-157 | the equipment pool adds min(2, pool size) handles, each the handle of an entry of the pool |
| `Redraw.ThreeWhitesPass` | ArtifactOfSimplicity.cs:242-253 | example pass: the walk [11, 10, 12] of three tier 1 items builds the drop list [10, 11] (most recent pick first) and the tier 1 pool [11, 10, 12] |
| `Redraw.BossAndWhiteSecondPass` | ArtifactOfSimplicity.cs:185-194 | example pass: a walk whose tier 1 item has the same printed name as an earlier boss pickup admits only the boss pickup, so the drop list is that entry alone and no capped pool grows |
| `Redraw.AlwaysEntryOverwritten` | ArtifactOfSimplicity.cs:118-153 | an always-granted entry at index 0 is lost to a re-draw: after a pass over [1, 2] fills the tier 1 pool with [1], a pass over [2, 1] publishes the boss pickup [2] alone, and the re-draw writes 1 over it |
| `Redraw.OverwriteCanRepeat` | ArtifactOfSimplicity.cs:118-153 | since only index 0 is written, a re-draw can leave the same entry twice in the drop list: after that example pass, the pool order [12, 11, 10] turns the drop list [10, 11] into [11, 11] |
| `Simplicity.SimplicityManager.constructor` | ArtifactOfSimplicity.cs:66-76 | every list of the manager starts empty |
| `Simplicity.SimplicityManager.SetDropList` | ArtifactOfSimplicity.cs:166-282 | the baseline is captured only when none is held; the pools and drop list are those of the reference pass over the shuffle; both published lists are the drop list |
| `Simplicity.SimplicityManager.Publish` | ArtifactOfSimplicity.cs:280-281 | both published drop lists become the manager's drop list |
| `Simplicity.SimplicityManager.Walk` | ArtifactOfSimplicity.cs:171-279 | the loop of the pass reaches the reference pass state |
| `Simplicity.SimplicityManager.ConsiderEntry` | ArtifactOfSimplicity.cs:179-189 | one loop turn applies the two skip checks and classifies exactly the admitted entries |
| `Simplicity.SimplicityManager.ClassifyEntry` | ArtifactOfSimplicity.cs:190-277 | the `if/else` chain performs exactly one reference step |
| `Simplicity.SimplicityManager.GrantAlways` | ArtifactOfSimplicity.cs:190-194 | an always-granted entry is appended to the drop list and to the always list |
| `Simplicity.SimplicityManager.PlaceLunar` | ArtifactOfSimplicity.cs:195-214 | a lunar pick goes after the three tier blocks while its counter is below 2; every lunar entry joins the lunar pool |
| `Simplicity.SimplicityManager.RecordLunar` | ArtifactOfSimplicity.cs:202-211 | a lunar pick is recorded as equipment when the full equipment catalog holds its handle, and as an (item, Lunar) pair otherwise |
| `Simplicity.SimplicityManager.PlaceEquipment` | ArtifactOfSimplicity.cs:220-231 | an equipment pick goes after the lunar block while its counter is below 2; every such entry joins the equipment pool |
| `Simplicity.SimplicityManager.PlaceTier1` | ArtifactOfSimplicity.cs:242-253 | a tier 1 pick goes to the front while its counter is below 2; every tier 1 entry joins its pool |
| `Simplicity.SimplicityManager.PlaceTier2` | ArtifactOfSimplicity.cs:254-265 | a tier 2 pick goes after the tier 1 block while its counter is below 2; every tier 2 entry joins its pool |
| `Simplicity.SimplicityManager.PlaceTier3` | ArtifactOfSimplicity.cs:266-277 | a tier 3 pick goes after the tier 2 block while its counter is below 2; every tier 3 entry joins its pool |
| `Simplicity.SimplicityManager.RandomizeItems` | ArtifactOfSimplicity.cs:115-164 | the records are cleared, then refilled with the draws of the four item pools (tagged) and of the equipment pool; only index 0 of the drop list changes; it throws exactly when a pick meets an empty drop list; otherwise both lists are published |
| `Simplicity.SimplicityManager.RedrawTier` | ArtifactOfSimplicity.cs:123-150 | one item loop writes its picks over index 0 and appends their tagged records, or throws on an empty drop list |
| `Simplicity.SimplicityManager.RedrawEquipment` | ArtifactOfSimplicity.cs:151-157 | the equipment loop writes its picks over index 0 and appends their equipment handles, or throws on an empty drop list |
| `Simplicity.SimplicityManager.RevertItems` | ArtifactOfSimplicity.cs:95-101 | both published lists become the captured baseline; the drop list and the baseline are emptied |
| `Simplicity.SimplicityManager.OnArtifactEnabled` | ArtifactOfSimplicity.cs:84-93 | subscribes once more exactly when on the server and for this artifact, and changes nothing otherwise |
| `Simplicity.SimplicityManager.OnArtifactDisabled` | ArtifactOfSimplicity.cs:103-113 | for this artifact only: unsubscribes once and reverts; for any other artifact changes nothing |

## Left out

- The plugin class, the artifact's name, description and icons, and logging (lines 16-53, 126, 133, 140, 147, 154) are host boilerplate and UI.
- `Init` (lines 78-82) registers the two handlers with the game's artifact events. Event delivery is the host's job. Subscriptions are modelled as a counter. How many times a handler runs when it is subscribed more than once is not modelled.
- `ItemDropAPI.RemoveFromDefaultByTier`, `RemoveFromDefaultEquipment`, `AddToDefaultByTier`, `AddToDefaultEquipment` and `SetHooks` (lines 119-120, 160-162) are calls into a library outside this model. Their effect on the game's drop tables is not modelled. The record lists they receive are modelled.
- `System.Random` and `OrderBy(x => rnd.Next())`: the caller supplies the order, with the same multiset of entries. The random distribution is not modelled.
- `NetworkServer.active` and the artifact identity check are boolean inputs.
- `currentRun` (line 76) is never read or written by the manager.
- C# list aliasing is not modelled. Lists are values, and assignments between list fields copy them. The two differ only when a list is shared and later mutated in place. After a pass or a re-draw, the published lists are the manager's drop list itself. Mutations of those lists by the library are not modelled. In the manager, sharing matters only when an empty baseline is captured, and then nothing is walked.
- `PickupCatalog.GetPickupDef` is a total function. A missing definition, which would throw in the source, is not modelled.
- `PickupIndex.ToString()` is the `name` attribute of the pickup definition.
- `ToLower` changes only the ASCII letters A-Z. Culture-dependent case mapping of other characters is not modelled.
- An exception in the re-draw is a `thrown` result. The state at the throw is modelled (records cleared, nothing published). How the host handles the exception is not modelled.
