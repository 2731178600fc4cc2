# irqbalance: verified model

A Dafny 4.11 model of the two cores of irqbalance and proofs about them. `dafny verify dfyconfig.toml`
checks everything.

**Bitmaps.** `Bits` (numbers and their bits), `Popcount`, `Bitmap` (word arrays, in place), `HexText` and
`HexCode` (hex printer and parser as functions and as loops on arrays), `HexSpace` (white space inside), `ListText` (list parser
and range printer), `ListForms` (every text the list parser accepts).
Bitmaps stand for sets of naturals and for plain numbers; printing and parsing undo each other for every mask size.

**Balancing.** `Topology` (the object tree), `Irqs` (interrupts, lists, migration, ownership), `Invariant` (what
every step keeps), `Load`, `Shares` and `Stat` (load attribution), `Select` (selection with 64-bit wrap-around
spelled out), `Placement`, `Balance`, `Spreads` and `Levels` (greedy placement, conservation, balance, where interrupts end),
`Activate` and `Activation` (affinity writes under any kernel answers), `Interrupts` (reading, hot-plug, removal),
`CpuTree`, `TreeProof`, `TreeShape` and `BuiltLevels` (building the tree), `SplitExample` (a package over two nodes),
`Scan` (a cycle, a rebuild, whole runs) and `Cycles` (single results composed over cycles and runs).
What each operation does exactly, in numbers and fields: `Slots` (moves), `Counters` and `Attribution` (readings), `Thinning`
and `Maximal` (selection), `Choice` (placement), `Effects` (activation), `Grouping` (the tree), `Rounds` (cycles)
and `Service` (from waiting to written).
`Balancer`, `PlacementCode`, `ActivateCode`, `SelectCode`, `TreeWalk`, `TreeCode` and `ScanCode` hold the
program's form: global state changed step by step by loops and recursion, each method proved equal to the function
that the theorems speak about, up to `ScanCode.RunDaemon`.

Conventions. A pointer to an object or an interrupt is an id into a map; interrupts are named by their number,
which is how the lists are searched. Everything the outside decides is an input and arbitrary: lines of
/proc/interrupts, load readings, what is known about a new interrupt, the answer to every affinity write, CPU
reports, the powersave decision. `Write` records every attempt to write an affinity. for_each_irq saves the next entry
before each callback and callbacks only unlink the current entry, so walking the list as it was on entry is the same walk.

Where code and documentation differ the model follows the code, and states it exactly:

- White space inside a hex mask is called forbidden (bitmap.c:316) but, once a digit has been read, returns 0. Take the text up
  to the first embedded white space: the mask is the number before the last comma of that part, and the rest is dropped. It is
  an error only if a piece of that part is not a group below 2^32, a piece before its last comma is empty, or the number does
  not fit (`HexSpace.EmbeddedSpace`).
- An empty CPU list sets bit 0, although irqbalance.1:186-187 promises an empty mask. An empty item names bit 0, except the
  last one when nothing at all follows the last comma; a missing upper bound counts as 0; no accepted text denotes the empty
  set (`ListForms.ParseListWellFormed`, `ListForms.AcceptedForm`, `ListText.NoTextMeansEmpty`).
- The one-word right shift does not mask unused bits (`Bitmap.OneWordShiftRight`).
- A package split over nodes leaves its caches below the nodes, and a package-level interrupt given to such a node goes on to
  a CPU (`SplitExample.SplitMissesLevel`). The level is met unless the node is empty, or the level is package and the child
  of the node that the interrupt went by is a cache (`Levels.LevelMetExactly`, `BuiltLevels.BuildNode`).

## Model

| member | source | states |
|---|---|---|
| `Popcount.PopIsCardinality` | bitmap.h:22-40 | the bit count of a number is the cardinality of its set of one bits |
| `Popcount.HWeight32` | bitmap.h:22-29 | the SWAR steps return the number of one bits of a 32-bit word |
| `Popcount.HWeight64` | bitmap.h:31-40 | the SWAR steps and the wrapping multiplication return the number of one bits of a 64-bit word |
| `Popcount.GatherBytes` | bitmap.h:39 | multiplication modulo 2^64 and shift by 56 add up the eight byte counts |
| `Bitmap.ShiftLeft` | bitmap.c:170-195 | value * 2^shift mod 2^bits, also when dst is src; words above the bitmap untouched; garbage above `bits` ignored and cleared |
| `Bitmap.ShiftRight` | bitmap.c:126-155 | (value mod 2^bits) / 2^shift, also when dst is src; words above untouched |
| `Bitmap.ShiftRightInline` | bitmap.h:325-332 | multi-word sizes shift the masked value; one-word sizes shift the word unmasked, for counts below the word width as C requires |
| `Bitmap.OneWordShiftRight` | bitmap.h:328-329 | for counts below the word width, the unmasked one-word shift agrees with the multi-word one if and only if no unused bit is set |
| `Bitmap.Empty` | bitmap.c:49-61 | true exactly when the set of bits below `bits` is empty |
| `Bitmap.Full` | bitmap.c:63-75 | true exactly when every bit below `bits` is set |
| `Bitmap.Weight` | bitmap.c:77-88 | the cardinality of the set of bits below `bits`, whatever the tail holds |
| `Bitmap.Equal` | bitmap.c:90-103 | true exactly when the sets of bits below `bits` are equal |
| `Bitmap.Intersects` | bitmap.c:237-249 | true exactly when the sets of bits below `bits` meet |
| `Bitmap.EmptyInline` | bitmap.h:304-310 | the one-word fast path gives the same set-level answer |
| `Bitmap.FullInline` | bitmap.h:312-318 | the one-word fast path gives the same set-level answer |
| `Bitmap.EqualInline` | bitmap.h:280-286 | the one-word fast path gives the same set-level answer |
| `Bitmap.IntersectsInline` | bitmap.h:288-294 | the one-word fast path gives the same set-level answer |
| `Bitmap.WeightInline` | bitmap.h:320-323 | the one-word fast path gives the same cardinality |
| `Bitmap.SetBit` | non-atomic.h:22-28 | exactly bit nr becomes set |
| `Bitmap.ClearBit` | non-atomic.h:30-36 | exactly bit nr becomes clear |
| `Bitmap.TestBit` | non-atomic.h:110-113 | reads bit nr |
| `HexCode.Fls` | bitmap.h:43-70 | the bit length: 2^(r-1) <= x < 2^r |
| `HexCode.NextChunk` | bitmap.c:329-364 | the inner loop consumes exactly one chunk as the scanning function does |
| `HexCode.ShiftAndOr` | bitmap.c:370-371 | in-place shift by 32 and OR of the chunk: the value becomes value * 2^32 + chunk, cut to the mask |
| `HexCode.ParseMask` | bitmap.c:318-379 | return code and mask value of the parsing function on the same text |
| `HexText.ParseWellFormed` | bitmap.c:318-379 | on comma-joined digit groups with outer white space: 0 exactly when every group is below 2^32 and the number below 2^nmaskbits, the mask then denotes the number, else -EOVERFLOW |
| `HexSpace.EmbeddedSpace` | bitmap.c:318-379 | with white space inside, after a digit or after a comma: 0 if and only if every piece up to the last comma before the first such white space is a group below 2^32, the piece after that comma is one or empty, and the number up to that comma fits; the mask is that number |
| `HexSpace.EmbeddedForm` | bitmap.c:314-316 | every text with white space between two other characters has the form EmbeddedSpace speaks of |
| `HexSpace.EmbeddedExamples` | bitmap.c:344-345 | 1 and 2 with a comma and a space between them give 0 and the number 1; with a space alone, 0 and the number 0 |
| `HexText.PadHexValue` | bitmap.c:292-293 | a padded group reads back as its value and has exactly the field width |
| `HexText.PrintedNumber` | bitmap.c:281-298 | the printed groups are well-formed, fit in 32 bits and spell the number, with leading zero chunks skipped |
| `HexCode.ReadChunk` | bitmap.c:287-290 | chunk k of the masked value |
| `HexCode.PrintMask` | bitmap.c:271-300 | prints the value modulo 2^nmaskbits |
| `HexText.RoundTrip` | bitmap.c:271-379 | parsing the printed text returns 0 and the same number, for every mask size |
| `HexCode.PrintThenParse` | bitmap.c:271-379 | print then parse on arrays gives back the low nmaskbits bits, whatever the unused bits hold |
| `ListText.NextItem` | bitmap.c:411-452 | the inner loop consumes one item as the scanning function does |
| `ListText.SetRange` | bitmap.c:457-460 | exactly the bits of the range are added |
| `ListText.ParseListMask` | bitmap.c:401-463 | return code and set of bits of the list-parsing function on the same text |
| `ListForms.ParseListWellFormed` | bitmap.c:401-463 | for every list of numbers, ranges, dangling dashes and empty items with white space before the first digit and at the end: 0 exactly when each item looked at has its bounds in order and below nmaskbits, exactly the named bits set; else the first bad item decides between -EINVAL and -ERANGE; bit 0 is set exactly when an item looked at is empty or starts at 0, and an empty last item is looked at exactly when something follows the last comma |
| `ListForms.AcceptedForm` | bitmap.c:401-463 | every text for which 0 is returned is of that form |
| `ListForms.ListExamples` | bitmap.c:453-461 | a comma at the very end names nothing, a comma and a space name bit 0; 0 with a dash is accepted, 5 with a dash is not |
| `ListText.EmptyListSetsBitZero` | bitmap.c:413 | the empty text returns 0 and sets bit 0 |
| `ListText.NoTextMeansEmpty` | bitmap.c:453-462 | no accepted text denotes the empty set |
| `ListText.RangePrinter.Emit` | ui/ui.c:363-374 | appends the pending run; the text is that of the runs so far, which stay maximal |
| `ListText.RangePrinter.Copy` | ui/ui.c:376-387 | adds one number; the runs written and pending cover exactly the numbers seen |
| `ListText.PrintNumbers` | ui/ui.c:389-399 | the text is the one and only list of maximal runs covering exactly the numbers |
| `ListText.RunsAreUnique` | ui/ui.c:376-387 | a set has only one list of maximal runs |
| `ListText.ListRoundTrip` | bitmap.c:401-463 | parsing printed maximal runs returns 0 and exactly the numbers |
| `ListText.PrintThenParseList` | ui/ui.c:361-399 | printing ascending CPU numbers and parsing the text returns 0 and sets exactly those bits |
| `Irqs.ExactlyOneList` | irqlist.c:200-232 | a balanced database interrupt is on exactly the list its assigned object names, once; an unknown one on none |
| `Irqs.MigrateOwned` | irqlist.c:200-232 | migrate_irq_obj of an interrupt found at its home keeps ownership, and it is found at its new home |
| `Irqs.FoundTest` | irqlist.c:212-217 | the moved flag tells whether the entry was found if and only if the entry is there or the flag was clear before; ownership puts the entry of a balanced interrupt there |
| `Irqs.MigrateFoundAt` | classify.c:812-829 | after a move the interrupt is found at its new home only, all others where they were, without repeats |
| `Irqs.ForceOwned` | irqbalance.c:248-257 | forcing an interrupt back keeps ownership |
| `Irqs.HotplugOwned` | classify.c:749-769 | a new interrupt is banned, unbalanced, or waiting; ownership is kept |
| `Irqs.RemoveOwned` | classify.c:856-891 | an interrupt not seen disappears from every list, one seen stays; ownership is kept |
| `Invariant.MigrateKept` | irqlist.c:200-232 | a move to a reachable object with a free slot keeps ownership, slot ranges, reachable homes and frozen interrupts; the slots themselves are in Slots.MoveAccounts |
| `Slots.MoveAccounts` | irqlist.c:219-229 | for any move of an interrupt found at its home and any object: an unlimited slot count stays unlimited, and a limited one and the length of the list keep their sum |
| `Slots.PlacementAccounts` | placement.c:248-259 | over the whole of placement the same for every reachable CPU: one with n slots left takes at most n more interrupts and gives up one slot for each |
| `Slots.RemoveEffect` | classify.c:856-891 | an interrupt seen again loses its mark only; any other is gone from every list and its object's slot count is unlimited again; no other object or record changes |
| `Invariant.QuietKept` | procinterrupts.c:378-388 | changing only loads, counters, flags and slots in range keeps all invariants |
| `Scan.ValidatorSilent` | placement.c:228-246 | with ownership the debug validator has no complaint about any object |
| `Scan.RunOwnership` | irqbalance.c:273-335 | in every run from start-up, under any inputs: exactly one list per balanced interrupt, none for unregistered ones, validator silent |
| `Scan.RunSlots` | cputree.c:598-607 | in every run: reachable non-CPU objects have slots_left INT_MAX, reachable CPUs 0..INT_MAX, and every home is reachable |
| `Scan.RunFrozen` | irqbalance.c:273-335 | an interrupt that is banned or unbalanced keeps level and home and is never written, over any number of cycles while it stays registered and the tree is not rebuilt |
| `Scan.RunNeverWraps` | irqlist.c:76-112 | over every run, 64-bit wrapping subtraction and exact subtraction take the same course |
| `Scan.CycleExact` | irqbalance.c:307-312 | one cycle: a complete reading bounds the attributed loads, an incomplete one finds them cleared, so selection never wraps |
| `Cycles.CycleReady` | irqbalance.c:273-335 | every cycle starts with no mark left over, so after a cycle that reads /proc/interrupts without a rescan the registered interrupts are exactly the lines read |
| `Cycles.RunReady` | irqbalance.c:273-335 | that holds at every point of every run |
| `Cycles.RunLayered` | irqbalance.c:289-298 | every tree of every run is one Levels.PlacementEnds speaks of |
| `Cycles.CycleConserves` | irqbalance.c:307-312 | in a cycle with a complete load reading and nothing left half-activated, placement ends with the conserved loads of Balance.PlacementConservesLoad, after readings, sums and selection |
| `Cycles.CycleStill` | irqbalance.c:312-313 | a cycle without transient errors leaves nothing half-activated |
| `Cycles.RunStill` | irqbalance.c:273-335 | so in every run without transient errors every cycle can rely on it |
| `Scan.ClearWorkKept` | cputree.c:488-507 | clearing statistics keeps the invariants and leaves no load on a placed interrupt, even though an empty list makes the walk visit the whole database |
| `Scan.ClearSlotsPlaced` | cputree.c:604-607 | after clear_slots on a fresh tree the slot and home invariants hold |
| `Scan.AddAllFills` | classify.c:771-784 | a rebuilt database holds exactly the interrupts found, once each, without homes |
| `Rounds.FirstReportCounts` | classify.c:586-617 | of several reports of one interrupt the first one fixes its level, class and node |
| `Rounds.StartFresh` | irqbalance.c:671-704 | after start-up nothing has a home, every list is empty, no CPU saves power, every reachable object has INT_MAX slots and exactly the balanced interrupts of the database wait |
| `Rounds.RescanFresh` | irqbalance.c:284-304 | the same after a cycle that rebuilds the tree, on the tree of the new reports, with the cycle count at 0 and no write made |
| `Rounds.FirstCycleBlind` | irqbalance.c:307-310 | a first cycle, and one that rebuilds the tree, come out the same whatever the loads measured, the powersave decision and the migrate ratio |
| `Rounds.CycleFates` | irqbalance.c:307-313 | in every later cycle placement starts from what Maximal.MigrationFates describes, taken from the loads just read |
| `Service.CycleServes` | irqbalance.c:307-313 | end to end, for any cycle without a rescan on a built tree with a node that can receive: every balanced interrupt of the database to which the kernel does not object ends at home and settled, and was written there unless that was its home before or the affinity was set already |
| `Service.RunServes` | irqbalance.c:273-335 | the same for the last cycle of every run from start-up |
| `Service.PlacementAdvances` | placement.c:144-259 | placement takes no home away, and a changed home always carries the mark that makes activation write it |
| `Service.SelectedMarks` | irqlist.c:169-187 | so do reading and selection: levels stay, a changed home is marked, no mark is taken back |
| `Interrupts.ReadInterruptsExact` | procinterrupts.c:265-375 | after a reading without trouble the registered interrupts are exactly the lines read, or unchanged if the file cannot be read, and no mark is left |
| `Interrupts.RemoveAll` | classify.c:893-899 | of the interrupts walked exactly the marked ones survive, with the mark cleared; the others are untouched |
| `Interrupts.ReadLines` | procinterrupts.c:283-358 | reading lines moves and writes nothing and keeps every invariant, up to the first line that asks for a rescan; the counters are in Counters.LineEffect and ReadingEffect |
| `Counters.LineEffect` | procinterrupts.c:305-358 | one line: after an accepted one `last` is the total stored before (0 if just plugged) and `count` the line's total; after a refused one the stored total stays; a rescan is asked for exactly when the number of CPUs is wrong or the total dropped; a known record keeps all else, a new one has its policy, class and node, and no other record changes |
| `Counters.ReadingEffect` | procinterrupts.c:265-375 | a reading of distinct numbers without trouble: for every line the difference of the counters is its total minus the total stored before, and it is refused exactly if some line is |
| `Counters.RescanExactly` | irqbalance.c:266-284 | a cycle rebuilds the tree if and only if a rescan was left over, SIGHUP came after the first cycle, or a line has the wrong number of CPUs or a total below the stored one |
| `Counters.CycleCounts` | procinterrupts.c:353-356 | the counters and marks so read survive the whole cycle, through loads, selection, placement and activation; a rescan sets the cycle count to 0, any other cycle adds 1 |
| `Counters.CountsBetween` | procinterrupts.c:353-356 | over two cycles in a row without a rescan the difference of the counters is the difference of the two totals read |
| `Activate.FindUnderIsBest` | activate.c:99-133 | the recursive search returns a valid CPU with the most slots in the subtree, or there is none |
| `Activate.GreedyDistinct` | activate.c:74-90 | greedy choices never repeat a CPU nor take one tried before |
| `Activate.FallbackTrace` | activate.c:270-292 | each CPU tried is a best untried candidate, and stopping early means no candidate is left |
| `Activate.FallbackWrites` | activate.c:270-397 | at most 8 writes, one per CPU tried, in order |
| `Activate.FallbackFailure` | activate.c:344-361 | a failed search leaves lists and records alone; exactly the CPUs refused with ENOSPC go to 0 slots |
| `Activate.TryFallbackMeets` | activate.c:182-403 | the whole search: bounded, distinct, greedy, exhaustive, harmless on failure, declined for core and none levels |
| `Activation.ActivateKept` | activate.c:417-519 | whatever the kernel answers, activation keeps ownership, slots and frozen interrupts; what each answer does is in Effects.ActivateEffect |
| `Activation.RefusedSlots` | activate.c:477-511 | after ENOSPC on a CPU it ends with 0 slots if another CPU takes the interrupt, and with exactly 1 if none does, the interrupt waiting again |
| `Activation.ActivateAllKept` | activate.c:521-524 | the same over the whole database |
| `Effects.SearchByFields` | activate.c:74-133 | the search returns a CPU under the object, not the original, with a slot, an unbanned CPU and nothing tried, and no such CPU has more slots; none means there is no such CPU |
| `Effects.SearchInOrder` | activate.c:99-133 | of several such CPUs it is the first in the order of the walk through the children |
| `Effects.ScopeByLevel` | activate.c:235-260 | from a CPU the scope is the first cache above at cache level and the first package above at package level, counted in steps up; from any other object it is that object |
| `Effects.FallbackLands` | activate.c:270-397 | a successful search: the interrupt is on the CPU tried last, unmoved, with its load + 1 and slot accounted there; the original CPU has 0 slots; CPUs refused with ENOSPC have 0 slots and no other object changes |
| `Effects.ActivateEffect` | activate.c:417-519 | by fields: unmoved or homeless, nothing happens; affinity set already, only `moved` is cleared; else the first write is to the home, and success clears `moved`, a transient error changes nothing, a permanent one gives level none, ENOSPC ends with another CPU written last or waiting again, with at most 8 further writes |
| `Effects.ActivationWrites` | activate.c:521-524 | over the whole database each interrupt is turned exactly as its own answers say; every moved one at home whose affinity is not set is written to its home, and no interrupt is written that was unmoved or homeless |
| `Placement.FindBestIsMinimal` | placement.c:67-142 | no eligible object is better than the chosen one, by cost, then slots, then number of interrupts; Choice.BestIsCheapest says it in numbers |
| `Choice.BestIsCheapest` | placement.c:67-142 | in numbers: the choice is not in powersave, has a slot and is no unspecified or fully banned node, and for every other such object load + 1000 * max(0, 10 - slots) is no smaller; on a tie that object has no more slots, and with equal slots no fewer interrupts; none means every object fails one of these tests |
| `Choice.NothingDominates` | placement.c:41-66 | no admissible object has at most the load and strictly more slots than the choice |
| `Choice.PlaceIrqChooses` | placement.c:144-182 | a just moved interrupt not at its level goes to such a child, or stays if there is none |
| `Choice.PlaceInNodeChoosesBest` | placement.c:190-226 | a waiting interrupt goes to its preferred node if that is real and has an unbanned CPU, else to such a node, or goes on waiting if there is none |
| `Placement.SortIsSorted` | classify.c:831-854 | the sorted list is ordered by class, load and the tie-break |
| `Choice.SortByFields` | classify.c:831-854 | higher class first, within a class higher load, and the same interrupts |
| `Choice.SortedOnce` | classify.c:831-854 | only one order of the same interrupts is sorted |
| `Choice.PlacementOrderFree` | placement.c:248-259 | placement does not depend on the order in which the interrupts came to wait |
| `Placement.Sort` | classify.c:851-854 | sorting permutes the list |
| `Placement.CalculatePlacement` | placement.c:248-259 | placement keeps ownership, slot ranges, reachable homes and frozen interrupts |
| `Balance.PlacementConserves` | placement.c:184-259 | placement changes the surplus of no object whose children are its own, on any tree and from any state of the invariant |
| `Balance.PlacementConservesLoad` | placement.c:184-259 | from balanced sums with nothing just moved, each object whose children are its own ends with their loads plus load + 1 for each arrival that stayed |
| `Balance.TreeOwns` | numa.c:109-133 | a tree is exactly where every reachable object has children of its own |
| `Balance.GreedySpread` | placement.c:144-188 | with open children of spread at most M, if every interrupt that goes on (just moved, and not at its level here) has load + 1 at most M, placing any number keeps the spread at most M, whatever else sits on the object |
| `Balance.PlaceObjBalanced` | placement.c:184-188 | the same for the pass over one object, and no child exceeds the average by more than M |
| `Spreads.PlacementKeepsSpread` | placement.c:248-259 | the whole of calculate_placement keeps the spread of every object with open children of its own, and their distance from the average, when every waiting or just moved interrupt has load + 1 at most M |
| `Levels.PlacementEnds` | placement.c:190-259 | on every tree the builder makes: a waiting interrupt goes to its preferred node if that can receive, else to one that can, and from there by a package or cache to where its level says; it goes on waiting if and only if no node can receive |
| `Levels.LevelMetExactly` | placement.c:144-182 | at an empty node the level is never met; else the interrupt went by a child of its node, and met its level if and only if that is not package level or the child is a package; so with packages only always, with caches only except at package level |
| `Levels.PlacementReachesLevel` | placement.c:190-259 | on a four-level tree each waiting interrupt ends at its level below its preferred node if that can receive, else another |
| `SplitExample.SplitMissesLevel` | placement.c:163-166 | on a concrete machine with one package over two nodes a package-level interrupt ends below a cache, not on a package |
| `BuiltLevels.BuildLayered` | cputree.c:510-544 | every built tree is layered: the trees Levels.PlacementEnds speaks of |
| `BuiltLevels.BuildNode` | numa.c:109-133 | for consistent reports a node with a reported CPU has children, all packages if the packages of its CPUs are whole, all caches if they are all split |
| `BuiltLevels.BuildFourLevels` | numa.c:109-133 | whole packages and a CPU for every open node give the four-level tree |
| `BuiltLevels.NodeAgrees` | numa.c:127-132 | below a node children and parent links agree if and only if its children are packages |
| `BuiltLevels.BuildAgrees` | numa.c:109-133 | so the bounds of Shares.SharesOfRoot hold at every node with whole packages, whatever other nodes look like |
| `Load.SetLoadsBalanced` | procinterrupts.c:451-465 | after set_load every reachable parent carries the sum of its children |
| `Load.AttributeBounds` | procinterrupts.c:378-431 | the attributed loads above 1 on an object add up to at most its load |
| `Stat.ReadStatBounds` | procinterrupts.c:538-555 | after a complete reading that bound holds for every object at once |
| `Attribution.AttributeExact` | procinterrupts.c:378-431 | an interrupt of the object gets its difference times the object's load divided by the interrupts counted below it and shared from above, at least 1; no other changes |
| `Attribution.ReadingSlices` | procinterrupts.c:538-555 | after a complete reading every placed interrupt carries its slice of its object's load |
| `Attribution.ReadingLoads` | procinterrupts.c:467-536 | a CPU's load is the reading, complete or not, and stays as it was without one |
| `Shares.SharesOfRoot` | procinterrupts.c:394-406 | where links agree below a root with L leaves and T interrupts, the leaves' shares add up to at most T and at least T - (L - 1) |
| `Select.GapShrinks` | irqlist.c:95-107 | for any migrate ratio an accepted interrupt strictly shrinks the absolute difference between source and minimum load, overshooting or not; so does the gap of the figures carried on, which the clamp keeps from going below zero |
| `Select.NoWrap` | irqlist.c:95-107 | while loads fit, wrapping and exact arithmetic agree on the decision and the figures |
| `Select.WalkExact` | irqlist.c:114-145 | over one object's whole list the figures follow the loads taken and nothing wraps |
| `Select.WalkHalf` | irqlist.c:76-112 | with ratio 0 the loads taken from one object total less than half the initial gap |
| `Select.WalkLeavesOne` | irqlist.c:85-87 | an object never loses its last interrupt; that it gives up all others it should is Maximal.WalkFates |
| `Select.PassLeavesOne` | irqlist.c:152-167 | a whole pass over a list of objects empties none |
| `Select.SelectionLeavesOne` | irqlist.c:169-187 | nor do all four passes, except on the CPU that enters powersaving |
| `Select.MinLoad` | irqlist.c:54-62 | a lower bound of the loads that is reached |
| `Select.SelectionNeverWraps` | irqlist.c:152-187 | with bounded loads all four passes and the powersave change agree with exact arithmetic |
| `Maximal.AcceptExactly` | irqlist.c:95-107 | a load is accepted if and only if twice the load is below the gap plus, with a ratio, the gap divided by it |
| `Maximal.WalkFates` | irqlist.c:76-112 | after the walk each interrupt that stays is unbalanced, of load at most 1, alone, or too heavy for the gap left; each that went was balanced, above 1 and light enough; the figures follow the loads that left |
| `Maximal.WalkTurns` | irqlist.c:76-112 | turn by turn, if and only if: an interrupt goes exactly when balanced, above 1, not the last one there, and twice its load below the room in the gap that those before it left |
| `Maximal.SelectFromFates` | irqlist.c:114-145 | the same for an object above the minimum with more than one interrupt, in the order of class and load, with the minimum handed on; any other object gives up nothing |
| `Maximal.PassFates` | irqlist.c:152-167 | along the list of objects, from the smallest load, each starting from the minimum the one before left |
| `Maximal.PowerEffect` | irqlist.c:147-181 | entering powersave sets one flag and makes the CPU's balanced interrupts wait; leaving clears all flags and nothing else |
| `Maximal.MigrationFates` | irqlist.c:169-187 | all four passes at once: every object of every kind gives up exactly what its turns say, the CPU entering powersave set apart |
| `CpuTree.NodeFrom` | numa.c:145-154 | the first node with the number asked for, or none has it |
| `TreeProof.AddCpusTraced` | cputree.c:284-418 | after any reports caches and packages group exactly the reported CPUs by masked mask, with agreeing links |
| `TreeProof.ConnectAllAfter` | numa.c:109-133 | connecting attaches whole packages to their one node and the caches of split packages to theirs, and nothing else |
| `TreeShape.BuildShaped` | cputree.c:510-544 | the built tree is well linked, whatever the reports |
| `TreeShape.SoundTree` | numa.c:109-133 | consistent reports leave every reachable object with one reachable parent |
| `TreeShape.PathsAgree` | numa.c:109-133 | in such a tree two walks to the same object are the same walk |
| `TreeShape.BuildReachesOnce` | cputree.c:284-418 | for every order of consistent reports the tree's CPUs are the unbanned reported ones and each is reached from the nodes along exactly one path |
| `Grouping.BuildFiles` | cputree.c:284-418 | by the fields of the reports: every unbanned report is a CPU in the cache of its unbanned cache siblings and the package of its unbanned package siblings, cut to the node where they are more than the node has; both belong to the node named; every CPU comes from such a report and every node of a cache from one of its CPUs; the nodes are the unspecified one and those found |
| `Balancer.FindEntry` | classify.c:803-806 | position of the first entry, or the length |
| `Balancer.DeleteEntry` | classify.c:866-870 | the list without that entry, and whether it was there |
| `Balancer.Balancer.KnowsIrq` | classify.c:798-810 | found in the database or among the banned |
| `Balancer.Balancer.MoveEntry` | classify.c:812-829 | moves the entry if and only if it is found; refines the move that Irqs.MigrateFoundAt describes list by list |
| `Balancer.Balancer.MigrateIrqObj` | irqlist.c:200-232 | entry, slots, load and assigned object; refines the move of Irqs.MigrateOwned, whose slots and load Slots.MoveAccounts fixes |
| `Balancer.Balancer.ForceRebalanceIrq` | irqbalance.c:248-257 | an unbalanced interrupt is left alone, any other ends on the rebalance list; refines the step of Irqs.ForceOwned |
| `Balancer.Balancer.AddNewIrq` | classify.c:586-617 | a known number changes nothing, a new one is registered once, banned or in the database; refines the step of Irqs.HotplugOwned |
| `Balancer.Balancer.RemoveNoExistingIrq` | classify.c:856-891 | refines the removal that Irqs.RemoveOwned shows to clear every list |
| `PlacementCode.FindBestObject` | placement.c:67-142 | the callback's running record ends at the choice that Choice.BestIsCheapest fixes in numbers |
| `PlacementCode.FindBestObjectForIrq` | placement.c:144-182 | refines the step that keeps ownership and the spread bound (Balance.GreedySpread) |
| `PlacementCode.PlaceIrqInObject` | placement.c:184-188 | the walk while entries leave the list refines the pass of Balance.PlaceObjBalanced |
| `PlacementCode.PlaceIrqInNode` | placement.c:190-226 | preferred node if it can receive, else the best node; refines the step behind Levels.PlacementReachesLevel |
| `PlacementCode.CalculatePlacementNow` | placement.c:248-259 | refines the placement of Balance.PlacementConserves and Levels.PlacementReachesLevel; invariants kept |
| `PlacementCode.ValidateObject` | placement.c:228-239 | no error exactly when every interrupt of the list names this home |
| `ActivateCode.ScopeAbove` | activate.c:238-248 | the first ancestor of the kind |
| `ActivateCode.FindBestCpuUnder` | activate.c:99-133 | the recursion with its loop over the children returns what Effects.SearchByFields and SearchInOrder fix |
| `ActivateCode.MigrateAfterAssign` | activate.c:309-372 | moving from the original is not confused by the temporary assignment |
| `ActivateCode.RetryLoop` | activate.c:270-402 | state and result of the retry loop, with the temporary assignment undone on every failure |
| `ActivateCode.TryFallbackCpu` | activate.c:182-403 | state and result of try_fallback_cpu, about which Activate.TryFallbackMeets speaks |
| `ActivateCode.ActivateMappingNow` | activate.c:417-519 | refines the step that Effects.ActivateEffect fixes for every kernel answer |
| `ActivateCode.ActivateMappings` | activate.c:521-524 | refines the walk of Effects.ActivationWrites; invariants kept |
| `SelectCode.GatherLoadStats` | irqlist.c:54-62 | the running minimum ends at the smallest load |
| `SelectCode.MoveCandidateIrqs` | irqlist.c:76-112 | refines the decision that Maximal.AcceptExactly and WalkTurns fix, subtracting modulo 2^64 |
| `SelectCode.MigrateOverloadedIrqs` | irqlist.c:130-144 | refines the turn of Maximal.SelectFromFates, with the raised minimum carried on |
| `SelectCode.FindOverloadedObjs` | irqlist.c:152-167 | refines one pass of Select.SelectionNeverWraps; invariants kept |
| `SelectCode.UpdateMigrationStatus` | irqlist.c:169-187 | refines the four passes and the powersave change of Maximal.MigrationFates and PowerEffect; invariants kept |
| `TreeWalk.SetLoad` | procinterrupts.c:451-465 | the recursion sets the load of every object below to its sum and changes nothing else |
| `TreeWalk.AccumulateInterrupts` | procinterrupts.c:433-449 | the recursion sets every count below to the sum over the object's list |
| `TreeWalk.ComputeShare` | procinterrupts.c:418-431 | every interrupt of the object gets its slice, at least 1 |
| `TreeWalk.ClearObjSlots` | cputree.c:598-602 | every object below gets INT_MAX slots |
| `TreeWalk.ClearObjStats` | cputree.c:488-497 | clears the loads on every list below, and of the whole database where a list is empty |
| `TreeCode.GetNumaNode` | numa.c:145-154 | the first node with the number |
| `TreeCode.TreeBuilder.AddCpuToCacheDomain` | cputree.c:241-281 | the first cache of equal mask, or a new one, gains the CPU and node once |
| `TreeCode.TreeBuilder.AddCacheDomainToPackage` | cputree.c:197-240 | the first package of equal mask, or a new one, gains cache and node once, and hangs below the unspecified node without NUMA |
| `TreeCode.TreeBuilder.DoOneCpu` | cputree.c:330-417 | refines the step of TreeProof.AddCpusTraced, for banned and unbanned CPUs |
| `TreeCode.TreeBuilder.ConnectPackageNow` | numa.c:109-133 | refines the step of TreeProof.ConnectAllAfter for whole and split packages |
| `TreeCode.BuildTree` | irqbalance.c:229-234 | the tree of TreeShape.BuildReachesOnce |
| `ScanCode.ParseProcStat` | procinterrupts.c:467-557 | readings, sums, counts and shares refine the reading of Stat.ReadStatBounds; an incomplete one stops early |
| `ScanCode.ParseProcInterrupts` | procinterrupts.c:265-375 | an unreadable file changes nothing; otherwise the loop with its early exits refines the reading of Interrupts.ReadInterruptsExact and Counters.ReadingEffect; rescan flag exact; invariants kept |
| `ScanCode.ClearNoExistingIrqs` | classify.c:893-899 | refines the removal of exactly the unmarked interrupts (Interrupts.RemoveAll); invariants kept |
| `ScanCode.RebuildTree` | irqbalance.c:289-300 | a fresh state on a fresh tree, invariants established |
| `ScanCode.StartDaemon` | irqbalance.c:671-704 | reaches a safe state: the one Scan.RunOwnership and Scan.RunSlots start from |
| `ScanCode.ScanNow` | irqbalance.c:273-335 | one cycle equals Scan.Cycle with wrapping arithmetic |
| `ScanCode.RunDaemon` | irqbalance.c:273-335 | any number of cycles equals the run with wrapping and with exact arithmetic |

## Left out

- 32-bit words: `unsigned long` has 64 bits throughout; the 32-bit branch of hweight64 is not modelled.
- Wrap-around of additions of loads and counts (uint64_t) and of decimal numbers in CPU lists (int): numbers are unbounded there; only the subtractions of the selection wrap.
- Text buffers that are too small: the printers have room for the whole text.
- Reading procfs and sysfs, opening and closing files, errno other than the four kinds of answer, logging, memory failure (and with it need_rebuild): replaced by arbitrary inputs or absent.
- Computing a CPU's load from two counter readings and HZ: a reading is the resulting load.
- Standard deviation and the decision to enter or leave powersaving (irqlist.c:121-128, 158-164, 173-183): the decision is an input.
- The address comparison that breaks ties in sort_irqs (classify.c:844): the interrupt number is compared instead.
- The policy script, the PCI class tables and module bans: their outcome (banned or level, class, node) is an input. The unused node of a banned interrupt is some node of the tree.
- Bitmap operations and, or, xor, andnot, complement, fill and copy, and cpumask wrappers: would only add easy members.
- The curses interface except its range printer, sockets, the statistics text, thermal events, command line and daemonising.
- Aliasing of topology objects: parent, child and assigned-object pointers are ids into maps, so only the lists and fields reached through them are modelled.
- `Levels.LevelMetExactly` does not predict, for a node with both packages and caches, which child the interrupt goes by: that depends on the loads when its turn comes.
