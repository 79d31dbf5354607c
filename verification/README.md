# A model of irqbalance

The vendored `irqbalance` daemon spreads interrupts (IRQs) over CPUs. IRQs live on
lists: one list per object of a four-level tree (NUMA node, package, cache domain,
CPU), and one global list of IRQs that wait to be placed. Every few seconds a turn
of the main loop measures loads, takes IRQs off loaded objects, possibly puts a CPU
into power saving, places the waiting IRQs again from the top of the tree down, and
writes a CPU mask for each IRQ that moved. The project models these turns, the tree
and the database they start from, the lists and the sort underneath, and the bitmap
library that reads and prints CPU masks; and it proves what they keep.

How the files go together:

| part | files |
|---|---|
| `glib/glist.c`: nodes on the heap, and the sort as a function on sequences | `GList.dfy`, `MergeSort.dfy` |
| words and bitmaps as numbers and as sets; shifts, weights, set operations, `fls` | `Words.dfy`, `Bitmap.dfy`, `Shift.dfy`, `Popcount.dfy`, `BitSets.dfy`, `BitLength.dfy` |
| printing and parsing of masks | `HexText.dfy`, `HexParse.dfy`, `HexTheorems.dfy`, `ListParse.dfy` |
| records, the tree the balancer relies on, moving IRQs, ownership | `Irqs.dfy`, `Tree.dfy`, `Ownership.dfy` |
| placement: specification, invariants and descent, loads, list-scheduling bound | `Placement.dfy`, `PlacementProofs.dfy`, `PlacementLoads.dfy`, `ListScheduling.dfy` |
| drain and power saving: specification, one object, a whole update | `Drain.dfy`, `DrainProofs.dfy`, `DrainCycle.dfy` |
| measuring: loads up the tree, shares down it, attribution to IRQs | `LoadShare.dfy`, `ShareConservation.dfy`, `LoadProofs.dfy`, `Measure.dfy` |
| the mask written for an IRQ; turns, rescans and runs; masks over runs | `Activation.dfy`, `Runs.dfy`, `MaskRuns.dfy` |
| what a bound on the CPU loads read gives | `LoadBounds.dfy`, `LoadRuns.dfy` |
| the same operations in place, on objects with fields | `Globals.dfy`, `PlacementCode.dfy`, `DrainCode.dfy`, `LoadCode.dfy`, `MainLoop.dfy` |
| the IRQ database, the building of the tree, and what they hand to the balancer | `IrqDb.dfy`, `CpuTree.dfy`, `CpuTreeCode.dfy`, `Startup.dfy` |

Each operation of the balancer appears twice. A function on values (`Placement`,
`Drain`, `LoadShare`, `Measure`, `Activation`, `Runs`) maps a `State` to a `State`;
a state holds the changing fields of every record, with the records themselves as
identities. A method on the heap (the `...Code` modules and `MainLoop`) changes the
fields of `IrqInfo` and `TopoObj` objects and of the `Globals`, and its postcondition
is that the value of the heap moves as the function says. Theorems are lemmas about
the functions, and so hold of the methods: `MainLoop.RunTurn` is the body of the main
loop and ends in a state of which the theorems about `Runs.Turn` speak.

What the records of a machine are between two scans (lists, links, masks, the
database, `numa_avail`, `power_thresh`) is a `Config`. `Tree.TreeOk` is all that the
balancer assumes of the tree, and `Ownership.Numbered` what it assumes of the database;
`Startup.ScanIsFresh` derives both from the code that builds the tree and fills the
database, so that the theorems about runs start where `build_object_tree` ends.

Inputs are arbitrary: the lines of `/proc/interrupts`, the CPU loads, whether they were
all found, the standard deviations, what the kernel says of affinities, the masks and
node ids of CPUs, the answers of the policy script, and when a rescan happens.

Words and loads are naturals below 2^64, with wrap-around written out. The theorems
about runs hold for arbitrary loads, wrapped or not; among them, that no subtraction of
the drain ever wraps (`Runs.RunNeverUnderflows`). One thing a turn cannot survive: the
scan for the best object dereferences NULL (irqbalance/placement.c:80-81), and it does
so exactly when the first eligible object has the load ULLONG_MAX
(`Placement.ScanFails`; `Placement.FullPackageFails` is a scan that fails). A `Turn` is
a turn in which that does not happen (`PlacementSafe`). What needs moderate loads is
stated apart: if every CPU load read is bounded so that sums stay below 2^63, then no
scan fails, so that the turn can be taken, and no addition of the drain wraps either
(`LoadRuns`).

Where the code and its comments differ, the model follows the code:

- `__bitmap_parse` answers 0 when whitespace stands between a digit and a later
  character, where its comment promises an error; the groups before it are kept, and
  the only error left is overflow (`HexTheorems.EmbeddedSpaceAccepted`). It also
  accepts a comma at the very end (`HexTheorems.ParseMeans`).
- `__bitmap_parselist` takes a missing number for 0: an empty element adds bit 0, unless
  it follows the last comma, and "0-" is accepted (`ListParse.ParseListAccepts`,
  `ListParse.EmptyElementIsBitZero`).
- The minimum of `gather_load_stats` takes 0 for "none yet" and is the true minimum only
  if no load but the last is 0, or the last is (`Drain.GatherFindsMin`): of 0 and 5 it
  finds 5 (`Drain.GatherMissesMin`).
- An IRQ with a preferred node skips the hint check and adds its load and one more
  (`PlacementProofs.PlaceInNodeDoes`).
- `clear_work_stats` visits the whole database for an object whose list is empty
  (`Measure.ClearWorkDoes`).
- `force_rebalance_irq` appends an IRQ that has no object without looking whether it
  already waits, so it keeps ownership just when it does not (`Runs.ForceKeepsOwned`).
- A mask may hold banned CPUs, but only on a node that IRQs are put on, that has a
  banned CPU, and that also has an unbanned CPU in none of its packages; there some IRQ
  gets one (`MaskRuns.MasksCleanExactly`, and for one IRQ `MaskRuns.FirstMaskExposed`).
  `LoadRuns.BannedCpuWritten` is a machine with two CPUs online on which it is written.
- A cache domain whose CPUs report different package masks becomes a child of two
  packages (`CpuTree.ForestIff`, `CpuTree.SharedCacheNoForest`).

## Model

| member | source | states |
|---|---|---|
| GList.Last | irqbalance/glib/glist.c:39-49 | the last node of a well linked list, null for the empty list |
| GList.First | irqbalance/glib/glist.c:163-173 | following `prev` from any node leads to the head |
| GList.Length | irqbalance/glib/glist.c:287-300 | the number of nodes |
| GList.FindCustom | irqbalance/glib/glist.c:366-381 | the first node whose data compare equal, null if none does |
| GList.Append | irqbalance/glib/glist.c:85-110 | a fresh node joins the end; the list stays doubly linked and its other nodes are the same |
| GList.DeleteLink | irqbalance/glib/glist.c:112-152 | exactly that node leaves the list, the rest stays doubly linked, the new head is returned |
| GList.ForEachDeleting | irqbalance/classify.c:824-834 | saving `next` before the callback: although callbacks unlink the current entry, every entry is visited once, in order, and the kept ones remain linked |
| GList.SortMerge | irqbalance/glib/glist.c:175-209 | relinking merges two half lists into the doubly linked merge of the two, left first on ties |
| GList.CutMiddle | irqbalance/glib/glist.c:211-234 | the two cursors cut the list in halves, whose heads may keep a stale `prev` |
| GList.SortReal | irqbalance/glib/glist.c:211-239 | terminates with the same nodes in sorted order, doubly linked in spite of the stale `prev` links of the split |
| GList.SortList | irqbalance/glib/glist.c:266-272 | the sorted list is well linked from a head without `prev`, and its elements are the sort of the elements |
| MergeSort.SortPermutes | irqbalance/glib/glist.c:211-239 | sorting permutes |
| MergeSort.SortSorted | irqbalance/glib/glist.c:211-239 | sorting sorts, for every total preorder |
| MergeSort.SortStable | irqbalance/glib/glist.c:175-239 | elements that tie keep their order |
| MergeSort.SortedUnique | irqbalance/classify.c:869-886 | for a strict order a sorted permutation is unique |
| Irqs.IrqOrderIsStrict | irqbalance/classify.c:869-886 | `sort_irqs` is a strict total order on distinct records, so that sorting has one outcome |
| Irqs.SortIrqsUnique | irqbalance/classify.c:869-891 | an arrangement of the records is the sorted list if and only if the greater class comes first, within a class the greater load, and at equal load the greater address |
| Irqs.SortIrqsOrders | irqbalance/classify.c:869-891 | the sorted list has that order |
| Shift.ShiftLeft | irqbalance/bitmap.c:170-195 | in place or not, the words become value times 2^shift modulo 2^bits; words beyond are untouched |
| Shift.ShiftRight | irqbalance/bitmap.c:126-155 | in place or not, the words become (value modulo 2^bits) divided by 2^shift, whatever the unused input bits |
| Shift.ShiftedLeftMultiplies | irqbalance/bitmap.c:170-195 | the word-by-word left shift is multiplication modulo 2^bits |
| Shift.ShiftedRightDivides | irqbalance/bitmap.c:126-155 | the word-by-word right shift is division of the used bits |
| Shift.ShiftsAreClean | irqbalance/bitmap.c:126-195 | shifts leave no unused bit set |
| Bitmap.CleanValue | irqbalance/bitmap.h:198-202 | masking the last word leaves the value modulo 2^bits |
| Popcount.HWeight32Counts | irqbalance/bitmap.h:22-29 | the SWAR arithmetic counts the set bits of 32 |
| Popcount.HWeight64Counts | irqbalance/bitmap.h:31-40 | the SWAR arithmetic counts the set bits of 64 |
| BitSets.BitsAreValueBits | irqbalance/non-atomic.h:110-113 | bit numbers of the words are binary digits of the value |
| BitSets.Weight | irqbalance/bitmap.c:77-88 | the number of set bits below the size, whatever the unused bits |
| BitSets.Intersects | irqbalance/bitmap.c:237-249 | whether the sets of bits below the size meet |
| BitSets.Equal | irqbalance/bitmap.c:90-103 | whether the sets of bits below the size are equal |
| BitSets.Empty | irqbalance/bitmap.c:49-61 | whether no bit below the size is set |
| BitSets.AndInto | irqbalance/bitmap.c:197-205 | the intersection, also when the destination is an operand |
| BitSets.Complement | irqbalance/bitmap.c:105-113 | the complement below the size, with unused bits clear |
| BitSets.SetBit | irqbalance/non-atomic.h:22-28 | adds exactly that bit |
| BitSets.ClearBit | irqbalance/non-atomic.h:30-36 | removes exactly that bit |
| BitLength.FlsIsLength | irqbalance/bitmap.h:43-70 | `fls` is the number of binary digits |
| BitLength.LengthAtMost | irqbalance/bitmap.c:373-375 | at most n digits exactly when below 2^n |
| HexText.Scnprintf | irqbalance/bitmap.c:271-300 | the loop prints `Printed`, of which the next rows speak |
| HexText.PrintedLength | irqbalance/bitmap.c:271-300 | at most 9 characters a chunk less one; 4096 CPUs fit a 4096-byte buffer |
| HexText.PrintedSpells | irqbalance/bitmap.c:271-300 | the text is hex groups, each below 2^32, that spell the bits below the size |
| HexText.PrintedExactly | irqbalance/bitmap.c:271-300 | the text character by character: one group for every chunk from the highest that is not 0, or the last, down; each of as many lower-case digits as the chunk's size needs, spelling the chunk |
| HexParse.StoreChunk | irqbalance/bitmap.c:370-371 | shift and or: value times 2^32 modulo 2^bits, plus the chunk |
| HexParse.Parse | irqbalance/bitmap.c:318-379 | the loops compute result and value of the parse function on the text |
| HexTheorems.ParseMeans | irqbalance/bitmap.c:318-379 | for a text in parts (leading whitespace; groups with commas; last digits; what follows them): overflow, syntax error or 0, each exactly when, and the number left in the mask, after errors too |
| HexTheorems.EveryText | irqbalance/bitmap.c:318-379 | every text has such parts, so that nothing is left open |
| HexTheorems.TrimmedAccepted | irqbalance/bitmap.c:316-379 | whitespace before and after groups is accepted, and a '\0' ends the text: 0 with the number if and only if every group is below 2^32 and the number below 2^nmaskbits, else overflow |
| HexTheorems.SyntaxError | irqbalance/bitmap.c:347-366 | exactly which texts are syntax errors: an illegal character, a comma without digits, or an end without digits that does not follow a comma, after groups that fit |
| HexTheorems.NewlineExample | irqbalance/bitmap.c:336-337 | "f" and a newline is 15 |
| HexTheorems.ParseAccepts | irqbalance/bitmap.c:318-379 | hex groups are accepted if and only if each is below 2^32 and the combined number is below 2^nmaskbits; then the mask is that number, else the result is the overflow error |
| HexTheorems.RoundTripValue | irqbalance/bitmap.c:271-379 | parsing what was printed gives 0 and the bits below the size |
| HexTheorems.RoundTrip | irqbalance/bitmap.c:271-379 | the parsed words hold the same set, with unused bits clear |
| HexTheorems.EmbeddedSpaceAccepted | irqbalance/bitmap.c:336-378 | after any groups, whitespace between a digit or comma and a later character: result 0 with exactly the groups before it if and only if those fit and the digits just before fit 32 bits, else overflow; never a syntax error |
| HexTheorems.EmbeddedSpaceExample | irqbalance/bitmap.c:344-345 | "1,2 3" is accepted as 1 |
| ListParse.SetSpan | irqbalance/bitmap.c:453-460 | a range is added to the set |
| ListParse.ParseList | irqbalance/bitmap.c:401-463 | the loops compute result and set of the parse function on the text |
| ListParse.ParseListAccepts | irqbalance/bitmap.c:401-463 | a list of numbers, ranges, open ranges and empty elements is accepted if and only if every element that counts is in order and below the size; then the mask is exactly their union |
| ListParse.ParseListMeans | irqbalance/bitmap.c:401-463 | for a text in parts (empty elements with whitespace; elements with commas; a last element; what follows it): the result and the mask, after errors too, with the error of the first element out of order or range |
| ListParse.EveryList | irqbalance/bitmap.c:401-463 | every text has such parts |
| ListParse.NewlineExample | irqbalance/bitmap.c:420-421 | "3-5" and a newline is 3, 4 and 5 |
| ListParse.EmptyElementIsBitZero | irqbalance/bitmap.c:410-461 | an empty element anywhere but after the last comma, or an empty text, adds bit 0 |
| ListParse.EmptyElementExamples | irqbalance/bitmap.c:410-461 | "1,,5" is 0, 1 and 5; "1," is 1; "0-" is 0 |
| Ownership.AssignMoves | irqbalance/classify.c:850-867 | with unique numbers, moving by number moves exactly the IRQ, to the end of the list, and touches nothing else |
| Ownership.ReleaseMoves | irqbalance/irqlist.c:148-152 | the same for taking an IRQ off its object |
| Ownership.MoveKeepsOwned | irqbalance/classify.c:850-867 | every IRQ stays on exactly the list its `assigned_obj` says |
| Placement.ChoiceIsBest | irqbalance/placement.c:40-85 | the scan finds a least loaded object that takes the IRQ with the fewest interrupts among those; none exactly when none takes it; to take it an object must not save power, have a CPU of a SUBSET hint, and as a node an unbanned CPU and with NUMA a number; for any loads, as long as the scan does not read through NULL |
| Placement.ScanFails | irqbalance/placement.c:76-84 | a scan reads through NULL exactly when the first eligible object has the load ULLONG_MAX |
| Placement.FullPackageFails | irqbalance/placement.c:80-81 | a scan that does: one package with that load, an IRQ without hint |
| PlacementProofs.PlaceIrqDoes | irqbalance/placement.c:87-131 | an IRQ goes to a best child, adding its load there, or stays because it has not moved, is deep enough, or no child takes it; all invariants kept |
| PlacementProofs.PlaceInNodeDoes | irqbalance/placement.c:139-178 | a waiting IRQ goes to its usable preferred node at its load plus one, else to a best node at its load, or no node suits it; all invariants kept |
| PlacementProofs.MoveKeepsInv | irqbalance/placement.c:126-130 | moving to an object that fits keeps ownership, depth, hints and empty power savers, whatever the loads |
| PlacementProofs.PlaceObjectDoes | irqbalance/placement.c:133-137 | afterwards each IRQ of the object is on a child or has a reason to stay; all other IRQs are untouched |
| PlacementProofs.LayerSettles | irqbalance/placement.c:205-207 | a layer is settled without disturbing the layers above |
| PlacementProofs.PlacementDescends | irqbalance/placement.c:200-208 | every moved IRQ on an object ends at its level's depth or where no child takes it; an IRQ waits only if no node will have it; with nothing waiting nothing changes |
| PlacementProofs.PlacementEnds | irqbalance/placement.c:200-208 | the same in fields: a moved IRQ balanced at package, cache or core level ends on a package, cache or CPU, or else on an object each child of which saves power or has no CPU of its SUBSET hint |
| PlacementProofs.NodesGetInOrder | irqbalance/placement.c:200-208 | the waiting list is sorted heaviest first and each node gets its IRQs in that order behind those it had, before they are pushed down layer by layer |
| PlacementProofs.HeadedEnds | irqbalance/placement.c:139-178 | a waiting IRQ that can be given one node only, preferred or sole, ends on it if no package of it suits |
| PlacementLoads.PlacementIsSafe | irqbalance/placement.c:76-84 | while loads leave room no scan reads through NULL and no load wraps, to the end of the placement |
| ListScheduling.SpreadsLoad | irqbalance/placement.c:40-137 | list-scheduling bound: no child ends above the larger of the initial maximum and (total + (m-1) pmax)/m, and the spread never exceeds the larger of the initial spread and pmax |
| ListScheduling.SpreadsByLightest | irqbalance/placement.c:40-137 | when the object's list is heaviest first, then whatever the loads before, no child that got an IRQ ends above another awake child by more than the lightest IRQ it got |
| ListScheduling.OneClassDescends | irqbalance/classify.c:869-886 | IRQs of one class in the order of `sort_irqs` are such a list |
| Drain.GatherFindsMin | irqbalance/irqlist.c:54-62 | the minimum found is one of the loads, and the least exactly when the last load is 0 or no earlier one is |
| Drain.GatherMissesMin | irqbalance/irqlist.c:58-59 | of the loads 0 and 5 the minimum found is 5 |
| DrainProofs.CandidateDoes | irqbalance/irqlist.c:76-113 | one candidate leaves or stays and all invariants are kept, for any loads; while the loads above 1 still listed are within the adjusted load, the subtraction does not wrap; while adjusted load plus minimum is below 2^64 the addition is exact too and one that stays has a reason |
| DrainProofs.OffKeepsHeld | irqbalance/irqlist.c:110-112 | taking an IRQ off an object keeps all invariants, and that loads above 1 fit the object's load |
| DrainProofs.CandidatesDo | irqbalance/irqlist.c:131-145 | over the list: one IRQ stays and only movable ones leave, in the order of the list; from measured loads of any size no subtraction wraps; when adjusted load plus minimum is below 2^64, that sum is constant, the adjusted load stays above the minimum, and no IRQ that stayed could still leave |
| DrainProofs.DrainObjectDoes | irqbalance/irqlist.c:131-145 | the same for the whole object, whose IRQs leave heaviest first; exact when its load plus the minimum is below 2^64, with the loads that left as the amount moved |
| DrainCycle.FindOverloadedEases | irqbalance/irqlist.c:159-174 | for any loads, a drained layer keeps all invariants, loses only movable IRQs, and no object is emptied |
| DrainCycle.FindDrains | irqbalance/irqlist.c:131-174 | with loads below 2^63, layer by layer and object by object: which IRQs leave, heaviest first, with the minimum starting at the layer's and growing by what left; that each object still has more than the minimum, or kept everything; that none that stayed could follow; and that nothing else changes |
| DrainCycle.MigrateAllTallies | irqbalance/irqlist.c:115-129 | the counts and the candidate are those of the objects before the drain |
| DrainCycle.UpdateDecides | irqbalance/irqlist.c:159-190 | who saves power afterwards is a function of the loads and savers before: exactly when a CPU enters, and which, and when all leave; the average is that of the total modulo 2^64, and a single CPU does not deviate; nothing drained matters |
| DrainCycle.EnterDoes | irqbalance/irqlist.c:181-185 | the CPU ends without IRQs, which all wait; nothing else changes |
| DrainCycle.UpdateMigrationDoes | irqbalance/irqlist.c:176-194 | for any loads, all invariants kept; at most one CPU enters power saving; IRQs that are EXACT-hinted, unbalanced or of load at most 1 leave only that CPU; only that CPU is emptied |
| DrainCycle.UpdateDrains | irqbalance/irqlist.c:176-194 | CPUs are drained so, then power saving is adjusted, then caches, packages and nodes are drained so |
| DrainCycle.UpdateExact | irqbalance/irqlist.c:76-194 | from measured loads of any size, no subtraction for any candidate on any of the four layers wraps; when all loads are below 2^63 no addition does |
| LoadShare.WalkReaches | irqbalance/procinterrupts.c:421-428 | the recursion from the nodes reaches every object |
| LoadShare.LoadsAddUp | irqbalance/procinterrupts.c:414-428 | every object carries exactly the load of the leaves below it, modulo 2^64 |
| ShareConservation.LeavesShare | irqbalance/procinterrupts.c:357-369 | what flows into a subtree and is counted in it arrives at its leaves, but for less than one interrupt a leaf |
| ShareConservation.SharesConserved | irqbalance/procinterrupts.c:357-369 | the leaves' shares add up to at most the total count of the tree, and at least that less (leaves - 1) |
| ShareConservation.LocalCountWithin | irqbalance/procinterrupts.c:357-394 | the interrupts an object's load is divided among are at most all that are counted in the tree, so while those are below 2^64 no sum of counts wraps |
| LoadProofs.AttributedIsSafe | irqbalance/procinterrupts.c:341-351 | floor division leaves the attributed loads within the object's load |
| LoadProofs.AttributedLoses | irqbalance/procinterrupts.c:341-394 | and they miss less of the part of the load that its interrupts make up than one unit an interrupt |
| LoadProofs.PropagateDoes | irqbalance/procinterrupts.c:341-518 | objects carry their leaves' loads; an IRQ on an object gets (count - last count) * (load / interrupts) modulo 2^64, at least 1, where the interrupts are the ancestors' share and all counted at and below the object; the loads above 1 on an object add up to at most its load, and all to at least its interrupts' part less one unit for each |
| Measure.ClearWorkDoes | irqbalance/cputree.c:405-424 | exactly which IRQ loads are cleared: those on objects, and all if any object has an empty list |
| Measure.ReadCountsDoes | irqbalance/procinterrupts.c:288-321 | counts never run backwards, so a difference of counts does not wrap |
| Measure.ReadCountsMeans | irqbalance/procinterrupts.c:286-321 | lines are read up to the first that has no record, lacks a column or counts less than its record, and a rescan is called for if and only if there is one; a record holds the last count of its lines and the one before, and is unchanged without lines |
| Measure.MeasuringDoes | irqbalance/irqbalance.c:397-399 | measuring moves no IRQ and always leaves loads safe to drain, even when the CPU loads were not all found |
| Measure.MeasuringReads | irqbalance/irqbalance.c:397-399 | what a turn measures, field by field: counts as above; CPUs their loads; when all were found, every object the sum of its children's loads, as interrupts what its IRQs counted since the reading before, and its IRQs their part of its load; otherwise no IRQ on an object has a load |
| Activation.MaskBelowNodes | irqbalance/activate.c:72-99 | below the nodes every mask avoids banned CPUs; an EXACT-hinted IRQ gets its hint if and only if that misses the banned CPUs; a SUBSET-hinted IRQ always gets exactly what its object and its hint have in common, which is not empty; any other its object's mask |
| Activation.ActivateAllDoes | irqbalance/activate.c:101-124 | a mask is written, and `moved` cleared, for exactly the IRQs that have moved and have an object and a mask that differs from the current one, if that can be read and the new one written; nothing else changes |
| Runs.ForceFresh | irqbalance/irqbalance.c:387 | after a scan the waiting list is the balanced part of the database, in order |
| Runs.ForceKeepsOwned | irqbalance/irqbalance.c:237-248 | it keeps ownership exactly when the IRQ is not already waiting |
| Runs.BeginInv | irqbalance/irqbalance.c:387-390 | the invariants hold when the main loop starts, with no CPU saving power |
| Runs.TurnKeepsInv | irqbalance/irqbalance.c:392-429 | for any loads, a turn keeps all invariants; at most one CPU enters power saving; waiting IRQs have no node to go to |
| Runs.RunKeepsOwnership | irqbalance/irqbalance.c:387-431 | in every run, with any loads and rescans, every balanced IRQ is in exactly one list, once, that of its `assigned_obj` or the waiting list; no other IRQ is in any; none is deeper than its level; power savers are CPUs without IRQs |
| Runs.RunPowersave | irqbalance/irqbalance.c:392-431 | over every turn of every run, how powersave modes change, and that CPUs in that mode got no IRQ |
| Runs.RunPowerDecision | irqbalance/irqlist.c:159-190 | in every turn of every run, with any loads, the savers after it are those that the loads it measured decide on |
| Runs.RunNeverUnderflows | irqbalance/irqlist.c:76-194 | in every turn of every run, whatever the loads, no subtraction of the drain wraps, for any candidate on any layer; with loads measured below 2^63 no addition does |
| Runs.RunWrites | irqbalance/activate.c:101-124 | in every turn of every run exactly those masks are written, and every IRQ that waited before and was placed counts as moved |
| Runs.RunCounts | irqbalance/procinterrupts.c:315-321 | in every run counts never run backwards, before and after every turn, so that what objects count is exact |
| Runs.TurnKeepsStuck | irqbalance/irqbalance.c:392-429 | an IRQ on a node after a turn suits no package of the node; the node has an unbanned CPU, is not the unspecified one of a NUMA machine, and is the preferred one if that is usable |
| MaskRuns.RunMasks | irqbalance/activate.c:72-99 | in every run every mask is what the IRQ's hint makes of its object's mask, as above, for EXACT hints wherever the IRQ is; below the nodes it avoids banned CPUs |
| MaskRuns.RunStuck | irqbalance/irqbalance.c:392-431 | in every run an IRQ on a node is stuck there, as in the row of `TurnKeepsStuck` |
| MaskRuns.UnhintedOnNode | irqbalance/placement.c:56-74 | in every run an IRQ without SUBSET hint is on a node only if that has no packages |
| MaskRuns.RunMaskExposed | irqbalance/activate.c:72-99 | in every run, with any loads, the mask chosen for an IRQ holds a banned CPU exactly when the IRQ is on a node that exposes one to it: no package of the node suits the IRQ, and the node's mask, within a SUBSET hint, holds banned and other CPUs |
| MaskRuns.FirstMaskExposed | irqbalance/activate.c:82-98 | for an IRQ with a usable preferred node, or no choice of node: in the first turn after a scan its mask holds a banned CPU if and only if that node exposes one to it; then the mask is the node's |
| MaskRuns.ExposedWritten | irqbalance/activate.c:101-119 | and that mask is written, unless the kernel has it already or refuses |
| MaskRuns.MasksCleanExactly | irqbalance/activate.c:72-99 | whatever the IRQs, hints, loads and run, no mask on a tree holds a banned CPU if each node that IRQs are put on has no banned CPU, or all its unbanned CPUs in its packages; on any other tree there are a node and two CPUs of it, such that every IRQ of the node's devices with a SUBSET hint for these two gets just them, one banned, in the first turn |
| MaskRuns.ChildlessMask | irqbalance/activate.c:82-98 | on a preferred or sole usable node without packages, the mask of an IRQ without hint is the node's, banned CPUs and all |
| LoadBounds.MeasuringLeavesRoom | irqbalance/procinterrupts.c:430-520 | a complete reading with bounded CPU loads bounds all object and IRQ loads, also on NUMA machines, whose unspecified node and memory-only nodes stay without load |
| LoadRuns.BoundedTurn | irqbalance/irqbalance.c:392-429 | with such a reading a turn can be taken from any reachable state: nothing wraps in the drain and no scan fails |
| LoadRuns.RunDrainsExactly | irqbalance/irqlist.c:95-106 | in a run of such readings neither a subtraction nor an addition of any drain wraps |
| LoadRuns.BannedCpuWritten | irqbalance/activate.c:82-119 | a machine without NUMA, two CPUs online in a package, one banned and one offline: the first turn writes the mask of these two for an IRQ whose SUBSET hint names them |
| Startup.ScanIsFresh | irqbalance/irqbalance.c:218-223 | the tree and database built are the fresh machine that runs start from |
| Globals.FindInList | irqbalance/glib/glist.c:366-381 | the first entry with that number |
| Globals.MigrateIrq | irqbalance/classify.c:850-867 | the heap moves as `Migrate` says |
| Globals.SortIrqList | irqbalance/classify.c:888-891 | the list sorted by the records' current loads |
| PlacementCode.FindBestObject | irqbalance/placement.c:40-85 | one call keeps or replaces the best object as `Consider` says |
| PlacementCode.FindBest | irqbalance/placement.c:118-124 | the loop gives the choice of which `ChoiceIsBest` speaks |
| PlacementCode.FindBestObjectForIrq | irqbalance/placement.c:87-131 | the heap moves as `PlaceIrq` says |
| PlacementCode.PlaceIrqInObject | irqbalance/placement.c:133-137 | the heap moves as `PlaceObject` says, though the loop removes entries of the list it walks |
| PlacementCode.PlaceIrqInNode | irqbalance/placement.c:139-178 | the heap moves as `PlaceInNode` says |
| PlacementCode.RunPlacement | irqbalance/placement.c:200-208 | the heap moves as `CalculatePlacement` says |
| DrainCode.GatherAll | irqbalance/irqlist.c:54-62 | the statistics are those of `Gather` |
| DrainCode.MoveCandidateIrqs | irqbalance/irqlist.c:76-113 | heap and statistics move as `MoveCandidate` says |
| DrainCode.MigrateOverloadedIrqs | irqbalance/irqlist.c:115-146 | heap and statistics move as `MigrateOverloaded` says |
| DrainCode.FindOverloadedObjs | irqbalance/irqlist.c:159-174 | heap and statistics move as `FindOverloaded` says |
| DrainCode.ForceIrqMigration | irqbalance/irqlist.c:148-152 | the heap moves as `ForceOff` says |
| DrainCode.AdjustMode | irqbalance/irqlist.c:180-190 | the heap moves as `AdjustPower` says |
| DrainCode.UpdateMigrationStatus | irqbalance/irqlist.c:176-194 | the heap moves as `UpdateMigration` says, and the invariants are kept |
| LoadCode.SetLoad | irqbalance/procinterrupts.c:421-428 | the recursion sums loads children first, as the walk says |
| LoadCode.AccumulateInterrupts | irqbalance/procinterrupts.c:396-412 | the recursion counts each object's interrupts |
| LoadCode.GetParentBranchIrqCountShare | irqbalance/procinterrupts.c:357-369 | the recursion computes the share of which `SharesConserved` speaks |
| LoadCode.GetChildrenBranchIrqCount | irqbalance/procinterrupts.c:371-379 | adds the counts of the object and everything below it |
| LoadCode.ComputeIrqBranchLoadShare | irqbalance/procinterrupts.c:381-394 | the IRQs of the object get their slices |
| LoadCode.ClearWorkStats | irqbalance/cputree.c:405-424 | the heap moves as `ClearWork` says |
| LoadCode.ParseProcInterrupts | irqbalance/procinterrupts.c:286-321 | counts are read up to the first line that calls for a rescan |
| LoadCode.ParseProcStat | irqbalance/procinterrupts.c:430-520 | CPU loads are set, and propagated only if all were found |
| MainLoop.ActivateMapping | irqbalance/activate.c:59-119 | the mask written, if any, and `moved` cleared exactly then |
| MainLoop.ForceRebalanceIrq | irqbalance/irqbalance.c:237-248 | the heap moves as `ForceRebalance` says |
| MainLoop.Start | irqbalance/irqbalance.c:387-390 | after a scan, all IRQs are forced to wait and a first reading is taken: the state that `BeginInv` speaks of |
| MainLoop.RunTurn | irqbalance/irqbalance.c:392-429 | for any loads, the body of the loop makes a `Turn` and keeps the invariants; when it asks for a rescan it has only measured |
| IrqDb.Find | irqbalance/glib/glist.c:366-381 | whether a number is on a list, and its entry |
| IrqDb.Database.GetIrqInfo | irqbalance/classify.c:836-848 | finds exactly the known numbers, `interrupts_db` first |
| IrqDb.Database.AddBannedIrq | irqbalance/classify.c:269-292 | appends a number to the banned list unless it is there |
| IrqDb.Database.AddClBannedIrq | irqbalance/classify.c:294-297 | the same for the command-line list |
| IrqDb.Database.AddOneIrqToDb | irqbalance/classify.c:356-392 | appends a number unless either list has it |
| IrqDb.Database.BuildOneDevEntry | irqbalance/classify.c:664-711 | an unknown non-zero number enters one of the lists, by whether it is banned |
| IrqDb.Database.AddNewIrq | irqbalance/classify.c:743-787 | the same for a number of `/proc/interrupts` whose name is not banned |
| IrqDb.Database.Rebuild | irqbalance/classify.c:790-822 | after any devices and lines, or none when the directory cannot be read: numbers are unique across both lists, exactly those offered are known, and the first offer decides which list |
| IrqDb.OfferedKeepsUnique | irqbalance/classify.c:664-711 | an insertion keeps numbers unique and command-line bans out of the database |
| IrqDb.RecordsNumbered | irqbalance/classify.c:850-867 | records of the database are told apart by number, so a search by number finds the record meant |
| CpuTree.AddCpuDoes | irqbalance/cputree.c:337-345 | adding a CPU keeps the links, puts the CPU where its masks say, and links no other cache to a package |
| CpuTree.AddCpuParents | irqbalance/numa.c:149-165 | with known node ids every package has a node |
| CpuTree.ForestIff | irqbalance/cputree.c:117-205 | links between caches and packages are a forest exactly when equal cache masks came with equal package masks |
| CpuTree.SharedCacheNoForest | irqbalance/cputree.c:117-205 | two CPUs with one cache mask and two package masks give a tree that is no forest |
| CpuTree.TreeIsOk | irqbalance/cputree.c:117-205 | then the tree is what the balancer relies on |
| CpuTreeCode.Topology.GetNumaNode | irqbalance/numa.c:177-192 | the unspecified node, or the first with that number, or none |
| CpuTreeCode.Topology.AddCpuToCacheDomain | irqbalance/cputree.c:163-205 | the cache with that mask, found or made, has the CPU as its child |
| CpuTreeCode.Topology.AddCacheDomainToPackage | irqbalance/cputree.c:117-162 | the package with that mask, found or made, has the cache as its child |
| CpuTreeCode.Topology.DoOneCpu | irqbalance/cputree.c:207-347 | banned CPUs are only counted; any other joins the tree with masks cleared of banned CPUs, under the node its id names; the tree stays valid |
| CpuTreeCode.BuiltTree | irqbalance/cputree.c:117-347 | counters are list lengths, masks are distinct within caches and within packages, a CPU's parent is the cache with its mask, and the exact condition for a forest |
| CpuTreeCode.BuiltTreeIsOk | irqbalance/cputree.c:117-347 | the tree built meets `TreeOk` |

## Left out

- All reading of `/proc`, `/sys`, the environment and directories, scripts, signals, sleeping, the pidfile, logging and option parsing: their results are inputs.
- PCI class tables and quirks, and the guesses from names in `/proc/interrupts`: finite lookups; an IRQ's class, level, hint and node are arbitrary.
- The standard deviation: any real number may stand for it. It decides only which CPUs count as over or under the average.
- `malloc` failure, `free`, and truncation of output buffers: allocation succeeds and buffers are large enough, as `PrintedLength` bounds them.
- Functions that are declared and not defined: `__bitmap_subset`, `bitmap_scnlistprintf`, `bitmap_remap`, `__next_cpu`. `__first_cpu` is not used by the modelled code.
- `__bitmap_full`, `__bitmap_or`, `__bitmap_xor`, `__bitmap_andnot` and the one-word inline forms of `bitmap.h`: the same loops again.
- The 32-bit branch of `hweight64`: words have 64 bits.
- `package_mask` is uninitialised when `core_siblings` is missing; the model takes the masks as given.
- `dump_*` and `validate_*`: output only.
- The type, class and level of an IRQ are fixed when its record is made; `add_new_irq` sets them right after.
- The interrupt lists of objects are fields that hold a sequence. `GList` proves on nodes what the sequences stand for: append, removal during a walk, sort.
- Class `TopoObj` leaves out `last_load` and `obj_type_list`, class `IrqInfo` leaves out `flags`, `warned`, `name` and `cpumask`.
- LoadProofs.PropagateDoes: sums of interrupt counts are naturals; with 2^64 or more interrupts counted in the tree between two readings, those of the code wrap, which is not modelled. Below that none does (`ShareConservation.LocalCountWithin`).
- Runs.RunNeverUnderflows: speaks of turns with fewer than 2^64 interrupts counted since the reading before, as in the line above.
- LoadRuns.BoundedTurn: assumes that of the nodes without packages only such are left on which no IRQ is put: the load of any other is never reset, so it grows without bound.
- GList.ForEachDeleting: the callback may only unlink its own entry; that an empty list stands for the whole database is in `Measure.EachIrq`.
- Globals.SortIrqList: applies the sort as a function to a sequence; that the node-level sort computes that function is `GList.SortList`.
- Measure.ReadCountsDoes: the records of banned IRQs take no part in the state, so their counts, which could call for a rescan too, are not modelled; a rescan may happen at any turn of a run.
- LoadCode.ParseProcInterrupts: the same lines of banned IRQs are left out.
- CpuTree.TreeIsOk: assumes that node ids are known; a package whose node id is unknown stays without a parent, which `DoOneCpu` models.
- ListParse.ParseList: numbers are unbounded, as in the next line.
- ListParse.ParseListAccepts: numbers are unbounded; overflow of the C integers in a decimal number is not modelled.
