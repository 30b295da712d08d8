# PCB grouping for a placement line: a verified Dafny model

The system plans which printed circuit boards (PCBs) share a machine
set-up on a placement line. Every PCB needs a list of materials. Every
material occupies a slot width. A group of PCBs is valid when it is a single
PCB, or when the widths of the distinct materials its members need add up
to at most `C_max` (15). The optimiser looks for a partition of the
requested PCBs into as few valid groups as possible. Around it sit the
stored-solution records, the LLM tools that filter or prioritise a stored
solution, and the CSV flatteners.

This project models that core:

* **The exhaustive search.** `generate_combinations` is a recursive generator
  with a shared, mutable bound cell (`min_groups`). It is modelled eagerly by
  `Enumerator.Generate`/`Extend`. These return every yielded partition in
  yield order together with the final value of the cell, so the pruning
  behaves exactly as the generator's does. `EnumeratorFacts` proves what every
  yielded partition is:
  * a partition of the input into valid groups;
  * within the bound;
  * built by growing the starting groups.

  It also proves that the cell never rises. `EnumeratorComplete` proves the
  converse: for every valid partition whose group count fits the starting
  bound, the search yields one with no more groups. The cell drops only to the
  size of something already yielded, so pruning never loses the fewest groups.
  This makes the bound the strategies return, and the partitions the serial
  strategy keeps, the fewest groups of any valid partition.
* **The four strategies.**
  * `call` and `call_list` (serial): the minimal-length selection.
  * The bound finder with its locked shared minimum (`find_first_combination`).
  * The seed-pair search of `find_permute`/`process_pair`/`main`, which the
    parallel strategy and the `BruteForcing_Parallel` script share.
  * The hybrid strategy.

  Each strategy has its input checks, its heaviest-first sort and the JSON
  document it returns.
* **The records.** `PCB`, `Group`, `Combination` and `Combinations` of
  `algorithms/objects.py` are modelled with their JSON encodings and decoders,
  over a small JSON value type, and the round trips are proved.
* **The LLM tools.**
  * `SelectOneOptimalPCB`.
  * `FilterPCBs`, with its early stop after four matching groups.
  * `PrioritizeBasedOnSAP`: the day-by-day production planner with set-up
    changes, per-PCB time and the delivery deadlines. It is a class whose
    methods update the planning state, proved against specification functions.
* **The CSV flatteners.** `create_csv_from_input` and
  `json_solution_to_tabular_csv` exist line for line in both
  `utils/csv_utils.py` and `utils/create_csv.py`. They return the rows they
  hand to the CSV writer. The table cites `utils/csv_utils.py`. The same code is at
  `utils/create_csv.py` lines 8-14, 28-33 and 43-57.

Exceptions the Python code raises are `Err` values carrying the exception's
name, and the error answers the tools return are modelled as values. The
data files, the clock and the process pool are parameters of the model. The
dataset is `Serial.Dataset`, the current day is an `int` day number, and the
worker processes are iterations.

Some of the Python is imperative: loops that fill a list, the writer the CSV
code appends to, and the planner's `nonlocal` state. That code is written as
methods with loop invariants. Each method is proved equal to a specification
function, and the lemmas are stated about those functions.

`is_valid_group`, `generate_combinations`, `worker` and
`find_first_combination` are repeated in `parallel.py`, `hybrid.py` and
`BruteForcing_Parallel.py` with the same logic. The model defines each once,
and the table cites the copy the strategy uses. The script starts the shared
minimum at `number_of_data` instead of `len(pcb_list)`. The two are equal,
because the names of PCB001..PCB<n> are distinct (`ParallelScript.ScriptNamesDistinct`).

## Model

| member | source | states |
|---|---|---|
| Common.IntToString | llm/filtering_calls.py:20 | `str(n)` is non-empty text: all digits for n >= 0, a minus sign followed by digits otherwise |
| Common.NatToStringRoundTrip | utils/csv_utils.py:57-61 | reading back the decimal text of a natural number with `int(...)` gives the number |
| Common.ZFill | llm/filtering_calls.py:20 | `zfill(width)` keeps a long enough string as it is; otherwise it pads to exactly `width` with zeros, placed after a leading sign |
| Common.PcbNameDigits | algorithms/bruteforce/serial.py:217-219 | `f"PCB{n:03d}"` is "PCB" followed by at least three digits whose value is n |
| Common.PcbNameInjective | algorithms/bruteforce/serial.py:217-219 | different PCB numbers get different names, so the dict keyed by name loses no PCB |
| Common.PcbNameWidth | algorithms/bruteforce/serial.py:205-219 | for the accepted numbers 1..50 the name has exactly six characters |
| Common.LeadingDigits | utils/csv_utils.py:57 | the maximal run of digits at the front of a string: a prefix of digits followed by a non-digit or the end |
| Grouping.IsValidGroup | algorithms/bruteforce/serial.py:14-44 | the member/material walk with its early exit answers exactly whether the group is a single PCB or its distinct-material width is at most C_max |
| Grouping.GroupWidthCountsEachMaterialOnce | algorithms/bruteforce/serial.py:14-44 | the width the check accumulates is the sum of the widths of the set of materials the members need |
| Grouping.ValidityDependsOnMaterialSet | algorithms/bruteforce/serial.py:14-44 | two groups of two or more PCBs that need the same set of materials are both valid or both invalid |
| Grouping.OverflowIsFinal | algorithms/bruteforce/serial.py:36-42 | the running total at any point of the walk is at most the group's width, so a total over C_max means the group is invalid |
| Grouping.DistinctWidthIsSetWidth | algorithms/bruteforce/serial.py:36-39 | counting each material at its first occurrence gives the sum of the widths of the set of materials |
| Grouping.MaterialListElements | algorithms/bruteforce/serial.py:32-34 | the materials met in the walk are exactly the materials the members need |
| Grouping.MaterialListPrefix | algorithms/bruteforce/serial.py:14-44 | the materials of a prefix of the group are a prefix of the group's materials |
| Grouping.DistinctWidthPrefix | algorithms/bruteforce/serial.py:14-44 | the running total over a prefix never exceeds the total, so an early exit is final |
| Grouping.Dedup | algorithms/bruteforce/serial.py:215-222 | the keys of the PCB dict are the requested names, each once |
| Grouping.DedupFirstOccurrences | algorithms/bruteforce/serial.py:215-222 | the keys come in the order of each name's first occurrence in the request, since a dict keeps the position of the key's first insertion |
| Grouping.SortByWidth | algorithms/bruteforce/serial.py:223 | the sorted list is a permutation of the PCB list, heaviest total width first, and PCBs of equal width keep their input order, as Python's stable `sorted` with `reverse=True` leaves them |
| Grouping.InsertByKey | algorithms/bruteforce/serial.py:223 | inserting adds exactly that element, and the result starts with it or with the old head |
| Grouping.InsertByKeyHeaviest | algorithms/bruteforce/serial.py:223 | inserting into a heaviest-first list keeps it heaviest first |
| Grouping.InsertByKeyStable | algorithms/bruteforce/serial.py:223 | the inserted element goes in front of the elements of its own key and changes no other key's elements or their order |
| Grouping.SortByKeyStable | algorithms/bruteforce/serial.py:223 | for every key value, the sorted list holds the input's elements of that key in their input order |
| Grouping.HeaviestFirstTransitive | algorithms/bruteforce/serial.py:223 | in a heaviest-first list no PCB is lighter than any later one |
| Enumerator.Lower | algorithms/bruteforce/parallel.py:81 | `min(min_groups[0], n)` is a finite bound at most n that admits exactly the sizes both bounds admit |
| EnumeratorFacts.GenerateBound | algorithms/bruteforce/parallel.py:48-82 | the generator never raises the bound cell and leaves it alone when it yields nothing; every yielded partition fits the starting bound, except one yielded by the base case before the pruning test |
| EnumeratorFacts.ExtendBound | algorithms/bruteforce/parallel.py:69-74 | the same for the loop over the existing groups |
| EnumeratorFacts.YieldsWithinBound | algorithms/bruteforce/parallel.py:66-67 | when the starting groups fit the bound, every yielded partition fits it |
| EnumeratorFacts.GenerateNonEmpty | algorithms/bruteforce/parallel.py:76-82 | the generator yields something whenever one group per remaining PCB still fits the bound |
| EnumeratorFacts.GenerateCovers | algorithms/bruteforce/parallel.py:48-82 | every yielded partition holds the PCBs of the starting groups and of the list, each exactly as often as there |
| EnumeratorFacts.ExtendCovers | algorithms/bruteforce/parallel.py:69-74 | the same for the loop over the existing groups |
| EnumeratorFacts.GenerateShape | algorithms/bruteforce/parallel.py:48-82 | every yielded partition grew from the starting groups: the old groups are extended at their ends, new groups come last, every changed group passed the capacity check, and members keep input order |
| EnumeratorFacts.ExtendShape | algorithms/bruteforce/parallel.py:69-74 | the same for the loop over the existing groups |
| EnumeratorFacts.GrowsAfterExtend | algorithms/bruteforce/parallel.py:70-74 | growing group i by the next PCB and then placing the rest is a way of growing the starting groups |
| EnumeratorFacts.GrowsAfterOpen | algorithms/bruteforce/parallel.py:76-79 | opening a group with the next PCB and then placing the rest is a way of growing the starting groups |
| EnumeratorFacts.SearchYieldsPartitions | algorithms/bruteforce/parallel.py:48-82 | a search from no groups yields only partitions of its input into non-empty valid groups, within the bound |
| EnumeratorFacts.SuccessIsWitnessed | algorithms/bruteforce/parallel.py:96-101 | a worker probe that succeeds for k means that the first yielded partition splits the PCBs into 1..k valid groups |
| EnumeratorFacts.EnoughRoomSucceeds | algorithms/bruteforce/parallel.py:96-101 | the probe for k succeeds whenever there are between 1 and k PCBs |
| EnumeratorComplete.SubGroupValid | algorithms/bruteforce/parallel.py:28-46 | a non-empty group whose members all come from a valid group is itself valid |
| EnumeratorComplete.GenerateWitnessed | algorithms/bruteforce/parallel.py:66-82 | the search leaves the bound cell `min_groups[0]` as it found it, or lowers it only to a count that some partition it yielded does not exceed |
| EnumeratorComplete.SearchComplete | algorithms/bruteforce/parallel.py:48-82 | for every valid partition q of the PCBs whose group count fits the starting bound, the search yields a partition with at most as many groups as q: pruning never loses the fewest groups |
| EnumeratorComplete.PartitionSucceeds | algorithms/bruteforce/parallel.py:96-101 | the probe for k succeeds whenever some valid partition of the PCBs has between 1 and k groups |
| EnumeratorComplete.NoPartitionBelowFailure | algorithms/bruteforce/parallel.py:96-101 | for a non-empty PCB list, every valid partition q has at least one group and the probe for its group count succeeds |
| BoundFinder.SharedMin.Worker | algorithms/bruteforce/parallel.py:84-104 | a worker lowers the shared minimum only, only to its own k, only when its probe succeeds, and always when it succeeds below the current value |
| BoundFinder.FindFirstCombination | algorithms/bruteforce/parallel.py:106-133 | the result is the smallest k in 1..max whose probe succeeds when that is below the initial value, and the initial value otherwise |
| BoundFinder.FirstBoundUnique | algorithms/bruteforce/parallel.py:106-133 | the specified bound has one value |
| BoundFinder.RunWorkers | algorithms/bruteforce/parallel.py:106-133 | the workers applied to the shared value in any order that covers 1..max gives the specified bound, hence the same value as the ascending order |
| BoundFinder.HybridBound | algorithms/bruteforce/hybrid.py:162 | with k = 1..len probed, the bound is the least k whose search succeeds, and it is in 1..len; it is the fewest groups of any valid partition of the PCBs, and some valid partition has exactly that many |
| BoundFinder.ParallelBound | algorithms/bruteforce/parallel.py:248 | with k = 1..len-1 probed, the bound is the least succeeding k, or len, which always succeeds, when no smaller k does; in both cases it is the fewest groups of any valid partition of the PCBs, and some valid partition has exactly that many |
| BoundFinder.FewestGroups | algorithms/bruteforce/parallel.py:96-101 | a bound whose probe succeeds while no smaller bound's does is a lower bound on the group count of every valid partition, and is reached by one |
| Serial.MinimalSelection | algorithms/bruteforce/serial.py:226-234 | the kept partitions are non-empty, all of the minimal length, and every yielded partition of that length is kept |
| Serial.SelectMinimal | algorithms/bruteforce/serial.py:228-234 | the loop that clears on a shorter partition and appends on an equal one keeps exactly the minimal-length partitions, in yield order |
| Serial.KeepMembers | algorithms/bruteforce/serial.py:229-234 | a partition is kept exactly when it was yielded and has the given length |
| Serial.MinLengthIsLeast | algorithms/bruteforce/serial.py:228-232 | no yielded partition is shorter than the minimum, and one has that length |
| Serial.CallSelect | algorithms/bruteforce/serial.py:181-188 | `call` as written: the last yielded partition, kept only when it is minimal; UnboundLocalError when nothing is yielded |
| Serial.CallLosesTies | algorithms/bruteforce/serial.py:181-188 | on a three-PCB catalog with two minimal partitions, `call` keeps one while the selection of `call_list` keeps both |
| Serial.TieSearch | algorithms/bruteforce/serial.py:48-82 | the search on that catalog yields exactly the two two-group partitions, in order |
| Serial.TieShape | algorithms/bruteforce/serial.py:48-82 | the same for any PCBs a, b, c where a and b do not fit together and c fits with either |
| Serial.CompatiblePairLowersDefault | algorithms/bruteforce/serial.py:48 | a search on two compatible PCBs with the default cell leaves that shared cell at 1 |
| Serial.StaleDefaultYieldsNothing | algorithms/bruteforce/serial.py:66-67 | a later search on two incompatible PCBs with the cell at 1 yields nothing and leaves it at 1 |
| Serial.StaleDefaultStalls | algorithms/bruteforce/serial.py:227-234 | after a first `call_list` on compatible PCBs, a second on incompatible ones yields nothing on every pass, so its `while` loop never ends |
| Serial.FreshBoundAlwaysYields | algorithms/bruteforce/serial.py:227-229 | with a fresh unbounded cell, every search yields at least one partition |
| Serial.SearchMinimal | algorithms/bruteforce/serial.py:226-234 | the `while` loop, with a fresh cell on each pass, returns exactly the minimal partitions, which are not empty |
| Serial.OptimalIsMinimal | algorithms/bruteforce/serial.py:222-234 | every kept partition splits the sorted list into valid groups and has the fewest groups of any yielded partition; none of that length is lost; no valid partition of the list has fewer groups |
| Serial.Present | algorithms/bruteforce/serial.py:94-96 | the PCBs of a group that are keys of the PCB dict, exactly |
| Serial.PresentKeepsKnown | algorithms/bruteforce/serial.py:94-96 | every PCB of a searched partition is in the dict, so none is dropped |
| Serial.PresentPcbs | algorithms/bruteforce/serial.py:91-97 | the membership loop builds exactly those PCBs |
| Serial.GroupingJson | algorithms/bruteforce/serial.py:88-104 | the group list of one combination: the groups numbered from 1 with their PCB names |
| Serial.CreateJsonData | algorithms/bruteforce/serial.py:85-108 | the document is the "combinations" list, each combination numbered from 1 |
| Serial.CombinationsDocumentDecodes | algorithms/bruteforce/serial.py:85-108 | `Combinations.from_json` reads the document back as the kept partitions by name; for any count but one it is exactly what `Combinations.to_json` writes |
| Serial.RequestNumbers | algorithms/bruteforce/serial.py:201-202 | a bare number becomes a one-element list; a list stays as it is |
| Serial.RequestCatalogReady | algorithms/bruteforce/serial.py:205-220 | for numbers in 1..50 every requested PCB and every material it needs is catalogued |
| Serial.CallList | algorithms/bruteforce/serial.py:193-236 | "empty input list" for no numbers, the range error for numbers outside 1..50, otherwise the document of the minimal partitions of the heaviest-first list; it models the corrected search with a fresh bound, which is what the first call in a process does |
| SeedSearch.SetToSeq | algorithms/bruteforce/parallel.py:219 | `list(set)` lists every element exactly once |
| SeedSearch.PartnersMembers | algorithms/bruteforce/parallel.py:146-151 | a PCB is a partner exactly when it comes after the head and fits with it |
| SeedSearch.PairsOfShape | algorithms/bruteforce/parallel.py:135-152 | no pairs for at most one PCB; at most len-1 pairs; each is the head with a later compatible PCB; every such pair is listed |
| SeedSearch.FindPermute | algorithms/bruteforce/parallel.py:135-152 | the loop returns exactly those pairs, in order |
| SeedSearch.PairsLoop | algorithms/bruteforce/parallel.py:146-152 | the loop over the later PCBs builds the head paired with each partner, in order |
| SeedSearch.TryPartner | algorithms/bruteforce/parallel.py:147-151 | one iteration appends `[head, x]` exactly when it passes the capacity check |
| SeedSearch.PartnersStep | algorithms/bruteforce/parallel.py:147-151 | one more PCB adds its pair exactly when it fits with the head |
| SeedSearch.RemoveFirst | algorithms/bruteforce/parallel.py:171 | `list.remove` fails (ValueError) exactly when the element is absent |
| SeedSearch.RemoveFirstCount | algorithms/bruteforce/parallel.py:171 | a successful `remove` takes away exactly one copy |
| SeedSearch.RemoveAllCount | algorithms/bruteforce/parallel.py:169-174 | successful removals take away exactly the removed elements |
| SeedSearch.RemoveAllDistinct | algorithms/bruteforce/parallel.py:169-174 | on a list without repeats, removing distinct members leaves the list without them, order kept |
| SeedSearch.RemoveAllAppend | algorithms/bruteforce/parallel.py:169-174 | removing xs and then ys is removing xs + ys; a failure stops everything |
| SeedSearch.FilteredList | algorithms/bruteforce/parallel.py:169-174 | the copy without the pair and the first i PCBs, or ValueError |
| SeedSearch.RemoveEach | algorithms/bruteforce/parallel.py:170-174 | the removal loop equals removing every element in turn |
| SeedSearch.SingletonsShape | algorithms/bruteforce/parallel.py:179-180 | the anchors become one singleton group each, in order, and hold exactly the anchors |
| SeedSearch.ProcessPair | algorithms/bruteforce/parallel.py:154-184 | `process_pair` appends the keys of the seeded partitions that reach exactly `min_gp` groups once the anchors are appended |
| SeedSearch.RecordedFrom | algorithms/bruteforce/parallel.py:177-184 | every recorded key comes from a yielded partition of the right length |
| SeedSearch.SeedKeysArePartitions | algorithms/bruteforce/parallel.py:154-184 | for a pair `find_permute` returns, no `remove` fails and every recorded key is that of a partition of the whole list with the pair in its first group |
| SeedSearch.SeedPartitionOf | algorithms/bruteforce/parallel.py:176-184 | a yielded partition with the anchors appended is a partition of the whole list into valid groups |
| SeedSearch.AnchoredGroups | algorithms/bruteforce/parallel.py:176-180 | the seed pair opens the first group and every group is non-empty and valid |
| SeedSearch.AnchoredCount | algorithms/bruteforce/parallel.py:176-180 | the result holds the pair, the filtered list and the anchors |
| SeedSearch.MainSearch | algorithms/bruteforce/parallel.py:187-220 | `main` returns every key recorded at any anchor position, each once |
| SeedSearch.ProcessPairs | algorithms/bruteforce/parallel.py:207-211 | one `starmap` records exactly the keys of the pairs of that anchor position |
| SeedSearch.CollectKeys | algorithms/bruteforce/parallel.py:216-217 | the set holds exactly the recorded keys |
| SeedSearch.MainKeysArePartitions | algorithms/bruteforce/parallel.py:187-220 | every key returned is that of a partition into `min_gp` valid groups: a pair at some anchor, the rest searched, the earlier PCBs singletons |
| Parallel.Prepared | algorithms/bruteforce/parallel.py:239-246 | the sorted list holds each requested PCB exactly once, and the dict and catalogue cover every PCB and material it needs |
| Parallel.DistinctPermutation | algorithms/bruteforce/parallel.py:246 | sorting a list without repeats gives one without repeats |
| Parallel.ListKey | algorithms/bruteforce/parallel.py:256-259 | listing the frozensets of a key gives a partition with that key |
| Parallel.EmitGroups | algorithms/bruteforce/parallel.py:255-269 | the document lists each group, numbered from 1, with its PCBs present in the dict |
| Parallel.Search | algorithms/bruteforce/parallel.py:248-251 | the bound is the first-bound value and the keys are all those recorded at that bound, each once |
| Parallel.EmitFirst | algorithms/bruteforce/parallel.py:255-271 | IndexError exactly when nothing was recorded, otherwise the groups of the first key |
| Parallel.SearchAndEmit | algorithms/bruteforce/parallel.py:248-271 | the outcome at the first bound, and IndexError for a single PCB |
| Parallel.CallListParallel | algorithms/bruteforce/parallel.py:223-271 | the two assertion errors, otherwise the outcome at the first bound: IndexError when nothing was recorded (always for one PCB), else the groups of a recorded key |
| Parallel.SinglePcbRecordsNothing | algorithms/bruteforce/parallel.py:146 | with one PCB `find_permute` finds no pair, so nothing is recorded |
| Parallel.OutcomeOfBest | algorithms/bruteforce/parallel.py:251-269 | the first entry of the deduplicated key list, emitted, is an outcome of the recorded key set |
| Parallel.CallListParallelChecked | algorithms/bruteforce/parallel.py:223-271 | the corrected strategy always answers: the groups of a recorded key or of the first partition of the bound-k search |
| Parallel.SearchAndEmitChecked | algorithms/bruteforce/parallel.py:248-271 | the same after the list is prepared |
| Parallel.ParallelGroupsArePartitions | algorithms/bruteforce/parallel.py:248-271 | the emitted groups are those of a partition of the PCBs into at most k valid groups |
| ParallelScript.ScriptNumbers | Algorithms/BruteForce/BruteForcing_Parallel.py:290 | the script loads PCB001..PCB<number_of_data> |
| ParallelScript.BruteForceScript | Algorithms/BruteForce/BruteForcing_Parallel.py:273-302 | the assertion on `number_of_data`; otherwise every PCB is in the list, the bound is the first-bound value and the keys are all those recorded |
| ParallelScript.ScriptNamesDistinct | Algorithms/BruteForce/BruteForcing_Parallel.py:290-295 | the script's names are pairwise different, so the dict keeps all of them |
| ParallelScript.DedupOfDistinct | Algorithms/BruteForce/BruteForcing_Parallel.py:290-295 | keying by names that are already distinct keeps them all, in order |
| Hybrid.GroupMaterialsMembers | algorithms/bruteforce/hybrid.py:173-177 | a material is in the group's set exactly when a member in the dict needs it |
| Hybrid.GroupJson | algorithms/bruteforce/hybrid.py:171-184 | one entry: the group id, the PCBs in the dict, and their material set listed once each |
| Hybrid.HybridJson | algorithms/bruteforce/hybrid.py:170-184 | one entry per group of the partition, numbered from 1 in order |
| Hybrid.SearchAndWrite | algorithms/bruteforce/hybrid.py:162-186 | the document of the first partition of the search at the first bound |
| Hybrid.CallListHybrid | algorithms/bruteforce/hybrid.py:135-186 | the two assertion errors, otherwise always a document: that of the first partition at the least succeeding bound |
| Hybrid.HybridResult | algorithms/bruteforce/hybrid.py:162-171 | phase 2 yields only partitions within the bound; its first partition exists and has exactly k groups; no smaller bound succeeds; no valid partition of the PCBs has fewer groups than the one written out |
| Objects.Lookup | algorithms/objects.py:71 | a dict lookup finds a value exactly when the key is present |
| Objects.Subscript | algorithms/objects.py:19-20 | `v[key]` succeeds exactly on a dict holding the key, with the stored value |
| Objects.StringsRoundTrip | algorithms/objects.py:37-48 | a list of names encodes and decodes to itself |
| Objects.PcbRoundTrip | algorithms/objects.py:10-21 | `PCB.from_json(p.to_json())` gives back p |
| Objects.PcbsRoundTrip | algorithms/objects.py:33-45 | the same for a list of PCBs |
| Objects.GroupRoundTrip | algorithms/objects.py:31-45 | a group written without an id decodes to itself, materials included |
| Objects.GroupIdRoundTrip | algorithms/objects.py:35-49 | a group written with an id decodes to its PCB names in order, with no materials |
| Objects.GroupsAreNumbered | algorithms/objects.py:59-67 | a combination's groups are listed with ids 1..n, in order, each with its PCB names |
| Objects.NumberedGroupsRoundTrip | algorithms/objects.py:62-78 | the numbered group list decodes to the groups by name |
| Objects.CombinationRoundTrip | algorithms/objects.py:59-79 | `Combination.from_json` gives back the groups by name from either output shape |
| Objects.CombinationsShape | algorithms/objects.py:89-97 | the stored document has a "combinations" key exactly when there is not exactly one combination |
| Objects.CombinationListRoundTrip | algorithms/objects.py:93-104 | the numbered combination list decodes to the combinations by name |
| Objects.CombinationListStep | algorithms/objects.py:103 | decoding a list is decoding its head and then its tail |
| Objects.CombinationsRoundTrip | algorithms/objects.py:89-108 | `Combinations.from_json(cs.to_json())` keeps the number of combinations and every group's PCB names in order |
| Prioritization.IndexZero | llm/prioritization_calls.py:38 | `[0]` succeeds exactly on a non-empty list, giving its first item |
| Prioritization.SelectOne | llm/prioritization_calls.py:27-38 | the error dict for a missing, empty or non-dict solution; KeyError when the "combinations" key is missing |
| Prioritization.SelectOneShapes | llm/prioritization_calls.py:38 | on a stored solution: the first combination for two or more, IndexError for none, KeyError for exactly one |
| Prioritization.SelectOneChecked | llm/prioritization_calls.py:27-38 | the corrected selection keeps the error dict for a missing solution |
| Prioritization.SelectFirstCombination | llm/prioritization_calls.py:38 | for any stored solution with a combination, the corrected selection returns the first one, which decodes to it |
| Prioritization.UpcomingMembers | llm/prioritization_calls.py:54 | a row is upcoming exactly when it is delivered after today and at most seven days later |
| Prioritization.CountAppend | llm/prioritization_calls.py:76 | counts over a concatenation add up |
| Prioritization.ItemsOrderCounts | llm/prioritization_calls.py:76 | a group's items add no set-up change and add exactly the units its dict holds |
| Prioritization.OrderShape | llm/prioritization_calls.py:76 | the day's order has one set-up change per group and every unit the dicts hold, and starts with a set-up change when not empty |
| Prioritization.CountAddItem | llm/prioritization_calls.py:97 | `pcb_dict[pcb] = get(pcb, 0) + n` adds exactly that item's weight |
| Prioritization.CountAddUnits | llm/prioritization_calls.py:93-97 | adding units adds them, plus one set-up change exactly when the group is new to the day |
| Prioritization.AddUnitsGroups | llm/prioritization_calls.py:96 | `setdefault` adds the group to the day's keys and keeps them distinct |
| Prioritization.Zip | llm/prioritization_calls.py:87 | `zip` is as long as the shorter list |
| Prioritization.InsertByGroupKeeps | llm/prioritization_calls.py:87 | inserting keeps the items and the units each PCB asks for |
| Prioritization.InsertByGroupSorted | llm/prioritization_calls.py:87 | inserting keeps the list ordered by group |
| Prioritization.InsertByGroupStable | llm/prioritization_calls.py:87 | the inserted item goes in front of the items of its own group and changes no other group's items or their order |
| Prioritization.SortByGroupFacts | llm/prioritization_calls.py:87 | the sort is a permutation, ascending by group, keeps the items of each group in their input order as Python's stable `sorted` does, and keeps the units every PCB asks for |
| Prioritization.GroupMappingStep | llm/prioritization_calls.py:82 | one more group maps its PCBs to its index and leaves the others as they were |
| Prioritization.GroupMappingFacts | llm/prioritization_calls.py:82 | a PCB is mapped exactly when some group holds it, and it maps to the last such group |
| Prioritization.StartValid | llm/prioritization_calls.py:65-70 | the start of a combination's planning satisfies the planning invariant with nothing planned |
| Prioritization.PossibleFits | llm/prioritization_calls.py:93 | `possible_amount` is never negative; when positive it is at most what is asked for and fits into the rest of the day; on an empty day something fits |
| Prioritization.AddToDayValid | llm/prioritization_calls.py:94-98 | charging the day keeps the invariant (time within the day and equal to the order's time) and plans exactly those units |
| Prioritization.PushKeeps | llm/prioritization_calls.py:72-80 | closing a non-empty day keeps the invariant, loses no unit and only appends to the ordering |
| Prioritization.RunAmountFacts | llm/prioritization_calls.py:89-100 | the `while` loop keeps the invariant; it ends with nothing left or with the date past the deadline; it plans exactly what it used up |
| Prioritization.RunItemsFacts | llm/prioritization_calls.py:87-103 | when one delivery date's loop ends with the deadline met, every unit its items ask for is planned |
| Prioritization.RunPlanFacts | llm/prioritization_calls.py:83-106 | when the plan loop ends with the last deadline met, every unit the plan asks for is planned |
| Prioritization.RunPlanErrors | llm/prioritization_calls.py:87-88 | KeyError exactly when a reached date has a PCB that is in no group, and never when every PCB is mapped |
| Prioritization.AttemptFacts | llm/prioritization_calls.py:64-119 | a plan that fits has consecutive days from today, each starting with a set-up change and within the working day, and plans every requested unit; the only error is the KeyError |
| Prioritization.FirstFitPlanned | llm/prioritization_calls.py:64-119 | the answer is the first combination whose plan fits, every earlier one having not fit |
| Prioritization.FirstFitRefused | llm/prioritization_calls.py:121 | the "no slack" message only when no combination fits |
| Prioritization.FirstFitError | llm/prioritization_calls.py:64-88 | an error is that of the first combination that raises, every earlier one having not fit |
| Prioritization.PrioritizeStored | llm/prioritization_calls.py:57-64 | on a stored solution of either shape, the combinations are tried in stored order, by PCB name |
| Prioritization.Planner.PushInOrdering | llm/prioritization_calls.py:72-80 | the fields after the call are `Push` of the old state: the day closed with its order list, dict and time reset, date advanced (see PushKeeps) |
| Prioritization.Planner.ScheduleAmount | llm/prioritization_calls.py:89-100 | the `while` loop leaves the fields and the amount left as `RunAmount` gives them (see RunAmountFacts) |
| Prioritization.Planner.ScheduleDate | llm/prioritization_calls.py:87-103 | the loop over one date's items leaves the fields as `RunItems` gives them (see RunItemsFacts) |
| Prioritization.TryCombination | llm/prioritization_calls.py:65-119 | planning one combination returns `Attempt`: KeyError, no fit, or a plan with the properties of AttemptFacts |
| Prioritization.PrioritizeBasedOnSap | llm/prioritization_calls.py:42-121 | the "optimize first" error for a solution that is not a dict, the decoding error of `Combinations.from_json`, otherwise the first-fit answer over the decoded combinations (see FirstFitPlanned, FirstFitRefused, FirstFitError) |
| Filtering.RequestedNames | llm/filtering_calls.py:20 | one name per requested number, in order, each `PCB` plus the number padded to three digits |
| Filtering.MatchesMeans | llm/filtering_calls.py:31 | a group matches only when its "PCBs" holds a requested name; for a list, exactly when one of the names is an element |
| Filtering.MatchingGroupsFilter | llm/filtering_calls.py:31 | the comprehension keeps exactly the matching groups and no more than it was given |
| Filtering.ItemsMatchesMatch | llm/filtering_calls.py:30-33 | every group gathered from one combination matches |
| Filtering.ScanStops | llm/filtering_calls.py:29-35 | the result is the gathering over a prefix of the combinations: all of them, or up to the first at which four or more groups are gathered |
| Filtering.ScanMatch | llm/filtering_calls.py:29-35 | every group gathered matches |
| Filtering.FilterFacts | llm/filtering_calls.py:19-40 | the "no solutions" message exactly for a falsy solution; otherwise the "no groups" message, or a non-empty list of groups that each hold a requested PCB |
| Filtering.CombinationGroups | llm/filtering_calls.py:30-33 | the inner loop gathers the matching groups of every entry of the combination dict, in order, or raises as the lookups do (see ItemsMatchesMatch) |
| Filtering.FilterPcbs | llm/filtering_calls.py:20-40 | the loop with its early `break` returns `Filter`: the properties of FilterFacts and ScanStops |
| Filtering.CombinationJsonMatches | llm/filtering_calls.py:30-31 | filtering never raises on a combination the system wrote |
| Filtering.MatchingGroupsOk | llm/filtering_calls.py:31 | the comprehension never raises on groups whose "PCBs" is a list |
| Filtering.ScanOk | llm/filtering_calls.py:29-35 | the outer loop never raises when no combination makes it raise |
| Filtering.StoredListFilter | llm/filtering_calls.py:29 | on a stored solution with any number of combinations but one, the tool answers, and the corrected filter answers the same |
| Filtering.StoredSingleRaises | llm/filtering_calls.py:29 | on a stored one-combination solution the tool raises KeyError 'combinations' |
| Filtering.StoredSingleFilter | llm/filtering_calls.py:29-40 | the corrected filter answers that combination's matching groups, or the "no groups" message |
| Tabular.StripFacts | utils/csv_utils.py:16 | `strip()` keeps a slice that neither starts nor ends with a space, and everything cut from either side is space |
| Tabular.SplitLinesRoundTrip | utils/csv_utils.py:16 | joining the pieces of `split('\n')` gives the text back, and no piece holds a line break |
| Tabular.SplitFirstCommaFacts | utils/csv_utils.py:18 | the two-name unpacking fails exactly when the line has no comma; the first field has no comma, and the fields joined by a comma give the line |
| Tabular.RowsFromFacts | utils/csv_utils.py:15-19 | the loop succeeds exactly when every line has a comma, and then writes one row per line, the line split at its first comma |
| Tabular.InputRowsFacts | utils/csv_utils.py:13-19 | `create_csv_from_input` raises ValueError exactly when a line of the stripped text has no comma; otherwise one row per line |
| Tabular.CreateCsvFromInput | utils/csv_utils.py:13-19 | the loop returns `InputRows`: the properties of InputRowsFacts |
| Tabular.WriteGroup | utils/csv_utils.py:36-38 | one row `[combination_id, group_id, pcb]` per PCB, appended in order |
| Tabular.Writer.WriteRow | utils/csv_utils.py:38 | `writerow` appends exactly that row after the rows already written |
| Tabular.PcbRows | utils/csv_utils.py:36-38 | one row `[combination_id, group_id, pcb]` per entry, in order |
| Tabular.CombinationToCsv | utils/csv_utils.py:33-38 | the writer's rows and the exception raised are those of `CombinationCsv`, rows written before an exception kept |
| Tabular.JsonSolutionToTabularCsv | utils/csv_utils.py:49-63 | the rows written and the exception raised are those of `Tabular`, for either shape (see StoredTable, UnnamedCombinationFails) |
| Tabular.CombinationTableSize | utils/csv_utils.py:33-38 | one row per PCB of every group of every combination |
| Tabular.GroupsFromNumbered | utils/csv_utils.py:34-38 | a combination's groups, as the system writes them, give exactly their table rows |
| Tabular.ParseCombinationKey | utils/csv_utils.py:57-61 | the key `combination<id>` matches the pattern and gives back its id |
| Tabular.CombinationsFromNumbered | utils/csv_utils.py:55-63 | the numbered combination list gives exactly the rows of its combinations |
| Tabular.GroupRows | utils/csv_utils.py:34-38 | a group the system wrote, numbered g, contributes exactly one row per PCB name, then the loop goes on with the next group |
| Tabular.CombinationRows | utils/csv_utils.py:55-63 | a combination the system wrote, keyed `combination<id>`, contributes exactly its group rows under that id |
| Tabular.StoredTable | utils/csv_utils.py:49-63 | a stored solution of either shape gives `[combination, group, PCB]` for every PCB, numbered from 1 in order, one row per PCB, and raises nothing |
| Tabular.UnnamedCombinationFails | utils/csv_utils.py:57-58 | a key not of the form `combination<digits>` raises AssertionError before any row of that combination |

## Left out

- Reading the CSV data files is not modelled: the PCB files, the material catalogue and VBAP become the parameters `Serial.Dataset` and the SAP plan. Timestamps, output paths and writing the files are also left out. The CSV text encoding is left out too (quoting, line terminator): rows are values.
- The multiprocessing pools, processes, manager lists and locks are not modelled. Workers run as iterations: `BoundFinder.FindFirstCombination` runs them in ascending order and `BoundFinder.RunWorkers` in any order of 1..max, and both return the one value `BoundFinder.FirstBoundUnique` allows. The interleaving of two workers inside the locked section is not modelled: each worker's read-compare-write is one step.
- Serial.CallList: each call searches with a fresh unbounded bound. A second call in the same process starts from the bound the first one left in the shared default list, and can loop for ever; `Serial.StaleDefaultStalls` shows this.
- Serial.CallList, Parallel.CallListParallel, Parallel.CallListParallelChecked, ParallelScript.BruteForceScript and Hybrid.CallListHybrid require `Serial.DatasetReady`: for each requested number in 1..50, that PCB's file exists and each material it lists is in the catalogue (numbers outside 1..50 are rejected before any file is read). The FileNotFoundError for a missing PCB file and the KeyError for an uncatalogued material (in the width sort and in `is_valid_group`) are not modelled.
- Objects.PcbFromJson, Objects.GroupFromJson and Prioritization.PrioritizeBasedOnSap decode more strictly than Python. `from_json` stores whatever values it finds, so `{"name": 5, "materials": 7}` becomes a PCB and `{"PCBs": "AB"}` a group of PCBs "A" and "B". The model reports a TypeError for a value whose kind the encoders never write.
- Floats: `float('inf')` is the `Unbounded` bound. Widths and `C_max` are natural numbers.
- `write_results` of serial.py and of BruteForcing_Parallel.py writes a report file and is not part of this model. So are the script's printing and timing.
- SeedSearch.MainSearch: the order of `list(set)` is arbitrary in Python. The model proves only "each element once", through `SetToSeq`.
- Hybrid.GroupJson: the order of `list(group_materials)` is arbitrary in the same way, so it is proved only to list each material once.
- SeedSearch.MainSearch requires the PCB list to have no repeats. The callers always pass dict keys, and `Parallel.Prepared` proves that.
- Prioritization.PrioritizeBasedOnSap: dates are integer day numbers, so `strftime` text is not modelled. The pandas sort, groupby and `agg(list)` that build `sap_plan` are not modelled: the plan is a parameter, already grouped by date. `cache_order` is not modelled either.
- Prioritization.RunPlanFacts: the deadline of each earlier delivery date is not proved. Only the conservation of units and the final date against the last deadline are proved.
- Prioritization.RunPlanErrors: the KeyError text names no PCB.
- Filtering.FilterPcbs: `sanitize_input` is not part of this model. The requested PCB numbers arrive as a list of integers.
- Tabular.StripFacts: the stripped characters are ASCII whitespace only. Unicode whitespace is not modelled.
- Tabular.ParseCombinationKey: `\d` matches ASCII digits only.
- Tabular.JsonSolutionToTabularCsv requires a dict, as its type hint says.
- Serial.CallSelect: only the selection loop of `call` is modelled. Its loading of PCB001..PCB<n> and its `create_json_data` document are those of `call_list` and are not repeated.
- The `print` calls, `psutil` process statistics and timings are left out.
- Exception texts other than those the code spells out are names only, such as "KeyError: 'combinations'".

## Findings

| source | as written | input that shows it | evidently intended | confidence | as-written member | corrected member |
|---|---|---|---|---|---|---|
| algorithms/bruteforce/serial.py:48 | The default `min_groups=[float('inf')]` is one list shared by every call. `call_list` never passes it, so the bound left by one call prunes the next. Its `while len(best_combinations) == 0` then loops for ever. | `call_list` on two PCBs that fit together, then `call_list` on two that do not | every `call_list` searches with a fresh unbounded bound | high (not executed) | Serial.StaleDefaultStalls | Serial.SearchMinimal |
| algorithms/bruteforce/serial.py:187-188 | In `call`, the equal-length test sits after the `for` loop, so only the last yielded partition can be kept. With nothing yielded, the loop variable is unbound. | three PCBs where the first two do not fit together and the third fits with either: two minimal partitions, and `call` keeps one | keep every partition of minimal length, as `call_list` does | high (not executed) | Serial.CallLosesTies | Serial.MinimalSelection |
| algorithms/bruteforce/parallel.py:256 | `best_combinations[0]` is read even when `main` recorded nothing. | `call_list_parallel([1])`: a single PCB has no seed pair | return the grouping of the first partition at the bound | high (not executed) | Parallel.SinglePcbRecordsNothing | Parallel.CallListParallelChecked |
| llm/prioritization_calls.py:38 | `solutions['combinations'][0]` assumes the list shape. | a stored one-combination solution `{"groups": [...]}`: what `Combinations.to_json` writes for one combination, and what `call_list_hybrid` and `call_list_parallel` store | return the one combination | high (not executed) | Prioritization.SelectOneShapes | Prioritization.SelectFirstCombination |
| llm/filtering_calls.py:29 | `solutions['combinations']` assumes the list shape. | a stored one-combination solution `{"groups": [...]}`, as above | filter the groups of the one combination | high (not executed) | Filtering.StoredSingleRaises | Filtering.StoredSingleFilter |
