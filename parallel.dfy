/** `call_list_parallel` of algorithms/bruteforce/parallel.py: the bound finder
    over k = 1..len-1, the seed-pair search with that bound, and the groups of
    the first listed key as a "groups" document. */
module Parallel {
  import opened Common
  import opened Grouping
  import opened Enumerator
  import opened EnumeratorFacts
  import opened BoundFinder
  import opened SeedSearch
  import Objects
  import Serial

  const EmptyInputError: string := "AssertionError: Error: empty input list."
  const RangeError: string := "AssertionError: Error: PCB numbers must be between 1 and 50."
  const NoCombinationError: string := "IndexError: list index out of range"

  /** A permutation of a list without repeats has no repeats. */
  lemma DistinctPermutation(a: seq<PcbId>, b: seq<PcbId>)
    requires Distinct(a) && multiset(a) == multiset(b)
    ensures Distinct(b)
  {
    DistinctCounts(a);
    forall i, j | 0 <= i < j < |b| ensures b[i] != b[j] {
      RepeatCounts(b, i, j);
    }
  }

  /** An element at two positions is counted at least twice. */
  lemma RepeatCounts(b: seq<PcbId>, i: nat, j: nat)
    requires i < j < |b|
    ensures b[i] == b[j] ==> multiset(b)[b[i]] >= 2
  {
    var x := b[i];
    assert b == b[..i] + [x] + b[i + 1..j] + [b[j]] + b[j + 1..];
  }

  lemma {:induction false} DistinctCounts(a: seq<PcbId>)
    requires Distinct(a)
    ensures forall x :: multiset(a)[x] <= 1
  {
    if a != [] {
      var init := a[..|a| - 1];
      assert a == init + [a[|a| - 1]];
      DistinctCounts(init);
      assert a[|a| - 1] !in init;
    }
  }

  /** `pcb_data_dict` and the heaviest-first `pcb_list` for valid PCB numbers. */
  function Prepared(data: Serial.Dataset, ns: seq<int>): (r: (Catalog, seq<PcbId>))
    requires Serial.DatasetReady(data, ns) && Serial.InRange(ns)
    ensures Complete(r.0) && Known(r.0, r.1) && Distinct(r.1)
    ensures multiset(r.1) == multiset(Serial.RequestNames(ns))
  {
    var names := Serial.RequestNames(ns);
    var cat := Serial.RequestCatalog(data, names);
    Serial.RequestCatalogReady(data, ns);
    Serial.SortedKnown(cat, names);
    DistinctPermutation(names, SortByWidth(cat, names));
    (cat, SortByWidth(cat, names))
  }

  /** `{"groups": [{"group_id": 1, "PCBs": [...]}, ...]}` for the groups `q`,
      keeping the PCBs present in the dict. */
  function GroupsDocument(cat: Catalog, q: Partition): Objects.Json
  {
    Objects.CombinationToJson(Serial.ToRecord(cat, q), None)
  }

  /** Listing the frozensets of a key, each in some order, gives a partition
      whose key is the key listed. */
  method ListKey(key: Key) returns (q: Partition)
    ensures KeyOf(q) == key && |q| == |key|
  {
    var groupSets := SetToSeq(key);
    q := [];
    for g := 0 to |groupSets|
      invariant |q| == g && forall t :: 0 <= t < g ==> Elements(q[t]) == groupSets[t]
    {
      var members := SetToSeq(groupSets[g]);
      q := q + [members];
    }
    forall s | s in KeyOf(q) ensures s in key {
      var t :| 0 <= t < |q| && s == Elements(q[t]);
    }
    forall s | s in key ensures s in KeyOf(q) {
      var t :| 0 <= t < |groupSets| && groupSets[t] == s;
    }
  }

  /** The emitted document for a group listing `q`. */
  method EmitGroups(cat: Catalog, q: Partition) returns (doc: Objects.Json)
    ensures doc == GroupsDocument(cat, q)
  {
    var grouping := Serial.GroupingJson(cat, q);
    doc := Objects.JObj([("groups", Objects.JArr(grouping))]);
  }

  /** `call_list_parallel` as written: the assertions fail for an empty list or a
      number outside 1..50, and `best_combinations[0]` raises IndexError when the
      seed-pair search records nothing, which is always the case for one PCB. */
  method CallListParallel(ns: seq<int>, data: Serial.Dataset) returns (r: Result<Objects.Json>)
    requires Serial.DatasetReady(data, ns)
    ensures |ns| == 0 ==> r == Err(EmptyInputError)
    ensures |ns| > 0 && !Serial.InRange(ns) ==> r == Err(RangeError)
    ensures |ns| > 0 && Serial.InRange(ns) ==>
      var (cat, pcbList) := Prepared(data, ns);
      exists k :: IsFirstBound(cat, pcbList, |pcbList| - 1, |pcbList|, k) && Outcome(cat, pcbList, k, r)
    ensures |ns| > 0 && Serial.InRange(ns) && |Serial.RequestNames(ns)| == 1 ==> r == Err(NoCombinationError)
  {
    if |ns| == 0 {
      return Err(EmptyInputError);
    }
    if !Serial.InRange(ns) {
      return Err(RangeError);
    }
    var (cat, pcbList) := Prepared(data, ns);
    assert |multiset(pcbList)| == |multiset(Serial.RequestNames(ns))|;
    r := SearchAndEmit(cat, pcbList);
  }

  /** What `call_list_parallel` returns once the bound is k: IndexError exactly
      when nothing was recorded, otherwise the groups of a recorded key. */
  ghost predicate Outcome(cat: Catalog, pcbList: seq<PcbId>, k: nat, r: Result<Objects.Json>)
    requires Complete(cat) && Known(cat, pcbList)
  {
    && (r.Err? <==> KeysUpTo(cat, pcbList, k, |pcbList|) == {})
    && (r.Err? ==> r.error == NoCombinationError)
    && (r.Ok? ==> exists q :: KeyOf(q) in KeysUpTo(cat, pcbList, k, |pcbList|) && r.value == GroupsDocument(cat, q))
  }

  /** The part of `call_list_parallel` after the list is prepared. */
  method SearchAndEmit(cat: Catalog, pcbList: seq<PcbId>) returns (r: Result<Objects.Json>)
    requires Complete(cat) && Known(cat, pcbList) && Distinct(pcbList) && pcbList != []
    ensures exists k :: IsFirstBound(cat, pcbList, |pcbList| - 1, |pcbList|, k) && Outcome(cat, pcbList, k, r)
    ensures |pcbList| == 1 ==> r == Err(NoCombinationError)
  {
    var minGroup, best := Search(cat, pcbList);
    r := EmitFirst(cat, best);
    OutcomeOfBest(cat, pcbList, minGroup, best, r);
    if |pcbList| == 1 {
      SinglePcbRecordsNothing(cat, pcbList, minGroup);
    }
  }

  /** `find_first_combination(len(pcb_list) - 1, ...)` and then `main` with that bound. */
  method Search(cat: Catalog, pcbList: seq<PcbId>) returns (minGroup: nat, best: seq<Key>)
    requires Complete(cat) && Known(cat, pcbList) && Distinct(pcbList) && pcbList != []
    ensures IsFirstBound(cat, pcbList, |pcbList| - 1, |pcbList|, minGroup)
    ensures Distinct(best) && Elements(best) == KeysUpTo(cat, pcbList, minGroup, |pcbList|)
  {
    minGroup := FindFirstCombination(cat, pcbList, |pcbList| - 1, |pcbList|);
    best := MainSearch(cat, pcbList, minGroup);
  }

  /** `best_combinations[0]` listed and emitted, or IndexError for an empty list. */
  method EmitFirst(cat: Catalog, best: seq<Key>) returns (r: Result<Objects.Json>)
    ensures r.Err? <==> best == []
    ensures r.Err? ==> r.error == NoCombinationError
    ensures r.Ok? ==> exists q :: KeyOf(q) == best[0] && r.value == GroupsDocument(cat, q)
  {
    if |best| == 0 {
      r := Err(NoCombinationError);
    } else {
      var q := ListKey(best[0]);
      var doc := EmitGroups(cat, q);
      r := Ok(doc);
    }
  }

  lemma OutcomeOfBest(cat: Catalog, pcbList: seq<PcbId>, k: nat, best: seq<Key>, r: Result<Objects.Json>)
    requires Complete(cat) && Known(cat, pcbList)
    requires Elements(best) == KeysUpTo(cat, pcbList, k, |pcbList|)
    requires r.Err? <==> best == []
    requires r.Err? ==> r.error == NoCombinationError
    requires r.Ok? ==> exists q :: KeyOf(q) == best[0] && r.value == GroupsDocument(cat, q)
    ensures Outcome(cat, pcbList, k, r)
  {
    if best != [] {
      assert best[0] in Elements(best);
    }
  }

  /** With a single PCB, `find_permute` finds no pair, so nothing is recorded. */
  lemma SinglePcbRecordsNothing(cat: Catalog, pcbList: seq<PcbId>, minGp: nat)
    requires Complete(cat) && Known(cat, pcbList) && |pcbList| == 1
    ensures KeysUpTo(cat, pcbList, minGp, |pcbList|) == {}
  {
    PairsOfShape(cat, pcbList[0..]);
  }

  /** `call_list_parallel` with the empty case handled: when the seed-pair
      search records nothing, the first partition of the bound search is
      emitted instead of indexing an empty list. */
  method CallListParallelChecked(ns: seq<int>, data: Serial.Dataset) returns (r: Result<Objects.Json>)
    requires Serial.DatasetReady(data, ns)
    ensures |ns| == 0 ==> r == Err(EmptyInputError)
    ensures |ns| > 0 && !Serial.InRange(ns) ==> r == Err(RangeError)
    ensures |ns| > 0 && Serial.InRange(ns) ==>
      var (cat, pcbList) := Prepared(data, ns);
      r.Ok? && exists k :: IsFirstBound(cat, pcbList, |pcbList| - 1, |pcbList|, k) && CheckedOutcome(cat, pcbList, k, r.value)
  {
    if |ns| == 0 {
      return Err(EmptyInputError);
    }
    if !Serial.InRange(ns) {
      return Err(RangeError);
    }
    var (cat, pcbList) := Prepared(data, ns);
    assert |multiset(pcbList)| == |multiset(Serial.RequestNames(ns))|;
    var doc := SearchAndEmitChecked(cat, pcbList);
    r := Ok(doc);
  }

  /** The corrected outcome: the groups of a recorded key or, when nothing was
      recorded, those of the first partition of the bound-k search. */
  ghost predicate CheckedOutcome(cat: Catalog, pcbList: seq<PcbId>, k: nat, doc: Objects.Json)
    requires Complete(cat) && Known(cat, pcbList)
  {
    exists q :: doc == GroupsDocument(cat, q) &&
      (KeyOf(q) in KeysUpTo(cat, pcbList, k, |pcbList|) ||
       (KeysUpTo(cat, pcbList, k, |pcbList|) == {} && q == FirstPartition(cat, pcbList, k)))
  }

  method SearchAndEmitChecked(cat: Catalog, pcbList: seq<PcbId>) returns (doc: Objects.Json)
    requires Complete(cat) && Known(cat, pcbList) && Distinct(pcbList) && pcbList != []
    ensures exists k :: IsFirstBound(cat, pcbList, |pcbList| - 1, |pcbList|, k) && CheckedOutcome(cat, pcbList, k, doc)
  {
    var minGroup := FindFirstCombination(cat, pcbList, |pcbList| - 1, |pcbList|);
    var best := MainSearch(cat, pcbList, minGroup);
    var q;
    if |best| == 0 {
      ParallelBound(cat, pcbList, minGroup);
      q := Generate(cat, pcbList, [], AtMost(minGroup), false).found[0];
    } else {
      assert best[0] in Elements(best);
      q := ListKey(best[0]);
    }
    doc := EmitGroups(cat, q);
    assert CheckedOutcome(cat, pcbList, minGroup, doc);
  }

  /** The first partition the bound-k search yields (an empty one when it yields nothing). */
  function FirstPartition(cat: Catalog, pcbList: seq<PcbId>, k: nat): Partition
    requires Complete(cat) && Known(cat, pcbList)
  {
    var found := Generate(cat, pcbList, [], AtMost(k), false).found;
    if found == [] then [] else found[0]
  }

  /** What the two versions emit, as partitions: a recorded key is that of a
      partition of the PCBs into exactly k valid groups; the fallback is a
      partition of the PCBs into at most k valid groups. */
  lemma ParallelGroupsArePartitions(cat: Catalog, pcbList: seq<PcbId>, k: nat, q: Partition)
    requires Complete(cat) && Known(cat, pcbList) && Distinct(pcbList) && pcbList != []
    requires IsFirstBound(cat, pcbList, |pcbList| - 1, |pcbList|, k)
    requires KeyOf(q) in KeysUpTo(cat, pcbList, k, |pcbList|) || q == FirstPartition(cat, pcbList, k)
    ensures exists q0 :: IsPartitionOf(cat, q0, pcbList) && 0 < |q0| <= k && KeyOf(q0) == KeyOf(q)
  {
    if KeyOf(q) in KeysUpTo(cat, pcbList, k, |pcbList|) {
      MainKeysArePartitions(cat, pcbList, k, |pcbList|, KeyOf(q));
      var i, pair, q0 :| 0 <= i < |pcbList| && SeedPartition(cat, pcbList, pair, i, k, q0)
        && |pair| == 2 && pair[0] == pcbList[i] && KeyOf(q0) == KeyOf(q);
    } else {
      ParallelBound(cat, pcbList, k);
      SuccessIsWitnessed(cat, pcbList, k);
    }
  }
}

/** The `__main__` script of Algorithms/BruteForce/BruteForcing_Parallel.py:
    PCBs 1..number_of_data, heaviest first, the bound finder over
    k = 1..number_of_data-1 starting from `number_of_data`, then `main`. */
module ParallelScript {
  import opened Common
  import opened Grouping
  import opened BoundFinder
  import opened SeedSearch
  import Serial
  import Parallel

  const DataCountError: string := "AssertionError: Error: number_of_data must be between 1 and 50."

  datatype ScriptResult = ScriptResult(minGroup: nat, best: seq<Key>)

  /** The PCBs the script loads: `PCB001` .. `PCB<number_of_data>`. */
  function ScriptNumbers(n: nat): (ns: seq<int>)
    ensures |ns| == n && forall k :: 0 <= k < n ==> ns[k] == k + 1
  {
    seq(n, k => k + 1)
  }

  /** The script's computation for `number_of_data`. */
  method BruteForceScript(numberOfData: int, data: Serial.Dataset) returns (r: Result<ScriptResult>)
    requires 1 <= numberOfData <= 50 ==> Serial.DatasetReady(data, ScriptNumbers(numberOfData))
    ensures !(1 <= numberOfData <= 50) ==> r == Err(DataCountError)
    ensures 1 <= numberOfData <= 50 ==>
      var (cat, pcbList) := Parallel.Prepared(data, ScriptNumbers(numberOfData));
      && |pcbList| == numberOfData
      && r.Ok?
      && IsFirstBound(cat, pcbList, numberOfData - 1, numberOfData, r.value.minGroup)
      && Distinct(r.value.best)
      && Elements(r.value.best) == KeysUpTo(cat, pcbList, r.value.minGroup, numberOfData)
  {
    if !(1 <= numberOfData <= 50) {
      return Err(DataCountError);
    }
    var ns := ScriptNumbers(numberOfData);
    var (cat, pcbList) := Parallel.Prepared(data, ns);
    ScriptNamesDistinct(numberOfData);
    assert |multiset(pcbList)| == |multiset(Serial.RequestNames(ns))|;
    var minGroup := FindFirstCombination(cat, pcbList, numberOfData - 1, numberOfData);
    var best := MainSearch(cat, pcbList, minGroup);
    r := Ok(ScriptResult(minGroup, best));
  }

  /** The script's PCB names are pairwise different, so the dictionary keeps all
      `number_of_data` of them. */
  lemma ScriptNamesDistinct(n: nat)
    requires 1 <= n <= 50
    ensures |Serial.RequestNames(ScriptNumbers(n))| == n
  {
    var ns := ScriptNumbers(n);
    var raw := seq(|ns|, k requires 0 <= k < |ns| => PcbName(ns[k]));
    forall i, j | 0 <= i < j < |raw| ensures raw[i] != raw[j] {
      if raw[i] == raw[j] {
        PcbNameInjective(i + 1, j + 1);
      }
    }
    DedupOfDistinct(raw);
  }

  /** Keying a dictionary by names that are already pairwise different keeps them all. */
  lemma {:induction false} DedupOfDistinct(names: seq<PcbId>)
    requires Distinct(names)
    ensures Dedup(names) == names
  {
    if names != [] {
      var init := names[..|names| - 1];
      DedupOfDistinct(init);
      assert names[|names| - 1] !in init;
      assert init + [names[|names| - 1]] == names;
    }
  }
}
