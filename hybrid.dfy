/** `call_list_hybrid` of algorithms/bruteforce/hybrid.py: the bound finder over
    k = 1..len, then one bound-k search whose first partition is written out
    with, for each group, its PCBs and the set of materials they need. */
module Hybrid {
  import opened Common
  import opened Grouping
  import opened Enumerator
  import opened EnumeratorFacts
  import opened BoundFinder
  import opened SeedSearch
  import Objects
  import Serial
  import Parallel

  /** The materials the PCBs of `g` that are in the dict need, as a set. */
  function GroupMaterials(cat: Catalog, g: Group): set<MaterialId>
  {
    if g == [] then {}
    else
      var last := g[|g| - 1];
      GroupMaterials(cat, g[..|g| - 1]) + (if last in cat.materials then Elements(cat.materials[last]) else {})
  }

  /** A material is in the set exactly when some member of the group in the
      dict lists it. */
  lemma {:induction false} GroupMaterialsMembers(cat: Catalog, g: Group)
    ensures forall m :: m in GroupMaterials(cat, g) <==>
      exists p :: p in g && p in cat.materials && m in cat.materials[p]
  {
    if g != [] {
      var init := g[..|g| - 1];
      var last := g[|g| - 1];
      GroupMaterialsMembers(cat, init);
      assert forall p :: p in g <==> p in init || p == last;
    }
  }

  /** One entry of the "groups" list: `group_id`, the PCBs present in the dict
      and `list(group_materials)`, the material set in some order. */
  ghost predicate GroupEntry(cat: Catalog, g: Group, id: int, entry: Objects.Json)
  {
    exists ms: seq<MaterialId> :: Distinct(ms) && Elements(ms) == GroupMaterials(cat, g) &&
      entry == Objects.JObj([("group_id", Objects.JInt(id)),
                             ("PCBs", Objects.JArr(Objects.StringsToJson(Serial.Present(cat, g)))),
                             ("materials", Objects.JArr(Objects.StringsToJson(ms)))])
  }

  /** `{"groups": [...]}` with one entry per group of `p`, numbered from 1 in order. */
  ghost predicate HybridDocument(cat: Catalog, p: Partition, doc: Objects.Json)
  {
    exists items: seq<Objects.Json> :: |items| == |p| && doc == Objects.JObj([("groups", Objects.JArr(items))]) &&
      forall j :: 0 <= j < |p| ==> GroupEntry(cat, p[j], j + 1, items[j])
  }

  /** The inner loop of the JSON construction for one group. */
  method GroupJson(cat: Catalog, g: Group, id: int) returns (entry: Objects.Json)
    ensures GroupEntry(cat, g, id, entry)
  {
    var groupPcbs: seq<PcbId> := [];
    var groupMaterials: set<MaterialId> := {};
    for t := 0 to |g|
      invariant groupPcbs == Serial.Present(cat, g[..t])
      invariant groupMaterials == GroupMaterials(cat, g[..t])
    {
      assert g[..t + 1][..t] == g[..t];
      if g[t] in cat.materials {
        groupPcbs := groupPcbs + [g[t]];
        groupMaterials := groupMaterials + Elements(cat.materials[g[t]]);
      }
    }
    assert g[..|g|] == g;
    var ms := SetToSeq(groupMaterials);
    entry := Objects.JObj([("group_id", Objects.JInt(id)),
                           ("PCBs", Objects.JArr(Objects.StringsToJson(groupPcbs))),
                           ("materials", Objects.JArr(Objects.StringsToJson(ms)))]);
  }

  /** `json_data` for the partition `p`: the loop over its groups. */
  method HybridJson(cat: Catalog, p: Partition) returns (doc: Objects.Json)
    ensures HybridDocument(cat, p, doc)
  {
    var items: seq<Objects.Json> := [];
    for j := 0 to |p|
      invariant |items| == j && forall t :: 0 <= t < j ==> GroupEntry(cat, p[t], t + 1, items[t])
    {
      var entry := GroupJson(cat, p[j], j + 1);
      items := items + [entry];
    }
    doc := Objects.JObj([("groups", Objects.JArr(items))]);
  }

  /** The search of phase 2: all partitions the bound-k search yields, in order. */
  function PhaseTwo(cat: Catalog, pcbList: seq<PcbId>, k: nat): seq<Partition>
    requires Complete(cat) && Known(cat, pcbList)
  {
    Generate(cat, pcbList, [], AtMost(k), false).found
  }

  /** What `call_list_hybrid` writes once the bound is k: the first partition of
      phase 2, which exists. */
  ghost predicate HybridOutcome(cat: Catalog, pcbList: seq<PcbId>, k: nat, doc: Objects.Json)
    requires Complete(cat) && Known(cat, pcbList)
  {
    PhaseTwo(cat, pcbList, k) != [] && HybridDocument(cat, PhaseTwo(cat, pcbList, k)[0], doc)
  }

  /** `call_list_hybrid`: the assertions on the input, the heaviest-first list,
      the bound over k = 1..len, phase 2 and the document of its first partition.
      Unlike `call_list_parallel`, it never indexes an empty list. */
  method CallListHybrid(ns: seq<int>, data: Serial.Dataset) returns (r: Result<Objects.Json>)
    requires Serial.DatasetReady(data, ns)
    ensures |ns| == 0 ==> r == Err(Parallel.EmptyInputError)
    ensures |ns| > 0 && !Serial.InRange(ns) ==> r == Err(Parallel.RangeError)
    ensures |ns| > 0 && Serial.InRange(ns) ==>
      var (cat, pcbList) := Parallel.Prepared(data, ns);
      r.Ok? && exists k :: IsFirstBound(cat, pcbList, |pcbList|, |pcbList|, k) && HybridOutcome(cat, pcbList, k, r.value)
  {
    if |ns| == 0 {
      return Err(Parallel.EmptyInputError);
    }
    if !Serial.InRange(ns) {
      return Err(Parallel.RangeError);
    }
    var (cat, pcbList) := Parallel.Prepared(data, ns);
    assert |multiset(pcbList)| == |multiset(Serial.RequestNames(ns))|;
    var doc := SearchAndWrite(cat, pcbList);
    r := Ok(doc);
  }

  /** The part of `call_list_hybrid` after the list is prepared. */
  method SearchAndWrite(cat: Catalog, pcbList: seq<PcbId>) returns (doc: Objects.Json)
    requires Complete(cat) && Known(cat, pcbList) && pcbList != []
    ensures exists k :: IsFirstBound(cat, pcbList, |pcbList|, |pcbList|, k) && HybridOutcome(cat, pcbList, k, doc)
  {
    var minGroup := FindFirstCombination(cat, pcbList, |pcbList|, |pcbList|);
    HybridBound(cat, pcbList, minGroup);
    var bestCombinations := PhaseTwo(cat, pcbList, minGroup);
    doc := HybridJson(cat, bestCombinations[0]);
  }

  /** Phase 2 keeps every partition the bound-k search yields, whatever its
      length: each splits the PCB list into valid groups, at most k of them. The
      one written out is the first, which exists and has exactly k groups, k is
      the smallest bound in 1..len whose search succeeds, and no valid partition
      of the PCBs has fewer groups than the one written out. */
  lemma HybridResult(cat: Catalog, pcbList: seq<PcbId>, k: nat)
    requires Complete(cat) && Known(cat, pcbList) && pcbList != []
    requires IsFirstBound(cat, pcbList, |pcbList|, |pcbList|, k)
    ensures forall p :: p in PhaseTwo(cat, pcbList, k) ==> IsPartitionOf(cat, p, pcbList) && |p| <= k
    ensures PhaseTwo(cat, pcbList, k) != []
    ensures var p := PhaseTwo(cat, pcbList, k)[0];
      IsPartitionOf(cat, p, pcbList) && 1 <= |p| == k <= |pcbList|
    ensures forall j :: 1 <= j < k ==> !Succeeds(cat, pcbList, j)
    ensures forall q :: IsPartitionOf(cat, q, pcbList) ==> |PhaseTwo(cat, pcbList, k)[0]| <= |q|
  {
    HybridBound(cat, pcbList, k);
    SuccessIsWitnessed(cat, pcbList, k);
    SearchYieldsPartitions(cat, pcbList, AtMost(k), false);
    YieldsWithinBound(cat, pcbList, [], AtMost(k), false);
  }
}
