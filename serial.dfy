/** The serial strategy: run the enumerator once over the whole PCB list and
    keep every partition of minimal length (`call_list`), then shape the result
    as JSON (`create_json_data`). */
module Serial {
  import opened Common
  import opened Grouping
  import opened Enumerator
  import opened EnumeratorFacts
  import opened EnumeratorComplete
  import Objects

  // ---------------------------------------------------------------------------
  // Minimal-length selection.

  /** The fewest groups any of the partitions has. */
  function MinLength(ys: seq<Partition>): (m: nat)
    requires ys != []
  {
    if |ys| == 1 then |ys[0]|
    else
      var m := MinLength(ys[..|ys| - 1]);
      var last := |ys[|ys| - 1]|;
      if last < m then last else m
  }

  /** The partitions of `ys` with exactly `n` groups, in yield order. */
  function Keep(ys: seq<Partition>, n: nat): (r: seq<Partition>)
    ensures |r| <= |ys|
  {
    if ys == [] then []
    else Keep(ys[..|ys| - 1], n) + (if |ys[|ys| - 1]| == n then [ys[|ys| - 1]] else [])
  }

  /** No partition is shorter than `MinLength`, and some partition has that length. */
  lemma {:induction false} MinLengthIsLeast(ys: seq<Partition>)
    requires ys != []
    ensures forall q :: q in ys ==> MinLength(ys) <= |q|
    ensures exists q :: q in ys && |q| == MinLength(ys)
    decreases |ys|
  {
    if |ys| > 1 {
      var init := ys[..|ys| - 1];
      MinLengthIsLeast(init);
      assert ys == init + [ys[|ys| - 1]];
    } else {
      assert ys[0] in ys;
    }
  }

  /** `Keep` is exactly the partitions of `ys` that have `n` groups. */
  lemma {:induction false} KeepMembers(ys: seq<Partition>, n: nat)
    ensures forall p :: p in Keep(ys, n) <==> p in ys && |p| == n
    decreases |ys|
  {
    if ys != [] {
      var init := ys[..|ys| - 1];
      KeepMembers(init, n);
      assert ys == init + [ys[|ys| - 1]];
    }
  }

  lemma {:induction false} KeepNone(ys: seq<Partition>, n: nat)
    requires forall q :: q in ys ==> |q| > n
    ensures Keep(ys, n) == []
    decreases |ys|
  {
    if ys != [] {
      assert ys[|ys| - 1] in ys;
      assert forall q :: q in ys[..|ys| - 1] ==> q in ys;
      KeepNone(ys[..|ys| - 1], n);
    }
  }

  /** What `call_list` keeps: every partition it keeps has the minimal length,
      none it saw was shorter, every partition of that length is kept, and the
      result is empty only when nothing was yielded. */
  lemma MinimalSelection(ys: seq<Partition>)
    requires ys != []
    ensures var best := Keep(ys, MinLength(ys));
      && best != []
      && (forall p :: p in best ==> |p| == MinLength(ys))
      && (forall q :: q in ys ==> MinLength(ys) <= |q|)
      && (forall q :: q in ys && |q| == MinLength(ys) ==> q in best)
  {
    MinLengthIsLeast(ys);
    KeepMembers(ys, MinLength(ys));
  }

  /** The loop of `call_list` over the yielded partitions: a strictly shorter one
      clears the list, one of the current minimal length is appended. */
  method SelectMinimal(combos: seq<Partition>) returns (best: seq<Partition>)
    ensures combos == [] ==> best == []
    ensures combos != [] ==> best == Keep(combos, MinLength(combos))
  {
    best := [];
    var shortest: Option<nat> := None;
    for i := 0 to |combos|
      invariant i == 0 ==> shortest == None && best == []
      invariant i > 0 ==> shortest == Some(MinLength(combos[..i])) && best == Keep(combos[..i], MinLength(combos[..i]))
    {
      var combination := combos[i];
      assert combos[..i + 1][..i] == combos[..i];
      if shortest.None? || |combination| < shortest.value {
        if i > 0 {
          MinLengthIsLeast(combos[..i]);
          KeepNone(combos[..i], |combination|);
        }
        shortest := Some(|combination|);
        best := [];
      }
      if |combination| == shortest.value {
        best := best + [combination];
      }
    }
    assert combos[..|combos|] == combos;
  }

  /** The loop of `call` as written: the `append` sits after the loop, so only
      the LAST partition can be kept, and only when it has the minimal length.
      With nothing yielded, the loop variable is unbound (UnboundLocalError). */
  method CallSelect(combos: seq<Partition>) returns (r: Result<seq<Partition>>)
    ensures combos == [] ==> r.Err?
    ensures combos != [] ==>
      r.Ok? && r.value == (if |combos[|combos| - 1]| == MinLength(combos) then [combos[|combos| - 1]] else [])
  {
    if |combos| == 0 {
      return Err("UnboundLocalError: combination");
    }
    var best: seq<Partition> := [];
    var shortest: Option<nat> := None;
    for i := 0 to |combos|
      invariant best == []
      invariant i == 0 ==> shortest == None
      invariant i > 0 ==> shortest == Some(MinLength(combos[..i]))
    {
      assert combos[..i + 1][..i] == combos[..i];
      if shortest.None? || |combos[i]| < shortest.value {
        shortest := Some(|combos[i]|);
        best := [];
      }
    }
    assert combos[..|combos|] == combos;
    var combination := combos[|combos| - 1];
    if |combination| == shortest.value {
      best := best + [combination];
    }
    return Ok(best);
  }

  // ---------------------------------------------------------------------------
  // A concrete search that yields two partitions of minimal length.

  /** PCB001 needs a 2-wide material, PCB002 and PCB003 an 8-wide one each; C_max is 15, as in `call`. */
  function TieCatalog(): Catalog
  {
    Catalog(map["PCB001" := ["x"], "PCB002" := ["y"], "PCB003" := ["z"]],
            map["x" := 2, "y" := 8, "z" := 8], CMax)
  }

  lemma TieWidths()
    ensures Complete(TieCatalog())
    ensures !ValidGroup(TieCatalog(), ["PCB002", "PCB003"])
    ensures ValidGroup(TieCatalog(), ["PCB002", "PCB001"])
    ensures ValidGroup(TieCatalog(), ["PCB003", "PCB001"])
  {
    var cat := TieCatalog();
    PairWidth(cat, "PCB002", "PCB003");
    PairWidth(cat, "PCB002", "PCB001");
    PairWidth(cat, "PCB003", "PCB001");
  }

  /** Two PCBs that need one material each, different ones, occupy both widths. */
  lemma PairWidth(cat: Catalog, a: PcbId, b: PcbId)
    requires Complete(cat) && a in cat.materials && b in cat.materials
    requires |cat.materials[a]| == 1 && |cat.materials[b]| == 1
    requires cat.materials[a][0] != cat.materials[b][0]
    ensures GroupWidth(cat, [a, b]) == cat.widths[cat.materials[a][0]] + cat.widths[cat.materials[b][0]]
  {
    var x, y := cat.materials[a][0], cat.materials[b][0];
    assert [a, b][..1] == [a] && [a][..0] == [];
    assert MaterialList(cat, [a]) == [x];
    assert MaterialList(cat, [a, b]) == [x, y];
    assert [x, y][..1] == [x] && [x][..0] == [];
    assert DistinctWidth(cat.widths, [x]) == cat.widths[x];
  }

  /** The pattern behind the tie: `a` and `b` do not fit together, `c` fits
      with either. */
  predicate TiePattern(cat: Catalog, a: PcbId, b: PcbId, c: PcbId)
    requires Complete(cat)
  {
    && a in cat.materials && b in cat.materials && c in cat.materials
    && !ValidGroup(cat, [a, b]) && ValidGroup(cat, [a, c]) && ValidGroup(cat, [b, c])
  }

  /** The last level: `c` joins either group; the first partition lowers the bound to 2. */
  lemma TieLastLevel(cat: Catalog, a: PcbId, b: PcbId, c: PcbId)
    requires Complete(cat) && TiePattern(cat, a, b, c)
    ensures Generate(cat, [c], [[a], [b]], Unbounded, true) == Run([[[a, c], [b]], [[a], [b, c]]], AtMost(2))
  {
    var g := [[a], [b]];
    var p1, p2 := [[a, c], [b]], [[a], [b, c]];
    assert [c][1..] == [];
    assert [a] + [c] == [a, c] && [b] + [c] == [b, c];
    assert g[0 := g[0] + [c]] == p1;
    assert g[1 := g[1] + [c]] == p2;
    var right := Generate(cat, [], p2, AtMost(2), true);
    assert right == Run([p2], AtMost(2));
    assert Extend(cat, [c], g, 2, AtMost(2), true) == Run([], AtMost(2));
    assert Extend(cat, [c], g, 1, AtMost(2), true) == right;
    var left := Generate(cat, [], p1, Unbounded, true);
    assert left == Run([p1], AtMost(2));
    assert Extend(cat, [c], g, 0, Unbounded, true) == Run([p1, p2], AtMost(2));
  }

  /** At the middle level `b` joins no existing group: `[a, b]` is too wide. */
  lemma TieMiddleExtend(cat: Catalog, a: PcbId, b: PcbId, c: PcbId)
    requires Complete(cat) && TiePattern(cat, a, b, c)
    ensures Extend(cat, [b, c], [[a]], 0, Unbounded, true) == Run([], Unbounded)
  {
    var g1 := [[a]];
    assert [a] + [b] == [a, b];
    assert g1[0 := g1[0] + [b]] == [[a, b]];
    assert Extend(cat, [b, c], g1, 1, Unbounded, true) == Run([], Unbounded);
  }

  /** The middle level: `b` cannot join `a`, so it opens the second group. */
  lemma TieMiddleLevel(cat: Catalog, a: PcbId, b: PcbId, c: PcbId)
    requires Complete(cat) && TiePattern(cat, a, b, c)
    ensures Generate(cat, [b, c], [[a]], Unbounded, true) == Run([[[a, c], [b]], [[a], [b, c]]], AtMost(2))
  {
    TieLastLevel(cat, a, b, c);
    TieMiddleExtend(cat, a, b, c);
    assert [b, c][1..] == [c];
    assert [[a]] + [[b]] == [[a], [b]];
    var sub := Generate(cat, [c], [[a], [b]], Unbounded, true);
    assert [] + sub.found == sub.found;
  }

  /** The whole search on `[a, b, c]` yields exactly the two two-group partitions. */
  lemma TieShape(cat: Catalog, a: PcbId, b: PcbId, c: PcbId)
    requires Complete(cat) && TiePattern(cat, a, b, c)
    ensures Generate(cat, [a, b, c], [], Unbounded, false).found == [[[a, c], [b]], [[a], [b, c]]]
  {
    TieMiddleLevel(cat, a, b, c);
    assert [a, b, c][1..] == [b, c];
    assert [] + [[a]] == [[a]];
    assert Extend(cat, [a, b, c], [], 0, Unbounded, false) == Run([], Unbounded);
  }

  /** Heaviest first (stable), the input is PCB002, PCB003, PCB001: PCB001 fits with
      either heavy PCB, the heavy ones do not fit together. The search yields
      both two-group partitions. */
  lemma TieSearch()
    ensures Complete(TieCatalog()) && Known(TieCatalog(), ["PCB002", "PCB003", "PCB001"])
    ensures Generate(TieCatalog(), ["PCB002", "PCB003", "PCB001"], [], Unbounded, false).found
         == [[["PCB002", "PCB001"], ["PCB003"]], [["PCB002"], ["PCB003", "PCB001"]]]
  {
    TieWidths();
    TieShape(TieCatalog(), "PCB002", "PCB003", "PCB001");
  }

  /** `call` loses a tie: for the search above `call_list` keeps both minimal
      partitions while `call` keeps only the last one. */
  lemma CallLosesTies()
    ensures var ys := Generate(TieCatalog(), ["PCB002", "PCB003", "PCB001"], [], Unbounded, false).found;
      && ys != []
      && |Keep(ys, MinLength(ys))| == 2
      && (if |ys[|ys| - 1]| == MinLength(ys) then [ys[|ys| - 1]] else []) == [ys[1]]
  {
    TieSearch();
    var ys := Generate(TieCatalog(), ["PCB002", "PCB003", "PCB001"], [], Unbounded, false).found;
    assert MinLength(ys) == 2 by { assert ys[..1] == [ys[0]]; }
    assert Keep(ys, 2) == ys by {
      assert ys[..1] == [ys[0]];
      assert [ys[0]][..0] == [];
    }
  }

  // ---------------------------------------------------------------------------
  // The shared default bound.

  /** Two PCBs that fit together: the first search ends with the default cell at 1. */
  lemma CompatiblePairLowersDefault(cat: Catalog, a: PcbId, b: PcbId)
    requires Complete(cat) && a in cat.materials && b in cat.materials && ValidGroup(cat, [a, b])
    ensures Generate(cat, [a, b], [], Unbounded, false) == Run([[[a, b]]], AtMost(1))
  {
    assert [a, b][1..] == [b] && [b][1..] == [];
    assert [] + [[a]] == [[a]];
    assert [a] + [b] == [a, b];
    assert [[a]][0 := [a] + [b]] == [[a, b]];
    assert Generate(cat, [], [[a, b]], Unbounded, true) == Run([[[a, b]]], AtMost(1));
    assert Extend(cat, [b], [[a]], 1, AtMost(1), true) == Run([], AtMost(1));
    assert Extend(cat, [b], [[a]], 0, Unbounded, true) == Run([[[a, b]]], AtMost(1));
    assert Extend(cat, [a, b], [], 0, Unbounded, false) == Run([], Unbounded);
  }

  /** Two PCBs that do not fit together, searched with a cell left at 1: nothing
      is yielded and the cell stays at 1. */
  lemma StaleDefaultYieldsNothing(cat: Catalog, c: PcbId, a: PcbId)
    requires Complete(cat) && c in cat.materials && a in cat.materials && !ValidGroup(cat, [c, a])
    ensures Generate(cat, [c, a], [], AtMost(1), false) == Run([], AtMost(1))
  {
    assert [c, a][1..] == [a];
    assert [] + [[c]] == [[c]];
    assert [c] + [a] == [c, a];
    assert [[c]][0 := [c] + [a]] == [[c, a]];
    assert Extend(cat, [a], [[c]], 1, AtMost(1), true) == Run([], AtMost(1));
    assert Extend(cat, [a], [[c]], 0, AtMost(1), true) == Run([], AtMost(1));
    assert Extend(cat, [c, a], [], 0, AtMost(1), false) == Run([], AtMost(1));
  }

  /** PCB001 and PCB002 need a 5-wide material each, PCB003 a 12-wide one; C_max is 15. */
  function StaleCatalog(): Catalog
  {
    Catalog(map["PCB001" := ["x"], "PCB002" := ["y"], "PCB003" := ["z"]],
            map["x" := 5, "y" := 5, "z" := 12], 15)
  }

  /** `call_list([1, 2])` followed by `call_list([3, 1])` in one process: the
      first run leaves the default `min_groups` at 1, the second run (on the
      heaviest-first list PCB003, PCB001) yields nothing and leaves the cell at
      1, so every pass of `while len(best_combinations) == 0` starts from the
      same state and the loop never ends. */
  lemma StaleDefaultStalls()
    ensures Complete(StaleCatalog())
    ensures Known(StaleCatalog(), ["PCB001", "PCB002"]) && Known(StaleCatalog(), ["PCB003", "PCB001"])
    ensures var first := Generate(StaleCatalog(), ["PCB001", "PCB002"], [], Unbounded, false);
      var second := Generate(StaleCatalog(), ["PCB003", "PCB001"], [], first.bound, false);
      first.found != [] && second.found == [] && second.bound == first.bound
  {
    var cat := StaleCatalog();
    PairWidth(cat, "PCB001", "PCB002");
    PairWidth(cat, "PCB003", "PCB001");
    CompatiblePairLowersDefault(cat, "PCB001", "PCB002");
    StaleDefaultYieldsNothing(cat, "PCB003", "PCB001");
  }

  /** With a fresh, unbounded cell every search yields at least one partition,
      so the `while` loop of `call_list` runs its body exactly once. */
  lemma FreshBoundAlwaysYields(cat: Catalog, pcbs: seq<PcbId>)
    requires Complete(cat) && Known(cat, pcbs)
    ensures Generate(cat, pcbs, [], Unbounded, false).found != []
  {
    GenerateNonEmpty(cat, pcbs, [], Unbounded, false);
  }

  // ---------------------------------------------------------------------------
  // `create_json_data`.

  /** The PCBs of a group that are keys of the PCB dict, in order. */
  function Present(cat: Catalog, g: Group): (r: seq<PcbId>)
    ensures forall x :: x in r <==> x in g && x in cat.materials
  {
    if g == [] then []
    else
      var init := Present(cat, g[..|g| - 1]);
      var last := g[|g| - 1];
      assert forall x :: x in g <==> x in g[..|g| - 1] || x == last;
      if last in cat.materials then init + [last] else init
  }

  /** Every PCB of a searched partition is in the dict, so nothing is dropped. */
  lemma {:induction false} PresentKeepsKnown(cat: Catalog, g: Group)
    requires Known(cat, g)
    ensures Present(cat, g) == g
    decreases |g|
  {
    if g != [] {
      PresentKeepsKnown(cat, g[..|g| - 1]);
      assert g == g[..|g| - 1] + [g[|g| - 1]];
    }
  }

  /** The record of one partition: its groups, each listing its present PCBs by name. */
  function ToRecord(cat: Catalog, p: Partition): (r: Objects.Combination)
    ensures |r.groups| == |p|
    ensures forall k :: 0 <= k < |p| ==> r.groups[k] == Objects.Group(Objects.PcbsNamed(Present(cat, p[k])))
  {
    Objects.Combination(seq(|p|, k requires 0 <= k < |p| => Objects.Group(Objects.PcbsNamed(Present(cat, p[k])))))
  }

  function ToRecords(cat: Catalog, best: seq<Partition>): (r: seq<Objects.Combination>)
    ensures |r| == |best| && forall k :: 0 <= k < |best| ==> r[k] == ToRecord(cat, best[k])
  {
    seq(|best|, k requires 0 <= k < |best| => ToRecord(cat, best[k]))
  }

  /** The document `create_json_data` builds: always the "combinations" list,
      numbered from 1, even for a single combination. */
  function CombinationsDocument(cat: Catalog, best: seq<Partition>): Objects.Json
  {
    Objects.JObj([("combinations", Objects.JArr(Objects.NumberedCombinations(ToRecords(cat, best), 1)))])
  }

  lemma NamesOfNamed(names: seq<string>)
    ensures Objects.Names(Objects.PcbsNamed(names)) == names
  {
  }

  /** `create_json_data`: for each combination (numbered from 1) and each of its
      groups (numbered from 1), the PCBs found in the dict. */
  method CreateJsonData(best: seq<Partition>, cat: Catalog) returns (doc: Objects.Json)
    ensures doc == CombinationsDocument(cat, best)
  {
    ghost var all := Objects.NumberedCombinations(ToRecords(cat, best), 1);
    var combinations: seq<Objects.Json> := [];
    for c := 0 to |best|
      invariant combinations == all[..c]
    {
      var grouping := GroupingJson(cat, best[c]);
      assert all[c] == Objects.CombinationToJson(ToRecords(cat, best)[c], Some(1 + c));
      combinations := combinations + [Objects.JObj([(Objects.CombinationKey(c + 1), Objects.JArr(grouping))])];
      assert all[..c + 1] == all[..c] + [all[c]];
    }
    assert combinations == all;
    doc := Objects.JObj([("combinations", Objects.JArr(combinations))]);
  }

  /** The group list of one combination: `{"group_id": g, "PCBs": [...]}` for g = 1, 2, ... */
  method GroupingJson(cat: Catalog, combi: Partition) returns (grouping: seq<Objects.Json>)
    ensures grouping == Objects.NumberedGroups(ToRecord(cat, combi).groups)
  {
    ghost var groupsOut := Objects.NumberedGroups(ToRecord(cat, combi).groups);
    grouping := [];
    for g := 0 to |combi|
      invariant grouping == groupsOut[..g]
    {
      var groupPcbs := PresentPcbs(cat, combi[g]);
      NamesOfNamed(groupPcbs);
      grouping := grouping + [Objects.JObj([("group_id", Objects.JInt(g + 1)), ("PCBs", Objects.JArr(Objects.StringsToJson(groupPcbs)))])];
      assert groupsOut[..g + 1] == groupsOut[..g] + [groupsOut[g]];
    }
    assert groupsOut[..|combi|] == groupsOut;
  }

  /** The members of a group that are keys of the PCB dict, in order. */
  method PresentPcbs(cat: Catalog, group: Group) returns (groupPcbs: seq<PcbId>)
    ensures groupPcbs == Present(cat, group)
  {
    groupPcbs := [];
    for m := 0 to |group|
      invariant groupPcbs == Present(cat, group[..m])
    {
      assert group[..m + 1][..m] == group[..m];
      if group[m] in cat.materials {
        groupPcbs := groupPcbs + [group[m]];
      }
    }
    assert group[..|group|] == group;
  }

  /** The document decodes, through `Combinations.from_json`, to the selected
      partitions with their group name lists in order; with a number of
      combinations other than one it is exactly what `Combinations.to_json` writes. */
  lemma CombinationsDocumentDecodes(cat: Catalog, best: seq<Partition>)
    ensures Objects.CombinationsFromJson(CombinationsDocument(cat, best)) == Ok(Objects.Combinations(ToRecords(cat, best)))
    ensures |best| != 1 ==> CombinationsDocument(cat, best) == Objects.CombinationsToJson(Objects.Combinations(ToRecords(cat, best)))
  {
    var records := ToRecords(cat, best);
    Objects.CombinationListRoundTrip(records, 1);
    forall k | 0 <= k < |records| ensures Objects.CombinationNamesOnly(records[k]) == records[k] {
      var r := records[k];
      assert Objects.CombinationNamesOnly(r).groups == r.groups by {
        forall g | 0 <= g < |r.groups| ensures Objects.NamesOnly(r.groups[g]) == r.groups[g] {
          NamesOfNamed(Present(cat, best[k][g]));
        }
      }
    }
    assert Objects.AllNamesOnly(records) == records;
  }

  // ---------------------------------------------------------------------------
  // `call_list`.

  /** The argument of `call_list`: a bare PCB number or a list of them. */
  datatype Request = Number(n: int) | Numbers(ns: seq<int>)

  /** `if type(input_pcb_list) == type(1): input_pcb_list = [input_pcb_list]`. */
  function RequestNumbers(request: Request): (ns: seq<int>)
    ensures request.Number? ==> ns == [request.n]
    ensures request.Numbers? ==> ns == request.ns
  {
    match request
    case Number(n) => [n]
    case Numbers(ns) => ns
  }

  /** `C_max`, the slot capacity of the line. */
  const CMax: nat := 15

  /** The data set the strategies read: each PCB file's materials by PCB name,
      and the material catalogue's slot widths. */
  datatype Dataset = Dataset(files: map<PcbId, seq<MaterialId>>, widths: map<MaterialId, nat>)

  /** The file of every requested PCB number in 1..50 exists, and every
      material such a file lists is catalogued. */
  predicate DatasetReady(data: Dataset, ns: seq<int>)
  {
    forall k :: 0 <= k < |ns| && 1 <= ns[k] <= 50 ==>
      PcbName(ns[k]) in data.files && forall m :: m in data.files[PcbName(ns[k])] ==> m in data.widths
  }

  /** `min(ns) >= 1 and max(ns) <= 50`. */
  predicate InRange(ns: seq<int>)
  {
    forall k :: 0 <= k < |ns| ==> 1 <= ns[k] <= 50
  }

  /** The keys of `pcb_data_dict`: the names of the requested numbers, first occurrences only. */
  function RequestNames(ns: seq<int>): (names: seq<PcbId>)
  {
    Dedup(seq(|ns|, k requires 0 <= k < |ns| => PcbName(ns[k])))
  }

  /** `pcb_data_dict`, `material_catalogue_dict` and `C_max` for the requested PCBs. */
  function RequestCatalog(data: Dataset, names: seq<PcbId>): (cat: Catalog)
  {
    Catalog(map n | n in names && n in data.files :: data.files[n], data.widths, CMax)
  }

  lemma RequestCatalogReady(data: Dataset, ns: seq<int>)
    requires DatasetReady(data, ns) && InRange(ns)
    ensures var names := RequestNames(ns);
      Complete(RequestCatalog(data, names)) && Known(RequestCatalog(data, names), names)
  {
    var names := RequestNames(ns);
    forall x | x in names ensures x in data.files && forall m :: m in data.files[x] ==> m in data.widths {
      var k :| 0 <= k < |ns| && PcbName(ns[k]) == x;
    }
  }

  /** The partitions `call_list` keeps for a PCB list: those of minimal length
      among all the search yields, in yield order. */
  function Optimal(cat: Catalog, pcbs: seq<PcbId>): seq<Partition>
    requires Complete(cat) && Known(cat, pcbs)
  {
    var ys := Generate(cat, pcbs, [], Unbounded, false).found;
    if ys == [] then [] else Keep(ys, MinLength(ys))
  }

  /** What `call_list` returns: each kept partition splits the input into valid
      groups, has the minimal length of all yielded partitions, and every yielded
      partition of that length is kept. */
  lemma OptimalIsMinimal(cat: Catalog, pcbs: seq<PcbId>)
    requires Complete(cat) && Known(cat, pcbs)
    ensures var ys := Generate(cat, pcbs, [], Unbounded, false).found;
      && ys != [] && Optimal(cat, pcbs) != []
      && (forall p :: p in Optimal(cat, pcbs) ==> IsPartitionOf(cat, p, pcbs) && |p| == MinLength(ys))
      && (forall q :: q in ys ==> MinLength(ys) <= |q|)
      && (forall q :: q in ys && |q| == MinLength(ys) ==> q in Optimal(cat, pcbs))
      && (forall q :: IsPartitionOf(cat, q, pcbs) ==> MinLength(ys) <= |q|)
  {
    var ys := Generate(cat, pcbs, [], Unbounded, false).found;
    FreshBoundAlwaysYields(cat, pcbs);
    MinimalSelection(ys);
    KeepMembers(ys, MinLength(ys));
    SearchYieldsPartitions(cat, pcbs, Unbounded, false);
    forall q | IsPartitionOf(cat, q, pcbs) ensures MinLength(ys) <= |q| {
      SearchComplete(cat, pcbs, q, Unbounded, false);
      var p :| p in ys && |p| <= |q|;
      MinLengthIsLeast(ys);
    }
  }

  function ErrorDocument(message: string): Objects.Json
  {
    Objects.JObj([("Error", Objects.JStr(message))])
  }

  /** `call_list`, with the bound cell passed fresh (unbounded) to every search:
      the input checks, the heaviest-first PCB list, the search, the
      minimal-length selection and the JSON document. */
  method CallList(request: Request, data: Dataset) returns (doc: Objects.Json)
    requires DatasetReady(data, RequestNumbers(request))
    ensures var ns := RequestNumbers(request);
      && (|ns| == 0 ==> doc == ErrorDocument("empty input list"))
      && (|ns| > 0 && !InRange(ns) ==> doc == ErrorDocument("the input PCBs must be between 1 and 50"))
      && (|ns| > 0 && InRange(ns) ==> doc == SerialDocument(data, ns))
  {
    var ns := RequestNumbers(request);
    if |ns| <= 0 {
      return ErrorDocument("empty input list");
    }
    if !InRange(ns) {
      return ErrorDocument("the input PCBs must be between 1 and 50");
    }
    var names := RequestNames(ns);
    var cat := RequestCatalog(data, names);
    RequestCatalogReady(data, ns);
    var pcbList := SortByWidth(cat, names);
    SortedKnown(cat, names);
    var best := SearchMinimal(cat, pcbList);
    doc := CreateJsonData(best, cat);
  }

  /** The document `call_list` returns for valid numbers: the minimal partitions
      of the heaviest-first list of the requested PCBs. */
  function SerialDocument(data: Dataset, ns: seq<int>): Objects.Json
    requires DatasetReady(data, ns) && InRange(ns)
  {
    var names := RequestNames(ns);
    var cat := RequestCatalog(data, names);
    RequestCatalogReady(data, ns);
    SortedKnown(cat, names);
    CombinationsDocument(cat, Optimal(cat, SortByWidth(cat, names)))
  }

  lemma SortedKnown(cat: Catalog, names: seq<PcbId>)
    requires Complete(cat) && Known(cat, names)
    ensures Known(cat, SortByWidth(cat, names))
  {
    var sorted := SortByWidth(cat, names);
    forall x | x in sorted ensures x in cat.materials {
      assert x in multiset(sorted);
    }
  }

  /** The `while len(best_combinations) == 0` loop of `call_list`, each pass
      searching with a fresh unbounded cell: one pass suffices. */
  method SearchMinimal(cat: Catalog, pcbList: seq<PcbId>) returns (best: seq<Partition>)
    requires Complete(cat) && Known(cat, pcbList)
    ensures best == Optimal(cat, pcbList) && best != []
  {
    best := [];
    while |best| == 0
      invariant best == [] || best == Optimal(cat, pcbList)
      decreases if best == [] then 1 else 0
    {
      var run := Generate(cat, pcbList, [], Unbounded, false);
      FreshBoundAlwaysYields(cat, pcbList);
      best := SelectMinimal(run.found);
      MinimalSelection(run.found);
    }
  }
}
