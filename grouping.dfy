/** The data the grouping search works on, and the capacity check
    `is_valid_group` shared by every strategy: a group of PCBs fits on the line
    when the slot widths of the DISTINCT materials its members need add up to at
    most `C_max`; a single PCB always fits. */
module Grouping {
  import opened Common

  type PcbId = string
  type MaterialId = string
  /** A group lists its PCBs in the order they were added. */
  type Group = seq<PcbId>
  /** A partition (a "combination") lists its groups in the order they were opened. */
  type Partition = seq<Group>

  /** `pcb_data_dict`, `material_catalogue_dict` and `C_max`. Widths are natural
      numbers and the capacity is an integer (the data sets use integral widths). */
  datatype Catalog = Catalog(materials: map<PcbId, seq<MaterialId>>, widths: map<MaterialId, nat>, cmax: nat)

  /** Every material a listed PCB needs has a width (otherwise the lookup raises KeyError). */
  predicate Complete(cat: Catalog)
  {
    forall p, m :: p in cat.materials && m in cat.materials[p] ==> m in cat.widths
  }

  /** Every PCB of `g` is listed in the catalog (otherwise the lookup raises KeyError). */
  predicate Known(cat: Catalog, g: seq<PcbId>)
  {
    forall p :: p in g ==> p in cat.materials
  }

  function Flatten(part: Partition): seq<PcbId>
  {
    if part == [] then [] else Flatten(part[..|part| - 1]) + part[|part| - 1]
  }

  lemma {:induction false} FlattenAppend(a: Partition, b: Partition)
    ensures Flatten(a + b) == Flatten(a) + Flatten(b)
    decreases |b|
  {
    if b == [] {
      assert a + b == a;
    } else {
      assert (a + b)[..|a + b| - 1] == a + b[..|b| - 1];
      FlattenAppend(a, b[..|b| - 1]);
    }
  }

  lemma FlattenSingle(g: Group)
    ensures Flatten([g]) == g
  {
    assert [g][..0] == [];
  }

  /** Every group of `part` lists only catalogued PCBs. */
  predicate KnownAll(cat: Catalog, part: Partition)
  {
    forall i :: 0 <= i < |part| ==> Known(cat, part[i])
  }

  /** The materials of the members of `g`, member by member, repeats included. */
  function MaterialList(cat: Catalog, g: Group): (ms: seq<MaterialId>)
    requires Complete(cat) && Known(cat, g)
    ensures forall m :: m in ms ==> m in cat.widths
  {
    if g == [] then []
    else
      var ms := MaterialList(cat, g[..|g| - 1]) + cat.materials[g[|g| - 1]];
      assert forall m :: m in cat.materials[g[|g| - 1]] ==> m in cat.widths;
      ms
  }

  lemma {:induction false} MaterialListPrefix(cat: Catalog, g: Group, i: nat)
    requires Complete(cat) && Known(cat, g) && i <= |g|
    ensures MaterialList(cat, g[..i]) <= MaterialList(cat, g)
    decreases |g| - i
  {
    if i < |g| {
      assert g[..|g| - 1][..i] == g[..i];
      MaterialListPrefix(cat, g[..|g| - 1], i);
    } else {
      assert g[..i] == g;
    }
  }

  /** Width of the materials in `ms`, each distinct material counted once (at its first occurrence). */
  function DistinctWidth(w: map<MaterialId, nat>, ms: seq<MaterialId>): nat
    requires forall m :: m in ms ==> m in w
  {
    if ms == [] then 0
    else
      var last := ms[|ms| - 1];
      DistinctWidth(w, ms[..|ms| - 1]) + (if last in ms[..|ms| - 1] then 0 else w[last])
  }

  lemma {:induction false} DistinctWidthPrefix(w: map<MaterialId, nat>, ms: seq<MaterialId>, k: nat)
    requires forall m :: m in ms ==> m in w
    requires k <= |ms|
    ensures DistinctWidth(w, ms[..k]) <= DistinctWidth(w, ms)
    decreases |ms| - k
  {
    if k < |ms| {
      assert ms[..|ms| - 1][..k] == ms[..k];
      DistinctWidthPrefix(w, ms[..|ms| - 1], k);
    } else {
      assert ms[..k] == ms;
    }
  }

  /** Width a group occupies: the distinct materials of all its members. */
  function GroupWidth(cat: Catalog, g: Group): nat
    requires Complete(cat) && Known(cat, g)
  {
    DistinctWidth(cat.widths, MaterialList(cat, g))
  }

  /** The capacity rule: a single PCB always fits, any other group fits when its
      distinct-material width is at most `C_max`. */
  predicate ValidGroup(cat: Catalog, g: Group)
    requires Complete(cat) && Known(cat, g)
  {
    |g| == 1 || GroupWidth(cat, g) <= cat.cmax
  }

  /** `is_valid_group`: walks the members and their materials, adds the width of
      each material not yet seen, and gives up as soon as the running total
      exceeds `C_max`. The early exit does not change the answer. */
  method IsValidGroup(cat: Catalog, group: Group) returns (ok: bool)
    requires Complete(cat) && Known(cat, group)
    ensures ok <==> ValidGroup(cat, group)
    ensures |group| == 1 ==> ok
  {
    if |group| == 1 {
      return true;
    }
    var used: set<MaterialId> := {};
    var total: nat := 0;
    ghost var flat: seq<MaterialId> := [];
    for i := 0 to |group|
      invariant flat == MaterialList(cat, group[..i])
      invariant used == (set m | m in flat) && total == DistinctWidth(cat.widths, flat)
      invariant total <= cat.cmax
    {
      var ms := cat.materials[group[i]];
      for j := 0 to |ms|
        invariant flat == MaterialList(cat, group[..i]) + ms[..j]
        invariant used == (set m | m in flat) && total == DistinctWidth(cat.widths, flat)
        invariant total <= cat.cmax
      {
        var m := ms[j];
        flat := SeenOneMore(cat, group, i, j, flat);
        if m !in used {
          used := used + {m};
          total := total + cat.widths[m];
          if total > cat.cmax {
            OverflowIsFinal(cat, group, i, j);
            return false;
          }
        }
      }
      MemberDone(cat, group, i);
    }
    assert group[..|group|] == group;
    return true;
  }

  /** One more material of member `i` has been looked at. */
  ghost function SeenOneMore(cat: Catalog, group: Group, i: nat, j: nat, flat: seq<MaterialId>): (next: seq<MaterialId>)
    requires Complete(cat) && Known(cat, group) && i < |group| && j < |cat.materials[group[i]]|
    requires flat == MaterialList(cat, group[..i]) + cat.materials[group[i]][..j]
    ensures next == MaterialList(cat, group[..i]) + cat.materials[group[i]][..j + 1]
    ensures next[..|next| - 1] == flat && next[|next| - 1] == cat.materials[group[i]][j]
    ensures (set m | m in next) == (set m | m in flat) + {cat.materials[group[i]][j]}
  {
    var ms := cat.materials[group[i]];
    assert ms[..j + 1] == ms[..j] + [ms[j]];
    flat + [ms[j]]
  }

  lemma MemberDone(cat: Catalog, group: Group, i: nat)
    requires Complete(cat) && Known(cat, group) && i < |group|
    ensures MaterialList(cat, group[..i]) + cat.materials[group[i]][..|cat.materials[group[i]]|]
         == MaterialList(cat, group[..i + 1])
  {
    assert group[..i + 1][..i] == group[..i];
    var ms := cat.materials[group[i]];
    assert ms[..|ms|] == ms;
  }

  /** The running total after a prefix of the materials never exceeds the group's width. */
  lemma OverflowIsFinal(cat: Catalog, group: Group, i: nat, j: nat)
    requires Complete(cat) && Known(cat, group) && i < |group| && j < |cat.materials[group[i]]|
    ensures forall m :: m in MaterialList(cat, group[..i]) + cat.materials[group[i]][..j + 1] ==> m in cat.widths
    ensures DistinctWidth(cat.widths, MaterialList(cat, group[..i]) + cat.materials[group[i]][..j + 1])
         <= GroupWidth(cat, group)
  {
    var ms := cat.materials[group[i]];
    var flat := MaterialList(cat, group[..i]) + ms[..j + 1];
    MemberDone(cat, group, i);
    MaterialListPrefix(cat, group, i + 1);
    var all := MaterialList(cat, group);
    assert flat <= all;
    assert all[..|flat|] == flat;
    DistinctWidthPrefix(cat.widths, all, |flat|);
  }

  // ---------------------------------------------------------------------------
  // The width depends only on the SET of materials the members need.

  /** Sum of the widths of a set of materials, in no particular order. */
  ghost function SetWidth(w: map<MaterialId, nat>, s: set<MaterialId>): nat
    requires s <= w.Keys
    decreases |s|
  {
    if s == {} then 0 else var m :| m in s; w[m] + SetWidth(w, s - {m})
  }

  lemma {:induction false} SetWidthRemove(w: map<MaterialId, nat>, s: set<MaterialId>, x: MaterialId)
    requires s <= w.Keys && x in s
    ensures SetWidth(w, s) == w[x] + SetWidth(w, s - {x})
    decreases |s|
  {
    var y :| y in s && SetWidth(w, s) == w[y] + SetWidth(w, s - {y});
    if y != x {
      SetWidthRemove(w, s - {y}, x);
      SetWidthRemove(w, s - {x}, y);
      assert s - {y} - {x} == s - {x} - {y};
    }
  }

  lemma {:induction false} DistinctWidthIsSetWidth(w: map<MaterialId, nat>, ms: seq<MaterialId>)
    requires forall m :: m in ms ==> m in w
    ensures (set m | m in ms) <= w.Keys
    ensures DistinctWidth(w, ms) == SetWidth(w, set m | m in ms)
    decreases |ms|
  {
    if ms != [] {
      var init, last := ms[..|ms| - 1], ms[|ms| - 1];
      assert ms == init + [last];
      DistinctWidthIsSetWidth(w, init);
      var s := set m | m in init;
      assert (set m | m in ms) == s + {last};
      if last !in init {
        SetWidthRemove(w, s + {last}, last);
        assert s + {last} - {last} == s;
      } else {
        assert s + {last} == s;
      }
    }
  }

  /** The set of materials the members of `g` need. */
  ghost function MaterialsOf(cat: Catalog, g: Group): set<MaterialId>
    requires Known(cat, g)
  {
    set p, m | p in g && m in cat.materials[p] :: m
  }

  lemma {:induction false} MaterialListElements(cat: Catalog, g: Group)
    requires Complete(cat) && Known(cat, g)
    ensures (set m | m in MaterialList(cat, g)) == MaterialsOf(cat, g)
    decreases |g|
  {
    if g != [] {
      var init := g[..|g| - 1];
      var own := cat.materials[g[|g| - 1]];
      MaterialListElements(cat, init);
      assert g == init + [g[|g| - 1]];
      assert MaterialsOf(cat, g) == MaterialsOf(cat, init) + set m | m in own;
    }
  }

  /** Each distinct material is counted once per group, however many members
      need it and however often a member lists it: the group width is the sum of
      the widths of the SET of materials. */
  lemma GroupWidthCountsEachMaterialOnce(cat: Catalog, g: Group)
    requires Complete(cat) && Known(cat, g)
    ensures MaterialsOf(cat, g) <= cat.widths.Keys
    ensures GroupWidth(cat, g) == SetWidth(cat.widths, MaterialsOf(cat, g))
  {
    DistinctWidthIsSetWidth(cat.widths, MaterialList(cat, g));
    MaterialListElements(cat, g);
  }

  /** Hence validity of a group of two or more PCBs depends only on the set of
      materials its members need, not on member order or repeated materials. */
  lemma ValidityDependsOnMaterialSet(cat: Catalog, g1: Group, g2: Group)
    requires Complete(cat) && Known(cat, g1) && Known(cat, g2)
    requires |g1| != 1 && |g2| != 1
    requires MaterialsOf(cat, g1) == MaterialsOf(cat, g2)
    ensures ValidGroup(cat, g1) <==> ValidGroup(cat, g2)
  {
    GroupWidthCountsEachMaterialOnce(cat, g1);
    GroupWidthCountsEachMaterialOnce(cat, g2);
  }

  // ---------------------------------------------------------------------------
  // Preparing the PCB list: names from numbers, dictionary keys, width ordering.

  /** `sum(material_catalogue_dict[m] for m in pcb_data_dict[p])`: the sort key, repeats included. */
  function TotalWidth(cat: Catalog, p: PcbId): nat
    requires Complete(cat) && p in cat.materials
  {
    SumWidths(cat.widths, cat.materials[p])
  }

  function SumWidths(w: map<MaterialId, nat>, ms: seq<MaterialId>): nat
    requires forall m :: m in ms ==> m in w
  {
    if ms == [] then 0 else SumWidths(w, ms[..|ms| - 1]) + w[ms[|ms| - 1]]
  }

  /** The keys of a dictionary filled in the order of `names`: first occurrences only. */
  function Dedup(names: seq<PcbId>): (r: seq<PcbId>)
    ensures forall x :: x in r <==> x in names
    ensures forall i, j :: 0 <= i < j < |r| ==> r[i] != r[j]
  {
    if names == [] then []
    else
      var init := Dedup(names[..|names| - 1]);
      var last := names[|names| - 1];
      assert forall x :: x in names <==> x in names[..|names| - 1] || x == last;
      if last in init then init else init + [last]
  }

  /** The position of the first occurrence of `x` in `names`. */
  function FirstIndex(names: seq<PcbId>, x: PcbId): (i: nat)
    requires x in names
    ensures i < |names| && names[i] == x && x !in names[..i]
  {
    if names[0] == x then 0
    else
      assert names[1..][..FirstIndex(names[1..], x)] == names[1..FirstIndex(names[1..], x) + 1];
      FirstIndex(names[1..], x) + 1
  }

  /** A first occurrence within a prefix is the first occurrence in the whole list. */
  lemma FirstIndexPrefix(names: seq<PcbId>, k: nat, x: PcbId)
    requires k <= |names| && x in names[..k]
    ensures FirstIndex(names, x) == FirstIndex(names[..k], x)
  {
    var i1 := FirstIndex(names[..k], x);
    var i2 := FirstIndex(names, x);
    assert names[..k][..i1] == names[..i1];
  }

  /** `Dedup` lists the PCBs in the order of their first occurrence in `names`:
      together with its contract, this fixes the result entirely. */
  lemma {:induction false} DedupFirstOccurrences(names: seq<PcbId>)
    ensures forall i, j :: 0 <= i < j < |Dedup(names)| ==> FirstIndex(names, Dedup(names)[i]) < FirstIndex(names, Dedup(names)[j])
  {
    if names != [] {
      var n := |names| - 1;
      var front := names[..n];
      var init := Dedup(front);
      var last := names[n];
      var r := Dedup(names);
      DedupFirstOccurrences(front);
      assert forall k :: 0 <= k < |init| ==> init[k] in front;
      forall i, j | 0 <= i < j < |r| ensures FirstIndex(names, r[i]) < FirstIndex(names, r[j]) {
        FirstIndexPrefix(names, n, r[i]);
        if j < |init| {
          FirstIndexPrefix(names, n, r[j]);
        } else {
          assert r[j] == last && last !in front;
          assert names[..n] == front;
        }
      }
    }
  }

  /** The PCBs of `s` whose key is `v`, in their order in `s`. */
  function WithKey(key: PcbId -> nat, v: nat, s: seq<PcbId>): seq<PcbId>
  {
    if s == [] then [] else (if key(s[0]) == v then [s[0]] else []) + WithKey(key, v, s[1..])
  }

  /** Heaviest first: no PCB is lighter than the one placed right after it. */
  predicate HeaviestFirst(key: PcbId -> nat, s: seq<PcbId>)
  {
    forall i :: 0 < i < |s| ==> key(s[i - 1]) >= key(s[i])
  }

  lemma {:induction false} HeaviestFirstTransitive(key: PcbId -> nat, s: seq<PcbId>, i: nat, j: nat)
    requires HeaviestFirst(key, s) && i <= j < |s|
    ensures key(s[i]) >= key(s[j])
    decreases j - i
  {
    if i < j {
      HeaviestFirstTransitive(key, s, i + 1, j);
    }
  }

  /** The sort key `sum(material_catalogue_dict[m] for m in pcb_data_dict[p])`. */
  function WidthKey(cat: Catalog): PcbId -> nat
    requires Complete(cat)
  {
    (p: PcbId) => if p in cat.materials then TotalWidth(cat, p) else 0
  }

  /** `sorted(pcb_list, key=<total width>, reverse=True)`: a stable insertion
      sort, heaviest first; PCBs of equal width keep their input order. */
  function SortByWidth(cat: Catalog, names: seq<PcbId>): (r: seq<PcbId>)
    requires Complete(cat)
    ensures multiset(r) == multiset(names)
    ensures HeaviestFirst(WidthKey(cat), r)
    ensures forall v :: WithKey(WidthKey(cat), v, r) == WithKey(WidthKey(cat), v, names)
  {
    assert forall v :: WithKey(WidthKey(cat), v, SortByKey(WidthKey(cat), names)) == WithKey(WidthKey(cat), v, names) by {
      forall v {
        SortByKeyStable(WidthKey(cat), names, v);
      }
    }
    SortByKey(WidthKey(cat), names)
  }

  function SortByKey(key: PcbId -> nat, names: seq<PcbId>): (r: seq<PcbId>)
    ensures multiset(r) == multiset(names)
    ensures HeaviestFirst(key, r)
  {
    if names == [] then []
    else
      assert names == [names[0]] + names[1..];
      var sorted := SortByKey(key, names[1..]);
      InsertByKeyHeaviest(key, names[0], sorted);
      InsertByKey(key, names[0], sorted)
  }

  /** Places `x` after every element strictly heavier than it and before the others,
      so equal keys keep their input order. */
  function InsertByKey(key: PcbId -> nat, x: PcbId, s: seq<PcbId>): (r: seq<PcbId>)
    ensures multiset(r) == multiset(s) + multiset{x}
    ensures |r| == |s| + 1 && (r[0] == x || (|s| > 0 && r[0] == s[0]))
  {
    if s == [] || key(s[0]) <= key(x) then [x] + s
    else
      assert s == [s[0]] + s[1..];
      [s[0]] + InsertByKey(key, x, s[1..])
  }

  /** Inserting into a heaviest-first list keeps it heaviest first. */
  lemma {:induction false} InsertByKeyHeaviest(key: PcbId -> nat, x: PcbId, s: seq<PcbId>)
    requires HeaviestFirst(key, s)
    ensures HeaviestFirst(key, InsertByKey(key, x, s))
  {
    if s == [] || key(s[0]) <= key(x) {
      ConsHeaviest(key, x, s);
    } else {
      var tail := s[1..];
      assert HeaviestFirst(key, tail) by {
        forall i | 0 < i < |tail| ensures key(tail[i - 1]) >= key(tail[i]) {
          assert tail[i - 1] == s[i] && tail[i] == s[i + 1];
        }
      }
      InsertByKeyHeaviest(key, x, tail);
      ConsHeaviest(key, s[0], InsertByKey(key, x, tail));
    }
  }

  /** The insertion puts `x` in front of the PCBs of its own key, which are
      the later ones in the input. */
  lemma {:induction false} InsertByKeyStable(key: PcbId -> nat, x: PcbId, s: seq<PcbId>, v: nat)
    ensures WithKey(key, v, InsertByKey(key, x, s)) == (if key(x) == v then [x] else []) + WithKey(key, v, s)
  {
    var r := InsertByKey(key, x, s);
    if s == [] || key(s[0]) <= key(x) {
      assert r[1..] == s;
    } else {
      InsertByKeyStable(key, x, s[1..], v);
      assert r[1..] == InsertByKey(key, x, s[1..]);
    }
  }

  /** Equal keys keep their input order. */
  lemma {:induction false} SortByKeyStable(key: PcbId -> nat, names: seq<PcbId>, v: nat)
    ensures WithKey(key, v, SortByKey(key, names)) == WithKey(key, v, names)
  {
    if names != [] {
      SortByKeyStable(key, names[1..], v);
      InsertByKeyStable(key, names[0], SortByKey(key, names[1..]), v);
    }
  }

  lemma ConsHeaviest(key: PcbId -> nat, a: PcbId, s: seq<PcbId>)
    requires HeaviestFirst(key, s) && (s == [] || key(a) >= key(s[0]))
    ensures HeaviestFirst(key, [a] + s)
  {
    var r := [a] + s;
    forall i | 0 < i < |r| ensures key(r[i - 1]) >= key(r[i]) {
      if i > 1 { assert r[i - 1] == s[i - 2] && r[i] == s[i - 1]; }
    }
  }
}
