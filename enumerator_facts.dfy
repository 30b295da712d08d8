/** What `generate_combinations` guarantees about every partition it yields and
    about the bound cell, proved by induction over the recursion (the lemmas
    about `Generate` and `Extend` are mutually recursive, like the functions). */
module EnumeratorFacts {
  import opened Grouping
  import opened Enumerator

  // ---------------------------------------------------------------------------
  // The bound cell.

  /** The cell only goes down, and it does not move at all when nothing was yielded. */
  predicate BoundKept(r: Run, b: Bound)
  {
    NoHigher(r.bound, b) && (r.found == [] ==> r.bound == b)
  }

  /** The cell never increases, and a run that yields nothing leaves it as it was.
      Every yielded partition fits the bound the call started with, except the
      partition of a base-case call, which is yielded before the pruning test. */
  lemma {:induction false} GenerateBound(cat: Catalog, pcbs: seq<PcbId>, groups: Partition, bound: Bound, lowering: bool)
    requires Complete(cat) && Known(cat, pcbs) && KnownAll(cat, groups)
    ensures BoundKept(Generate(cat, pcbs, groups, bound, lowering), bound)
    ensures forall p :: p in Generate(cat, pcbs, groups, bound, lowering).found ==>
      Fits(|p|, bound) || (pcbs == [] && p == groups)
    decreases |pcbs|, 1, 0
  {
    if pcbs != [] && Fits(|groups|, bound) {
      var ext := Extend(cat, pcbs, groups, 0, bound, lowering);
      ExtendBound(cat, pcbs, groups, 0, bound, lowering);
      var single := [pcbs[0]];
      if ValidGroup(cat, single) && Fits(|groups| + 1, ext.bound) {
        GenerateBound(cat, pcbs[1..], groups + [single], ext.bound, true);
      }
    }
  }

  lemma {:induction false} ExtendBound(cat: Catalog, pcbs: seq<PcbId>, groups: Partition, i: nat, bound: Bound, lowering: bool)
    requires Complete(cat) && Known(cat, pcbs) && KnownAll(cat, groups)
    requires pcbs != [] && i <= |groups|
    ensures BoundKept(Extend(cat, pcbs, groups, i, bound, lowering), bound)
    ensures forall p :: p in Extend(cat, pcbs, groups, i, bound, lowering).found ==>
      Fits(|p|, bound) || |p| == |groups|
    decreases |pcbs|, 0, |groups| - i
  {
    if i < |groups| {
      var grown := groups[i] + [pcbs[0]];
      var here :=
        if ValidGroup(cat, grown) then Generate(cat, pcbs[1..], groups[i := grown], bound, lowering)
        else Run([], bound);
      if ValidGroup(cat, grown) {
        GenerateBound(cat, pcbs[1..], groups[i := grown], bound, lowering);
      }
      ExtendBound(cat, pcbs, groups, i + 1, here.bound, lowering);
    }
  }

  /** If the starting groups fit the bound, so does every yielded partition. */
  lemma YieldsWithinBound(cat: Catalog, pcbs: seq<PcbId>, groups: Partition, bound: Bound, lowering: bool)
    requires Complete(cat) && Known(cat, pcbs) && KnownAll(cat, groups)
    requires Fits(|groups|, bound)
    ensures forall p :: p in Generate(cat, pcbs, groups, bound, lowering).found ==> Fits(|p|, bound)
  {
    GenerateBound(cat, pcbs, groups, bound, lowering);
  }

  /** The search yields something whenever putting every remaining PCB in a group
      of its own still fits the bound: singletons are always valid. */
  lemma {:induction false} GenerateNonEmpty(cat: Catalog, pcbs: seq<PcbId>, groups: Partition, bound: Bound, lowering: bool)
    requires Complete(cat) && Known(cat, pcbs) && KnownAll(cat, groups)
    requires Fits(|groups| + |pcbs|, bound)
    ensures Generate(cat, pcbs, groups, bound, lowering).found != []
    decreases |pcbs|
  {
    if pcbs != [] {
      var ext := Extend(cat, pcbs, groups, 0, bound, lowering);
      ExtendBound(cat, pcbs, groups, 0, bound, lowering);
      if ext.found == [] {
        var single := [pcbs[0]];
        KnownOpen(cat, pcbs, groups);
        assert ValidGroup(cat, single);
        GenerateNonEmpty(cat, pcbs[1..], groups + [single], bound, true);
      }
    }
  }

  /** The next PCB opens a group of its own: the catalog still knows every PCB. */
  lemma KnownOpen(cat: Catalog, pcbs: seq<PcbId>, groups: Partition)
    requires Known(cat, pcbs) && KnownAll(cat, groups) && pcbs != []
    ensures Known(cat, pcbs[1..]) && KnownAll(cat, groups + [[pcbs[0]]])
  {
    assert pcbs[0] in pcbs;
    forall j | 0 <= j < |groups| + 1 ensures Known(cat, (groups + [[pcbs[0]]])[j]) {
      if j < |groups| {
        assert (groups + [[pcbs[0]]])[j] == groups[j];
      }
    }
  }

  // ---------------------------------------------------------------------------
  // Coverage: every PCB ends up in exactly one group.

  lemma FlattenGrow(groups: Partition, i: nat, x: PcbId)
    requires i < |groups|
    ensures multiset(Flatten(groups[i := groups[i] + [x]])) == multiset(Flatten(groups)) + multiset{x}
  {
    var before, after := groups[..i], groups[i + 1..];
    assert groups == before + [groups[i]] + after;
    assert groups[i := groups[i] + [x]] == before + [groups[i] + [x]] + after;
    FlattenAppend(before + [groups[i]], after);
    FlattenAppend(before, [groups[i]]);
    FlattenAppend(before + [groups[i] + [x]], after);
    FlattenAppend(before, [groups[i] + [x]]);
    FlattenSingle(groups[i]);
    FlattenSingle(groups[i] + [x]);
  }

  lemma FlattenOpen(groups: Partition, x: PcbId)
    ensures multiset(Flatten(groups + [[x]])) == multiset(Flatten(groups)) + multiset{x}
  {
    FlattenAppend(groups, [[x]]);
    FlattenSingle([x]);
  }

  /** Every partition of `ps` holds exactly the PCBs of `target`. */
  predicate CoversAll(ps: seq<Partition>, target: multiset<PcbId>)
  {
    forall p :: p in ps ==> multiset(Flatten(p)) == target
  }

  lemma CoversAppend(a: seq<Partition>, b: seq<Partition>, target: multiset<PcbId>)
    requires CoversAll(a, target) && CoversAll(b, target)
    ensures CoversAll(a + b, target)
  {
  }

  lemma HeadTail(pcbs: seq<PcbId>)
    requires pcbs != []
    ensures multiset(pcbs) == multiset{pcbs[0]} + multiset(pcbs[1..])
  {
    assert pcbs == [pcbs[0]] + pcbs[1..];
  }

  /** Every yielded partition holds the PCBs of the starting groups and of `pcbs`,
      each as often as it occurs there (so exactly once when the ids are distinct). */
  lemma {:induction false} GenerateCovers(cat: Catalog, pcbs: seq<PcbId>, groups: Partition, bound: Bound, lowering: bool)
    requires Complete(cat) && Known(cat, pcbs) && KnownAll(cat, groups)
    ensures CoversAll(Generate(cat, pcbs, groups, bound, lowering).found, multiset(Flatten(groups)) + multiset(pcbs))
    decreases |pcbs|, 1, 0
  {
    if pcbs != [] && Fits(|groups|, bound) {
      var target := multiset(Flatten(groups)) + multiset(pcbs);
      var ext := Extend(cat, pcbs, groups, 0, bound, lowering);
      ExtendCovers(cat, pcbs, groups, 0, bound, lowering);
      var single := [pcbs[0]];
      if ValidGroup(cat, single) && Fits(|groups| + 1, ext.bound) {
        KnownOpen(cat, pcbs, groups);
        var sub := Generate(cat, pcbs[1..], groups + [single], ext.bound, true);
        GenerateCovers(cat, pcbs[1..], groups + [single], ext.bound, true);
        FlattenOpen(groups, pcbs[0]);
        HeadTail(pcbs);
        assert CoversAll(sub.found, target);
        CoversAppend(ext.found, sub.found, target);
      }
    }
  }

  lemma {:induction false} ExtendCovers(cat: Catalog, pcbs: seq<PcbId>, groups: Partition, i: nat, bound: Bound, lowering: bool)
    requires Complete(cat) && Known(cat, pcbs) && KnownAll(cat, groups)
    requires pcbs != [] && i <= |groups|
    ensures CoversAll(Extend(cat, pcbs, groups, i, bound, lowering).found, multiset(Flatten(groups)) + multiset(pcbs))
    decreases |pcbs|, 0, |groups| - i
  {
    if i < |groups| {
      var target := multiset(Flatten(groups)) + multiset(pcbs);
      var grown := groups[i] + [pcbs[0]];
      var here :=
        if ValidGroup(cat, grown) then Generate(cat, pcbs[1..], groups[i := grown], bound, lowering)
        else Run([], bound);
      if ValidGroup(cat, grown) {
        GrowCovers(cat, pcbs, groups, i, bound, lowering);
      }
      var rest := Extend(cat, pcbs, groups, i + 1, here.bound, lowering);
      ExtendCovers(cat, pcbs, groups, i + 1, here.bound, lowering);
      CoversAppend(here.found, rest.found, target);
    }
  }

  /** Group `i` takes the next PCB: the search below holds the same PCBs. */
  lemma {:induction false} GrowCovers(cat: Catalog, pcbs: seq<PcbId>, groups: Partition, i: nat, bound: Bound, lowering: bool)
    requires Complete(cat) && Known(cat, pcbs) && KnownAll(cat, groups)
    requires pcbs != [] && i < |groups| && ValidGroup(cat, groups[i] + [pcbs[0]])
    ensures KnownAll(cat, groups[i := groups[i] + [pcbs[0]]]) && Known(cat, pcbs[1..])
    ensures CoversAll(Generate(cat, pcbs[1..], groups[i := groups[i] + [pcbs[0]]], bound, lowering).found,
                      multiset(Flatten(groups)) + multiset(pcbs))
    decreases |pcbs|, 0, 0
  {
    GenerateCovers(cat, pcbs[1..], groups[i := groups[i] + [pcbs[0]]], bound, lowering);
    FlattenGrow(groups, i, pcbs[0]);
    HeadTail(pcbs);
  }

  // ---------------------------------------------------------------------------
  // Shape: starting groups only grow, at the end; new groups come last; every
  // group that changed passed the capacity check; members keep input order.

  /** `a` is `b` with some elements left out. */
  predicate Subseq(a: seq<PcbId>, b: seq<PcbId>)
    decreases |b|
  {
    a == [] || (b != [] && ((a[0] == b[0] && Subseq(a[1..], b[1..])) || Subseq(a, b[1..])))
  }

  /** The members group `j` of `p` gained over the starting groups. */
  function Added(groups: Partition, p: Partition, j: nat): seq<PcbId>
    requires j < |p|
  {
    if j < |groups| && |groups[j]| <= |p[j]| then p[j][|groups[j]|..] else p[j]
  }

  /** `p` grew from `groups` by placing the PCBs of `pcbs`. */
  predicate Grows(cat: Catalog, groups: Partition, pcbs: seq<PcbId>, p: Partition)
    requires Complete(cat)
  {
    && |groups| <= |p|
    && KnownAll(cat, p)
    && (forall j :: 0 <= j < |groups| ==> groups[j] <= p[j])
    && (forall j :: 0 <= j < |groups| ==> p[j] == groups[j] || ValidGroup(cat, p[j]))
    && (forall j :: |groups| <= j < |p| ==> p[j] != [] && ValidGroup(cat, p[j]))
    && (forall j :: 0 <= j < |p| ==> Subseq(Added(groups, p, j), pcbs))
  }

  lemma GrowsAtStart(cat: Catalog, groups: Partition)
    requires Complete(cat) && KnownAll(cat, groups)
    ensures Grows(cat, groups, [], groups)
  {
    forall j | 0 <= j < |groups| ensures Added(groups, groups, j) == [] {
      assert groups[j][|groups[j]|..] == [];
    }
  }

  /** Growing group `i` by the next PCB, then placing the rest. */
  lemma GrowsAfterExtend(cat: Catalog, groups: Partition, pcbs: seq<PcbId>, i: nat, p: Partition)
    requires Complete(cat) && Known(cat, pcbs) && KnownAll(cat, groups)
    requires pcbs != [] && i < |groups|
    requires ValidGroup(cat, groups[i] + [pcbs[0]])
    requires Grows(cat, groups[i := groups[i] + [pcbs[0]]], pcbs[1..], p)
    ensures Grows(cat, groups, pcbs, p)
  {
    var next := groups[i := groups[i] + [pcbs[0]]];
    forall j | 0 <= j < |groups| ensures groups[j] <= p[j] {
      if j == i { assert groups[i] <= next[i]; }
    }
    forall j | 0 <= j < |groups| ensures p[j] == groups[j] || ValidGroup(cat, p[j]) {
      if j == i && p[j] == next[j] { }
    }
    forall j | 0 <= j < |p| ensures Subseq(Added(groups, p, j), pcbs) {
      var later := Added(next, p, j);
      assert Subseq(later, pcbs[1..]);
      if j == i {
        assert p[j][|groups[j]|..] == [pcbs[0]] + later;
      } else {
        assert Added(groups, p, j) == later;
      }
    }
  }

  /** Opening a new group with the next PCB, then placing the rest. */
  lemma GrowsAfterOpen(cat: Catalog, groups: Partition, pcbs: seq<PcbId>, p: Partition)
    requires Complete(cat) && Known(cat, pcbs) && KnownAll(cat, groups)
    requires pcbs != []
    requires Grows(cat, groups + [[pcbs[0]]], pcbs[1..], p)
    ensures Grows(cat, groups, pcbs, p)
  {
    var next := groups + [[pcbs[0]]];
    assert |next| == |groups| + 1;
    forall j | 0 <= j < |groups| ensures groups[j] <= p[j] {
      assert next[j] == groups[j];
    }
    forall j | |groups| <= j < |p| ensures p[j] != [] && ValidGroup(cat, p[j]) {
      if j == |groups| {
        assert next[j] <= p[j];
      }
    }
    forall j | 0 <= j < |p| ensures Subseq(Added(groups, p, j), pcbs) {
      var later := Added(next, p, j);
      assert Subseq(later, pcbs[1..]);
      if j == |groups| {
        assert next[j] == [pcbs[0]] && next[j] <= p[j];
        assert p[j] == [pcbs[0]] + later;
      } else if j < |groups| {
        assert next[j] == groups[j];
      }
    }
  }

  lemma {:induction false} GenerateShape(cat: Catalog, pcbs: seq<PcbId>, groups: Partition, bound: Bound, lowering: bool)
    requires Complete(cat) && Known(cat, pcbs) && KnownAll(cat, groups)
    ensures forall p :: p in Generate(cat, pcbs, groups, bound, lowering).found ==> Grows(cat, groups, pcbs, p)
    decreases |pcbs|, 1, 0
  {
    if pcbs == [] {
      GrowsAtStart(cat, groups);
    } else if Fits(|groups|, bound) {
      var ext := Extend(cat, pcbs, groups, 0, bound, lowering);
      ExtendShape(cat, pcbs, groups, 0, bound, lowering);
      var single := [pcbs[0]];
      if ValidGroup(cat, single) && Fits(|groups| + 1, ext.bound) {
        var sub := Generate(cat, pcbs[1..], groups + [single], ext.bound, true);
        GenerateShape(cat, pcbs[1..], groups + [single], ext.bound, true);
        forall p | p in sub.found ensures Grows(cat, groups, pcbs, p) {
          GrowsAfterOpen(cat, groups, pcbs, p);
        }
      }
    }
  }

  lemma {:induction false} ExtendShape(cat: Catalog, pcbs: seq<PcbId>, groups: Partition, i: nat, bound: Bound, lowering: bool)
    requires Complete(cat) && Known(cat, pcbs) && KnownAll(cat, groups)
    requires pcbs != [] && i <= |groups|
    ensures forall p :: p in Extend(cat, pcbs, groups, i, bound, lowering).found ==> Grows(cat, groups, pcbs, p)
    decreases |pcbs|, 0, |groups| - i
  {
    if i < |groups| {
      var grown := groups[i] + [pcbs[0]];
      var here :=
        if ValidGroup(cat, grown) then Generate(cat, pcbs[1..], groups[i := grown], bound, lowering)
        else Run([], bound);
      if ValidGroup(cat, grown) {
        GenerateShape(cat, pcbs[1..], groups[i := grown], bound, lowering);
        forall p | p in here.found ensures Grows(cat, groups, pcbs, p) {
          GrowsAfterExtend(cat, groups, pcbs, i, p);
        }
      }
      ExtendShape(cat, pcbs, groups, i + 1, here.bound, lowering);
    }
  }

  // ---------------------------------------------------------------------------
  // Searches that start from no groups.

  /** `p` splits `pcbs` into non-empty groups that each pass the capacity check. */
  predicate IsPartitionOf(cat: Catalog, p: Partition, pcbs: seq<PcbId>)
    requires Complete(cat)
  {
    && KnownAll(cat, p)
    && (forall j :: 0 <= j < |p| ==> p[j] != [] && ValidGroup(cat, p[j]))
    && multiset(Flatten(p)) == multiset(pcbs)
  }

  /** A search from no groups yields only partitions of its input. */
  lemma SearchYieldsPartitions(cat: Catalog, pcbs: seq<PcbId>, bound: Bound, lowering: bool)
    requires Complete(cat) && Known(cat, pcbs)
    ensures forall p :: p in Generate(cat, pcbs, [], bound, lowering).found ==>
      IsPartitionOf(cat, p, pcbs) && Fits(|p|, bound)
  {
    GenerateShape(cat, pcbs, [], bound, lowering);
    GenerateCovers(cat, pcbs, [], bound, lowering);
    YieldsWithinBound(cat, pcbs, [], bound, lowering);
    assert Flatten([]) == [];
  }

  /** What a successful worker probe means: a valid partition of the PCBs into at
      most `k` groups exists, namely the first one the search yields. */
  lemma SuccessIsWitnessed(cat: Catalog, pcbs: seq<PcbId>, k: nat)
    requires Complete(cat) && Known(cat, pcbs)
    requires Succeeds(cat, pcbs, k)
    ensures var p := Generate(cat, pcbs, [], AtMost(k), false).found[0];
      IsPartitionOf(cat, p, pcbs) && 0 < |p| <= k
  {
    SearchYieldsPartitions(cat, pcbs, AtMost(k), false);
  }

  /** A probe whose bound leaves room for one group per PCB succeeds. The
      general case, any valid partition within the bound, is
      `EnumeratorComplete.PartitionSucceeds`. */
  lemma EnoughRoomSucceeds(cat: Catalog, pcbs: seq<PcbId>, k: nat)
    requires Complete(cat) && Known(cat, pcbs)
    requires 0 < |pcbs| <= k
    ensures Succeeds(cat, pcbs, k)
  {
    GenerateNonEmpty(cat, pcbs, [], AtMost(k), false);
    var p := Generate(cat, pcbs, [], AtMost(k), false).found[0];
    SearchYieldsPartitions(cat, pcbs, AtMost(k), false);
    assert IsPartitionOf(cat, p, pcbs);
  }
}
