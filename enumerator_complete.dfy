/** The converse of `SearchYieldsPartitions`: the search misses no group count.

    For every valid partition of the PCBs whose group count fits the bound the
    search starts with, the search yields a partition with at most that many
    groups. The proof follows the one branch of the search that places each PCB
    into the group of the target partition it belongs to. The shared cell may
    prune that branch, but only after the cell has dropped, and the cell drops
    only to the size of a partition already yielded. */
module EnumeratorComplete {
  import opened Grouping
  import opened Enumerator
  import opened EnumeratorFacts

  // ---------------------------------------------------------------------------
  // The capacity rule is monotone.

  lemma {:induction false} SetWidthSubset(w: map<MaterialId, nat>, s: set<MaterialId>, t: set<MaterialId>)
    requires t <= w.Keys && s <= t
    ensures SetWidth(w, s) <= SetWidth(w, t)
    decreases |t|
  {
    if !(t <= s) {
      var x :| x in t && x !in s;
      SetWidthRemove(w, t, x);
      SetWidthSubset(w, s, t - {x});
    } else {
      assert s == t;
    }
  }

  /** A non-empty group made of members of a valid group is valid: it is a
      single PCB, or the larger group has two or more members and needs every
      material the smaller one needs. */
  lemma SubGroupValid(cat: Catalog, g: Group, h: Group)
    requires Complete(cat) && Known(cat, g) && Known(cat, h)
    requires g != [] && multiset(g) <= multiset(h) && ValidGroup(cat, h)
    ensures ValidGroup(cat, g)
  {
    if |g| != 1 {
      assert multiset(h) == multiset(g) + (multiset(h) - multiset(g));
      assert |h| >= |g|;
      GroupWidthCountsEachMaterialOnce(cat, g);
      GroupWidthCountsEachMaterialOnce(cat, h);
      forall m | m in MaterialsOf(cat, g) ensures m in MaterialsOf(cat, h) {
        var p :| p in g && m in cat.materials[p];
        assert p in multiset(g);
      }
      SetWidthSubset(cat.widths, MaterialsOf(cat, g), MaterialsOf(cat, h));
    }
  }

  // ---------------------------------------------------------------------------
  // The PCBs still to place, target group by target group.

  function Sum(rem: seq<multiset<PcbId>>): multiset<PcbId>
  {
    if rem == [] then multiset{} else Sum(rem[..|rem| - 1]) + rem[|rem| - 1]
  }

  lemma {:induction false} SumMember(rem: seq<multiset<PcbId>>, x: PcbId) returns (c: nat)
    requires x in Sum(rem)
    ensures c < |rem| && x in rem[c]
    decreases |rem|
  {
    var n := |rem| - 1;
    if x in rem[n] {
      c := n;
    } else {
      c := SumMember(rem[..n], x);
    }
  }

  lemma Cancel(a: multiset<PcbId>, b: multiset<PcbId>, c: multiset<PcbId>)
    requires a + c == b + c
    ensures a == b
  {
    forall x ensures a[x] == b[x] {
      assert (a + c)[x] == (b + c)[x];
    }
  }

  /** Replacing entry `c` by `m` trades `rem[c]` for `m` in the sum. */
  lemma {:induction false} SumUpdate(rem: seq<multiset<PcbId>>, c: nat, m: multiset<PcbId>)
    requires c < |rem|
    ensures Sum(rem[c := m]) + rem[c] == Sum(rem) + m
    decreases |rem|
  {
    var n := |rem| - 1;
    var r := rem[c := m];
    if c == n {
      assert r[..n] == rem[..n];
    } else {
      SumUpdate(rem[..n], c, m);
      assert r[..n] == rem[..n][c := m];
      assert r[n] == rem[n] && rem[..n][c] == rem[c];
      calc {
        Sum(r) + rem[c];
        Sum(rem[..n][c := m]) + rem[n] + rem[c];
        Sum(rem[..n]) + m + rem[n];
        Sum(rem) + m;
      }
    }
  }

  function Swap<T>(s: seq<T>, i: nat, j: nat): (r: seq<T>)
    requires i < |s| && j < |s|
    ensures |r| == |s| && r[i] == s[j] && r[j] == s[i]
    ensures forall g :: 0 <= g < |s| && g != i && g != j ==> r[g] == s[g]
  {
    s[i := s[j]][j := s[i]]
  }

  lemma SumSwap(rem: seq<multiset<PcbId>>, i: nat, j: nat)
    requires i < |rem| && j < |rem|
    ensures Sum(Swap(rem, i, j)) == Sum(rem)
  {
    if i == j {
      assert Swap(rem, i, j) == rem;
    } else {
      var a := rem[i := rem[j]];
      SumUpdate(rem, i, rem[j]);
      SumUpdate(a, j, rem[i]);
      assert a[j] == rem[j];
      assert Swap(rem, i, j) == a[j := rem[i]];
      Cancel(Sum(Swap(rem, i, j)), Sum(rem), rem[j]);
    }
  }

  /** The groups of `q`, each as a multiset. */
  function Pieces(q: Partition): (r: seq<multiset<PcbId>>)
    ensures |r| == |q| && forall g :: 0 <= g < |q| ==> r[g] == multiset(q[g])
  {
    seq(|q|, g requires 0 <= g < |q| => multiset(q[g]))
  }

  lemma {:induction false} PiecesSum(q: Partition)
    ensures Sum(Pieces(q)) == multiset(Flatten(q))
    decreases |q|
  {
    if q != [] {
      var n := |q| - 1;
      PiecesSum(q[..n]);
      assert Pieces(q)[..n] == Pieces(q[..n]);
    }
  }

  // ---------------------------------------------------------------------------
  // A search state and the target partition it can still become.

  /** Target group `g`: what the search has put into group `g` so far (nothing
      when the search has not opened it yet), plus what is still to come. */
  function Filled(groups: Partition, rem: seq<multiset<PcbId>>, g: nat): multiset<PcbId>
    requires g < |rem|
  {
    (if g < |groups| then multiset(groups[g]) else multiset{}) + rem[g]
  }

  /** The state `groups` can become the partition `w`, up to the order of the
      members of each group: group `g` of the search is part of group `g` of `w`,
      `rem[g]` is the rest of it, and every non-empty group of `w` is valid. */
  predicate Completes(cat: Catalog, groups: Partition, rem: seq<multiset<PcbId>>, w: Partition)
    requires Complete(cat)
  {
    && |groups| <= |rem| && |w| == |rem| && KnownAll(cat, w)
    && forall g :: 0 <= g < |rem| ==>
         multiset(w[g]) == Filled(groups, rem, g) && (w[g] == [] || ValidGroup(cat, w[g]))
  }

  /** Putting the next PCB into group `c`, which its target group contains. */
  function GrowRem(rem: seq<multiset<PcbId>>, c: nat, x: PcbId): seq<multiset<PcbId>>
    requires c < |rem|
  {
    rem[c := rem[c] - multiset{x}]
  }

  lemma GrowCompletes(cat: Catalog, groups: Partition, rem: seq<multiset<PcbId>>, w: Partition, c: nat, x: PcbId)
    requires Complete(cat) && KnownAll(cat, groups) && x in cat.materials
    requires Completes(cat, groups, rem, w) && c < |groups| && x in rem[c]
    ensures Known(cat, groups[c] + [x]) && ValidGroup(cat, groups[c] + [x])
    ensures Completes(cat, groups[c := groups[c] + [x]], GrowRem(rem, c, x), w)
    ensures Sum(GrowRem(rem, c, x)) == Sum(rem) - multiset{x}
  {
    var grown := groups[c] + [x];
    assert multiset(grown) == multiset(groups[c]) + multiset{x};
    assert multiset(w[c]) == multiset(groups[c]) + rem[c];
    assert rem[c] == multiset{x} + (rem[c] - multiset{x});
    assert Known(cat, w[c]) && Known(cat, groups[c]);
    SubGroupValid(cat, grown, w[c]);
    forall g | 0 <= g < |rem|
      ensures multiset(w[g]) == Filled(groups[c := grown], GrowRem(rem, c, x), g)
    {
      GrowSlot(groups, rem, w, c, x, g);
    }
    GrowSum(rem, c, x);
  }

  lemma GrowSlot(groups: Partition, rem: seq<multiset<PcbId>>, w: Partition, c: nat, x: PcbId, g: nat)
    requires |groups| <= |rem| == |w| && c < |groups| && x in rem[c] && g < |rem|
    requires multiset(w[g]) == Filled(groups, rem, g)
    ensures multiset(w[g]) == Filled(groups[c := groups[c] + [x]], GrowRem(rem, c, x), g)
  {
    var next := groups[c := groups[c] + [x]];
    var rem2 := GrowRem(rem, c, x);
    if g == c {
      assert multiset(next[c]) == multiset(groups[c]) + multiset{x};
      assert rem[c] == multiset{x} + rem2[c];
    } else {
      assert rem2[g] == rem[g];
      if g < |groups| {
        assert next[g] == groups[g];
      }
    }
  }

  lemma GrowSum(rem: seq<multiset<PcbId>>, c: nat, x: PcbId)
    requires c < |rem| && x in rem[c]
    ensures Sum(GrowRem(rem, c, x)) == Sum(rem) - multiset{x}
  {
    SumUpdate(rem, c, rem[c] - multiset{x});
    assert rem[c] == multiset{x} + (rem[c] - multiset{x});
    Cancel(Sum(GrowRem(rem, c, x)) + multiset{x}, Sum(rem), rem[c] - multiset{x});
  }

  /** Opening a new group with the next PCB: its target group `c` moves to the
      position of the new group. */
  function OpenRem(rem: seq<multiset<PcbId>>, n: nat, c: nat, x: PcbId): seq<multiset<PcbId>>
    requires n < |rem| && c < |rem|
  {
    var s := Swap(rem, n, c);
    s[n := s[n] - multiset{x}]
  }

  lemma OpenCompletes(cat: Catalog, groups: Partition, rem: seq<multiset<PcbId>>, w: Partition, c: nat, x: PcbId)
    requires Complete(cat) && KnownAll(cat, groups)
    requires Completes(cat, groups, rem, w) && |groups| <= c < |rem| && x in rem[c]
    ensures Completes(cat, groups + [[x]], OpenRem(rem, |groups|, c, x), Swap(w, |groups|, c))
    ensures Sum(OpenRem(rem, |groups|, c, x)) == Sum(rem) - multiset{x}
  {
    var n := |groups|;
    var w2 := Swap(w, n, c);
    forall g | 0 <= g < |rem|
      ensures Known(cat, w2[g])
      ensures multiset(w2[g]) == Filled(groups + [[x]], OpenRem(rem, n, c, x), g)
      ensures w2[g] == [] || ValidGroup(cat, w2[g])
    {
      OpenSlot(cat, groups, rem, w, c, x, g);
    }
    OpenSum(rem, n, c, x);
  }

  lemma OpenSlot(cat: Catalog, groups: Partition, rem: seq<multiset<PcbId>>, w: Partition, c: nat, x: PcbId, g: nat)
    requires Complete(cat)
    requires Completes(cat, groups, rem, w) && |groups| <= c < |rem| && x in rem[c] && g < |rem|
    ensures Known(cat, Swap(w, |groups|, c)[g])
    ensures multiset(Swap(w, |groups|, c)[g]) == Filled(groups + [[x]], OpenRem(rem, |groups|, c, x), g)
    ensures Swap(w, |groups|, c)[g] == [] || ValidGroup(cat, Swap(w, |groups|, c)[g])
  {
    var n := |groups|;
    var rem2 := OpenRem(rem, n, c, x);
    var next := groups + [[x]];
    var w2 := Swap(w, n, c);
    if g < n {
      assert next[g] == groups[g];
      assert w2[g] == w[g] && rem2[g] == rem[g];
    } else if g == n {
      assert rem[c] == multiset{x} + (rem[c] - multiset{x});
      assert multiset(w2[g]) == rem[c];
      assert multiset(next[g]) == multiset{x};
    } else if g == c {
      assert w2[g] == w[n] && rem2[g] == rem[n];
    } else {
      assert w2[g] == w[g] && rem2[g] == rem[g];
    }
  }

  lemma OpenSum(rem: seq<multiset<PcbId>>, n: nat, c: nat, x: PcbId)
    requires n < |rem| && c < |rem| && x in rem[c]
    ensures Sum(OpenRem(rem, n, c, x)) == Sum(rem) - multiset{x}
  {
    var s := Swap(rem, n, c);
    SumSwap(rem, n, c);
    SumUpdate(s, n, s[n] - multiset{x});
    assert s[n] == multiset{x} + (s[n] - multiset{x});
    Cancel(Sum(OpenRem(rem, n, c, x)) + multiset{x}, Sum(s), s[n] - multiset{x});
  }

  // ---------------------------------------------------------------------------
  // The cell drops only to the size of something yielded.

  /** The cell has not moved, or it holds a count that some yielded partition
      does not exceed. */
  predicate Witnessed(r: Run, b: Bound)
  {
    r.bound == b || (r.bound.AtMost? && exists p :: p in r.found && |p| <= r.bound.k)
  }

  /** Two runs one after the other, the second starting from the first's cell. */
  lemma WitnessedThen(a: Run, b: Run, bound: Bound)
    requires Witnessed(a, bound) && Witnessed(b, a.bound)
    ensures Witnessed(Run(a.found + b.found, b.bound), bound)
  {
    if b.bound != a.bound {
      var p :| p in b.found && |p| <= b.bound.k;
      assert p in a.found + b.found;
    } else if a.bound != bound {
      var p :| p in a.found && |p| <= a.bound.k;
      assert p in a.found + b.found;
    }
  }

  lemma {:induction false} GenerateWitnessed(cat: Catalog, pcbs: seq<PcbId>, groups: Partition, bound: Bound, lowering: bool)
    requires Complete(cat) && Known(cat, pcbs) && KnownAll(cat, groups)
    ensures Witnessed(Generate(cat, pcbs, groups, bound, lowering), bound)
    decreases |pcbs|, 1, 0
  {
    if pcbs == [] {
      assert groups in Generate(cat, pcbs, groups, bound, lowering).found;
    } else if Fits(|groups|, bound) {
      var ext := Extend(cat, pcbs, groups, 0, bound, lowering);
      ExtendWitnessed(cat, pcbs, groups, 0, bound, lowering);
      var single := [pcbs[0]];
      if ValidGroup(cat, single) && Fits(|groups| + 1, ext.bound) {
        KnownOpen(cat, pcbs, groups);
        var sub := Generate(cat, pcbs[1..], groups + [single], ext.bound, true);
        GenerateWitnessed(cat, pcbs[1..], groups + [single], ext.bound, true);
        WitnessedThen(ext, sub, bound);
      }
    }
  }

  lemma {:induction false} ExtendWitnessed(cat: Catalog, pcbs: seq<PcbId>, groups: Partition, i: nat, bound: Bound, lowering: bool)
    requires Complete(cat) && Known(cat, pcbs) && KnownAll(cat, groups)
    requires pcbs != [] && i <= |groups|
    ensures Witnessed(Extend(cat, pcbs, groups, i, bound, lowering), bound)
    decreases |pcbs|, 0, |groups| - i
  {
    if i < |groups| {
      var grown := groups[i] + [pcbs[0]];
      var here :=
        if ValidGroup(cat, grown) then Generate(cat, pcbs[1..], groups[i := grown], bound, lowering)
        else Run([], bound);
      if ValidGroup(cat, grown) {
        GenerateWitnessed(cat, pcbs[1..], groups[i := grown], bound, lowering);
      }
      var rest := Extend(cat, pcbs, groups, i + 1, here.bound, lowering);
      ExtendWitnessed(cat, pcbs, groups, i + 1, here.bound, lowering);
      WitnessedThen(here, rest, bound);
    }
  }

  // ---------------------------------------------------------------------------
  // Following the target partition through the search.

  /** From a state that can become a partition of `|rem|` groups, with that count
      fitting the cell, the search yields a partition of at most `|rem|` groups. */
  lemma {:induction false} GenerateReaches(cat: Catalog, pcbs: seq<PcbId>, groups: Partition, bound: Bound, lowering: bool,
                                           rem: seq<multiset<PcbId>>, w: Partition)
    requires Complete(cat) && Known(cat, pcbs) && KnownAll(cat, groups)
    requires Completes(cat, groups, rem, w) && Sum(rem) == multiset(pcbs) && Fits(|rem|, bound)
    ensures exists p :: p in Generate(cat, pcbs, groups, bound, lowering).found && |p| <= |rem|
    decreases |pcbs|, 1, 0
  {
    var r := Generate(cat, pcbs, groups, bound, lowering);
    if pcbs == [] {
      assert groups in r.found;
    } else {
      assert pcbs[0] in multiset(pcbs);
      var c := SumMember(rem, pcbs[0]);
      if c < |groups| {
        var ext := Extend(cat, pcbs, groups, 0, bound, lowering);
        ExtendReaches(cat, pcbs, groups, 0, bound, lowering, rem, w, c);
        var p :| p in ext.found && |p| <= |rem|;
        assert p in r.found;
      } else {
        OpenReaches(cat, pcbs, groups, bound, lowering, rem, w, c);
      }
    }
  }

  /** The loop over the open groups reaches group `c`, where the next PCB belongs,
      unless an earlier group already yielded a small enough partition. */
  lemma {:induction false} ExtendReaches(cat: Catalog, pcbs: seq<PcbId>, groups: Partition, i: nat, bound: Bound, lowering: bool,
                                         rem: seq<multiset<PcbId>>, w: Partition, c: nat)
    requires Complete(cat) && Known(cat, pcbs) && KnownAll(cat, groups)
    requires Completes(cat, groups, rem, w) && Sum(rem) == multiset(pcbs) && Fits(|rem|, bound)
    requires pcbs != [] && i <= c < |groups| && pcbs[0] in rem[c]
    ensures exists p :: p in Extend(cat, pcbs, groups, i, bound, lowering).found && |p| <= |rem|
    decreases |pcbs|, 0, |groups| - i
  {
    var r := Extend(cat, pcbs, groups, i, bound, lowering);
    var grown := groups[i] + [pcbs[0]];
    var here :=
      if ValidGroup(cat, grown) then Generate(cat, pcbs[1..], groups[i := grown], bound, lowering)
      else Run([], bound);
    var rest := Extend(cat, pcbs, groups, i + 1, here.bound, lowering);
    assert r.found == here.found + rest.found;
    if i == c {
      GrowReaches(cat, pcbs, groups, bound, lowering, rem, w, c);
      var p :| p in here.found && |p| <= |rem|;
      assert p in r.found;
    } else {
      if ValidGroup(cat, grown) {
        GenerateWitnessed(cat, pcbs[1..], groups[i := grown], bound, lowering);
      }
      if Fits(|rem|, here.bound) {
        ExtendReaches(cat, pcbs, groups, i + 1, here.bound, lowering, rem, w, c);
        var p :| p in rest.found && |p| <= |rem|;
        assert p in r.found;
      } else {
        var p :| p in here.found && |p| <= here.bound.k;
        assert p in r.found;
      }
    }
  }

  /** Group `c` takes the next PCB; the target partition stays reachable. */
  lemma {:induction false} GrowReaches(cat: Catalog, pcbs: seq<PcbId>, groups: Partition, bound: Bound, lowering: bool,
                                       rem: seq<multiset<PcbId>>, w: Partition, c: nat)
    requires Complete(cat) && Known(cat, pcbs) && KnownAll(cat, groups)
    requires Completes(cat, groups, rem, w) && Sum(rem) == multiset(pcbs) && Fits(|rem|, bound)
    requires pcbs != [] && c < |groups| && pcbs[0] in rem[c]
    ensures Known(cat, groups[c] + [pcbs[0]]) && ValidGroup(cat, groups[c] + [pcbs[0]])
    ensures KnownAll(cat, groups[c := groups[c] + [pcbs[0]]]) && Known(cat, pcbs[1..])
    ensures exists p :: p in Generate(cat, pcbs[1..], groups[c := groups[c] + [pcbs[0]]], bound, lowering).found && |p| <= |rem|
    decreases |pcbs|, 0, 0
  {
    assert pcbs[0] in pcbs;
    GrowCompletes(cat, groups, rem, w, c, pcbs[0]);
    HeadTail(pcbs);
    GenerateReaches(cat, pcbs[1..], groups[c := groups[c] + [pcbs[0]]], bound, lowering, GrowRem(rem, c, pcbs[0]), w);
  }

  /** The next PCB opens a new group, unless the loop over the open groups already
      yielded a small enough partition. */
  lemma {:induction false} OpenReaches(cat: Catalog, pcbs: seq<PcbId>, groups: Partition, bound: Bound, lowering: bool,
                                       rem: seq<multiset<PcbId>>, w: Partition, c: nat)
    requires Complete(cat) && Known(cat, pcbs) && KnownAll(cat, groups)
    requires Completes(cat, groups, rem, w) && Sum(rem) == multiset(pcbs) && Fits(|rem|, bound)
    requires pcbs != [] && |groups| <= c < |rem| && pcbs[0] in rem[c]
    ensures exists p :: p in Generate(cat, pcbs, groups, bound, lowering).found && |p| <= |rem|
    decreases |pcbs|, 0, 1
  {
    var r := Generate(cat, pcbs, groups, bound, lowering);
    var ext := Extend(cat, pcbs, groups, 0, bound, lowering);
    ExtendWitnessed(cat, pcbs, groups, 0, bound, lowering);
    if !Fits(|rem|, ext.bound) {
      var p :| p in ext.found && |p| <= ext.bound.k;
      assert p in r.found;
    } else {
      KnownOpen(cat, pcbs, groups);
      OpenStep(cat, pcbs, groups, ext.bound, rem, w, c);
      var sub := Generate(cat, pcbs[1..], groups + [[pcbs[0]]], ext.bound, true);
      assert r.found == ext.found + sub.found;
      var p :| p in sub.found && |p| <= |rem|;
      assert p in r.found;
    }
  }

  /** The new group holds the next PCB; the target partition, with its group `c`
      moved to the new group's position, stays reachable. */
  lemma {:induction false} OpenStep(cat: Catalog, pcbs: seq<PcbId>, groups: Partition, bound: Bound,
                                    rem: seq<multiset<PcbId>>, w: Partition, c: nat)
    requires Complete(cat) && Known(cat, pcbs) && KnownAll(cat, groups)
    requires Completes(cat, groups, rem, w) && Sum(rem) == multiset(pcbs) && Fits(|rem|, bound)
    requires pcbs != [] && |groups| <= c < |rem| && pcbs[0] in rem[c]
    ensures Known(cat, pcbs[1..]) && KnownAll(cat, groups + [[pcbs[0]]])
    ensures exists p :: p in Generate(cat, pcbs[1..], groups + [[pcbs[0]]], bound, true).found && |p| <= |rem|
    decreases |pcbs|, 0, 0
  {
    KnownOpen(cat, pcbs, groups);
    OpenCompletes(cat, groups, rem, w, c, pcbs[0]);
    HeadTail(pcbs);
    GenerateReaches(cat, pcbs[1..], groups + [[pcbs[0]]], bound, true, OpenRem(rem, |groups|, c, pcbs[0]), Swap(w, |groups|, c));
  }

  // ---------------------------------------------------------------------------
  // Completeness.

  /** For every valid partition `q` of the PCBs whose group count fits the bound,
      the search yields a partition with no more groups than `q`. */
  lemma SearchComplete(cat: Catalog, pcbs: seq<PcbId>, q: Partition, bound: Bound, lowering: bool)
    requires Complete(cat) && Known(cat, pcbs) && IsPartitionOf(cat, q, pcbs) && Fits(|q|, bound)
    ensures exists p :: p in Generate(cat, pcbs, [], bound, lowering).found && |p| <= |q|
  {
    PiecesSum(q);
    GenerateReaches(cat, pcbs, [], bound, lowering, Pieces(q), q);
  }

  /** A worker's probe with bound k succeeds whenever the PCBs can be split into
      at least one and at most k valid groups. */
  lemma PartitionSucceeds(cat: Catalog, pcbs: seq<PcbId>, q: Partition, k: nat)
    requires Complete(cat) && Known(cat, pcbs) && IsPartitionOf(cat, q, pcbs) && 0 < |q| <= k
    ensures Succeeds(cat, pcbs, k)
  {
    SearchComplete(cat, pcbs, q, AtMost(k), false);
    SearchYieldsPartitions(cat, pcbs, AtMost(k), false);
    var found := Generate(cat, pcbs, [], AtMost(k), false).found;
    assert found[0] in found;
    assert |Flatten(q)| >= |q[|q| - 1]| > 0;
    assert |multiset(Flatten(found[0]))| > 0;
  }

  /** The probe fails only when no valid partition has so few groups. */
  lemma NoPartitionBelowFailure(cat: Catalog, pcbs: seq<PcbId>, q: Partition)
    requires Complete(cat) && Known(cat, pcbs) && IsPartitionOf(cat, q, pcbs) && pcbs != []
    ensures 0 < |q| && Succeeds(cat, pcbs, |q|)
  {
    assert q != [] by {
      assert pcbs[0] in multiset(pcbs);
    }
    PartitionSucceeds(cat, pcbs, q, |q|);
  }
}
