/** The seed-pair search of algorithms/bruteforce/parallel.py and
    Algorithms/BruteForce/BruteForcing_Parallel.py (`find_permute`,
    `process_pair`, `main`).

    For each anchor position i, the anchor `pcb_list[i]` is paired with every
    later PCB it forms a valid group with; each pair seeds a search over the
    PCBs that are neither in the pair nor before the anchor, with the bound
    fixed at `min_gp`; the PCBs before the anchor are re-attached as singleton
    groups, and the partitions with exactly `min_gp` groups are recorded as
    order-free keys (a set of sets). The pool of workers is modelled as a loop
    over the pairs, and `output_list` as the concatenation of what each pair
    recorded. */
module SeedSearch {
  import opened Common
  import opened Grouping
  import opened Enumerator
  import opened EnumeratorFacts

  /** No element occurs twice. */
  predicate Distinct<T(==)>(s: seq<T>)
  {
    forall i, j :: 0 <= i < j < |s| ==> s[i] != s[j]
  }

  /** The elements of a sequence. */
  function Elements<T(==)>(s: seq<T>): set<T>
  {
    set x | x in s
  }

  /** `list(some_set)`: the elements in some order, each once. */
  method SetToSeq<T(==)>(s: set<T>) returns (r: seq<T>)
    ensures Elements(r) == s && Distinct(r) && |r| == |s|
  {
    r := [];
    var rest := s;
    while rest != {}
      invariant Elements(r) + rest == s && Elements(r) !! rest && Distinct(r)
      invariant |r| + |rest| == |s|
      decreases |rest|
    {
      var x :| x in rest;
      ElementsSnoc(r, x);
      DistinctSize(r);
      r := r + [x];
      rest := rest - {x};
    }
  }

  lemma ElementsSnoc<T>(r: seq<T>, x: T)
    ensures Elements(r + [x]) == Elements(r) + {x}
  {
    assert forall y :: y in r + [x] <==> y in r || y == x;
  }

  lemma {:induction false} DistinctSize<T>(r: seq<T>)
    requires Distinct(r)
    ensures |Elements(r)| == |r|
  {
    if r != [] {
      var init := r[..|r| - 1];
      assert r == init + [r[|r| - 1]];
      DistinctSize(init);
      ElementsSnoc(init, r[|r| - 1]);
    }
  }

  // ---------------------------------------------------------------------------
  // `find_permute`.

  /** The PCBs of `rest` that form a valid group with `head`, in their order. */
  function Partners(cat: Catalog, head: PcbId, rest: seq<PcbId>): (r: seq<PcbId>)
    requires Complete(cat) && head in cat.materials && Known(cat, rest)
    ensures |r| <= |rest|
  {
    if rest == [] then []
    else
      var init := Partners(cat, head, rest[..|rest| - 1]);
      var last := rest[|rest| - 1];
      if ValidGroup(cat, [head, last]) then init + [last] else init
  }

  lemma {:induction false} PartnersMembers(cat: Catalog, head: PcbId, rest: seq<PcbId>)
    requires Complete(cat) && head in cat.materials && Known(cat, rest)
    ensures forall x :: x in Partners(cat, head, rest) <==> x in rest && ValidGroup(cat, [head, x])
  {
    if rest != [] {
      PartnersMembers(cat, head, rest[..|rest| - 1]);
      assert forall x :: x in rest <==> x in rest[..|rest| - 1] || x == rest[|rest| - 1];
    }
  }

  /** `[head, x]` for each x, in order. */
  function PairsWith(head: PcbId, xs: seq<PcbId>): (r: seq<Group>)
    ensures |r| == |xs|
  {
    if xs == [] then [] else PairsWith(head, xs[..|xs| - 1]) + [[head, xs[|xs| - 1]]]
  }

  lemma {:induction false} PairsWithAt(head: PcbId, xs: seq<PcbId>)
    ensures forall j :: 0 <= j < |xs| ==> PairsWith(head, xs)[j] == [head, xs[j]]
  {
    if xs != [] {
      PairsWithAt(head, xs[..|xs| - 1]);
    }
  }

  /** What `find_permute(pcb_list)` returns. */
  function PairsOf(cat: Catalog, s: seq<PcbId>): seq<Group>
    requires Complete(cat) && Known(cat, s)
  {
    if s == [] then [] else PairsWith(s[0], Partners(cat, s[0], s[1..]))
  }

  /** Only pairs of the head with a later PCB, each passing the capacity check;
      every valid partner is paired; at most len-1 pairs, none for a list of at
      most one PCB. */
  lemma PairsOfShape(cat: Catalog, s: seq<PcbId>)
    requires Complete(cat) && Known(cat, s)
    ensures |s| <= 1 ==> PairsOf(cat, s) == []
    ensures s != [] ==> |PairsOf(cat, s)| <= |s| - 1
    ensures forall p :: p in PairsOf(cat, s) ==> PairOf(cat, s, p)
    ensures s != [] ==> forall x :: x in s[1..] && ValidGroup(cat, [s[0], x]) ==> [s[0], x] in PairsOf(cat, s)
  {
    if s != [] {
      var ps := Partners(cat, s[0], s[1..]);
      PartnersMembers(cat, s[0], s[1..]);
      PairsWithAt(s[0], ps);
      var pairs := PairsOf(cat, s);
      forall p | p in pairs ensures PairOf(cat, s, p) {
        var j :| 0 <= j < |pairs| && pairs[j] == p;
        assert p == [s[0], ps[j]] && ps[j] in ps;
      }
      forall x | x in s[1..] && ValidGroup(cat, [s[0], x]) ensures [s[0], x] in pairs {
        var j :| 0 <= j < |ps| && ps[j] == x;
        assert pairs[j] == [s[0], x];
      }
    }
  }

  /** `p` is `[s[0], x]` for a later PCB x of `s` that forms a valid group with `s[0]`. */
  predicate PairOf(cat: Catalog, s: seq<PcbId>, p: Group)
    requires Complete(cat) && Known(cat, s)
  {
    s != [] && |p| == 2 && p[0] == s[0] && p[1] in s[1..] && ValidGroup(cat, [s[0], p[1]])
  }

  /** `find_permute`. */
  method FindPermute(cat: Catalog, pcbList: seq<PcbId>) returns (pairList: seq<Group>)
    requires Complete(cat) && Known(cat, pcbList)
    ensures pairList == PairsOf(cat, pcbList)
  {
    if pcbList == [] {
      return [];
    }
    pairList := PairsLoop(cat, pcbList[0], pcbList[1..]);
  }

  /** `find_permute`'s loop over the PCBs after the head. */
  method PairsLoop(cat: Catalog, head: PcbId, rest: seq<PcbId>) returns (pairList: seq<Group>)
    requires Complete(cat) && head in cat.materials && Known(cat, rest)
    ensures pairList == PairsWith(head, Partners(cat, head, rest))
  {
    pairList := [];
    for j := 0 to |rest|
      invariant pairList == PairsWith(head, Partners(cat, head, rest[..j]))
    {
      pairList := TryPartner(cat, head, rest[..j], rest[j], pairList);
      assert rest[..j] + [rest[j]] == rest[..j + 1];
    }
    assert rest[..|rest|] == rest;
  }

  /** One iteration of `find_permute`'s loop: `[head, x]` is appended when it
      passes the capacity check. */
  method TryPartner(cat: Catalog, head: PcbId, done: seq<PcbId>, x: PcbId, pairList: seq<Group>)
    returns (r: seq<Group>)
    requires Complete(cat) && head in cat.materials && Known(cat, done) && x in cat.materials
    requires pairList == PairsWith(head, Partners(cat, head, done))
    ensures r == PairsWith(head, Partners(cat, head, done + [x]))
  {
    var possibleGroup := [head, x];
    var ok := IsValidGroup(cat, possibleGroup);
    PartnersStep(cat, head, done, x);
    r := if ok then pairList + [possibleGroup] else pairList;
  }

  lemma PartnersStep(cat: Catalog, head: PcbId, rest: seq<PcbId>, x: PcbId)
    requires Complete(cat) && head in cat.materials && Known(cat, rest) && x in cat.materials
    ensures PairsWith(head, Partners(cat, head, rest + [x])) ==
      PairsWith(head, Partners(cat, head, rest)) + (if ValidGroup(cat, [head, x]) then [[head, x]] else [])
  {
    var s := rest + [x];
    assert s[..|s| - 1] == rest && s[|s| - 1] == x;
    var init := Partners(cat, head, rest);
    if ValidGroup(cat, [head, x]) {
      assert Partners(cat, head, s) == init + [x];
      assert (init + [x])[..|init|] == init;
    } else {
      assert Partners(cat, head, s) == init;
    }
  }

  // ---------------------------------------------------------------------------
  // `process_pair`: the filtered list.

  /** `list.remove(x)`: drops the first occurrence; ValueError (None) when absent. */
  function RemoveFirst(s: seq<PcbId>, x: PcbId): (r: Option<seq<PcbId>>)
    ensures r.None? <==> x !in s
  {
    if s == [] then None
    else if s[0] == x then Some(s[1..])
    else
      match RemoveFirst(s[1..], x)
      case None => None
      case Some(t) => Some([s[0]] + t)
  }

  /** `remove` applied for each element of `xs` in turn. */
  function RemoveAll(s: seq<PcbId>, xs: seq<PcbId>): Option<seq<PcbId>>
  {
    if xs == [] then Some(s)
    else
      match RemoveAll(s, xs[..|xs| - 1])
      case None => None
      case Some(t) => RemoveFirst(t, xs[|xs| - 1])
  }

  /** A successful `remove` takes away exactly one copy of x. */
  lemma {:induction false} RemoveFirstCount(s: seq<PcbId>, x: PcbId)
    requires RemoveFirst(s, x).Some?
    ensures multiset(RemoveFirst(s, x).value) + multiset{x} == multiset(s)
  {
    assert s == [s[0]] + s[1..];
    if s[0] != x {
      RemoveFirstCount(s[1..], x);
    }
  }

  /** Successful removals take away exactly the removed elements. */
  lemma {:induction false} RemoveAllCount(s: seq<PcbId>, xs: seq<PcbId>)
    requires RemoveAll(s, xs).Some?
    ensures multiset(RemoveAll(s, xs).value) + multiset(xs) == multiset(s)
  {
    if xs != [] {
      var init := xs[..|xs| - 1];
      assert xs == init + [xs[|xs| - 1]];
      RemoveAllCount(s, init);
      RemoveFirstCount(RemoveAll(s, init).value, xs[|xs| - 1]);
    }
  }

  /** `s` without the elements of `xs`, order kept. */
  function Without(s: seq<PcbId>, xs: seq<PcbId>): (r: seq<PcbId>)
    ensures forall y :: y in r <==> y in s && y !in xs
  {
    if s == [] then []
    else
      assert forall y :: y in s <==> y == s[0] || y in s[1..];
      (if s[0] in xs then [] else [s[0]]) + Without(s[1..], xs)
  }

  lemma {:induction false} WithoutDistinct(s: seq<PcbId>, xs: seq<PcbId>)
    requires Distinct(s)
    ensures Distinct(Without(s, xs))
  {
    if s != [] {
      WithoutDistinct(s[1..], xs);
    }
  }

  lemma {:induction false} WithoutNothing(s: seq<PcbId>, xs: seq<PcbId>)
    requires forall y :: y in s ==> y !in xs
    ensures Without(s, xs) == s
  {
    if s != [] {
      WithoutNothing(s[1..], xs);
      assert s == [s[0]] + s[1..];
    }
  }

  lemma {:induction false} WithoutTwice(s: seq<PcbId>, a: seq<PcbId>, b: seq<PcbId>)
    ensures Without(Without(s, a), b) == Without(s, a + b)
  {
    if s != [] {
      WithoutTwice(s[1..], a, b);
      var head := if s[0] in a then [] else [s[0]];
      assert Without(s, a) == head + Without(s[1..], a);
      if s[0] !in a {
        assert Without(s, a)[0] == s[0] && Without(s, a)[1..] == Without(s[1..], a);
      } else {
        assert Without(s, a) == Without(s[1..], a);
      }
    }
  }

  lemma {:induction false} RemoveFirstDistinct(t: seq<PcbId>, x: PcbId)
    requires Distinct(t) && x in t
    ensures RemoveFirst(t, x) == Some(Without(t, [x]))
  {
    if t[0] == x {
      forall y | y in t[1..] ensures y !in [x] {
        var k :| 0 <= k < |t[1..]| && t[1..][k] == y;
        assert t[k + 1] == y;
      }
      WithoutNothing(t[1..], [x]);
      assert Without(t, [x]) == Without(t[1..], [x]);
    } else {
      RemoveFirstDistinct(t[1..], x);
    }
  }

  /** On a list without repeats, removing distinct members one by one leaves
      the list without them, in the original order. */
  lemma {:induction false} RemoveAllDistinct(s: seq<PcbId>, xs: seq<PcbId>)
    requires Distinct(s) && Distinct(xs) && forall x :: x in xs ==> x in s
    ensures RemoveAll(s, xs) == Some(Without(s, xs))
  {
    if xs == [] {
      WithoutNothing(s, xs);
    } else {
      var init := xs[..|xs| - 1];
      var last := xs[|xs| - 1];
      assert xs == init + [last];
      RemoveAllDistinct(s, init);
      WithoutDistinct(s, init);
      RemoveFirstDistinct(Without(s, init), last);
      WithoutTwice(s, init, [last]);
    }
  }

  /** The first loops of `process_pair`: remove both pair members, then the
      first i PCBs. */
  method FilteredList(pcbList: seq<PcbId>, pair: Group, i: nat) returns (r: Option<seq<PcbId>>)
    requires i <= |pcbList|
    ensures r == RemoveAll(pcbList, pair + pcbList[..i])
  {
    RemoveAllAppend(pcbList, pair, pcbList[..i]);
    var withoutPair := RemoveEach(pcbList, pair);
    if withoutPair.None? {
      return None;
    }
    r := RemoveEach(withoutPair.value, pcbList[..i]);
  }

  /** `for x in xs: s.remove(x)` on a copy of `s`; None once a removal raises ValueError. */
  method RemoveEach(s: seq<PcbId>, xs: seq<PcbId>) returns (r: Option<seq<PcbId>>)
    ensures r == RemoveAll(s, xs)
  {
    var filtered := s;
    for k := 0 to |xs|
      invariant RemoveAll(s, xs[..k]) == Some(filtered)
    {
      assert xs[..k + 1][..k] == xs[..k];
      var next := RemoveFirst(filtered, xs[k]);
      if next.None? {
        RemoveAllAppend(s, xs[..k + 1], xs[k + 1..]);
        assert xs[..k + 1] + xs[k + 1..] == xs;
        return None;
      }
      filtered := next.value;
    }
    assert xs[..|xs|] == xs;
    r := Some(filtered);
  }

  /** Removing `xs` and then `ys` is removing `xs + ys`; a failure stops everything. */
  lemma {:induction false} RemoveAllAppend(s: seq<PcbId>, xs: seq<PcbId>, ys: seq<PcbId>)
    ensures RemoveAll(s, xs + ys) ==
      match RemoveAll(s, xs)
      case None => None
      case Some(t) => RemoveAll(t, ys)
    decreases |ys|
  {
    if ys == [] {
      assert xs + ys == xs;
    } else {
      var init := ys[..|ys| - 1];
      RemoveAllAppend(s, xs, init);
      assert (xs + ys)[..|xs + ys| - 1] == xs + init;
      assert (xs + ys)[|xs + ys| - 1] == ys[|ys| - 1];
    }
  }

  // ---------------------------------------------------------------------------
  // `process_pair`: the search and the recorded keys.

  /** `frozenset(frozenset(group) for group in combination)`. */
  type Key = set<set<PcbId>>

  function KeyOf(p: Partition): Key
  {
    set j | 0 <= j < |p| :: Elements(p[j])
  }

  /** The anchors re-attached as one singleton group each, in order. */
  function Singletons(anchors: seq<PcbId>): (r: Partition)
    ensures |r| == |anchors|
  {
    if anchors == [] then [] else Singletons(anchors[..|anchors| - 1]) + [[anchors[|anchors| - 1]]]
  }

  lemma {:induction false} SingletonsShape(anchors: seq<PcbId>)
    ensures forall j :: 0 <= j < |anchors| ==> Singletons(anchors)[j] == [anchors[j]]
    ensures Flatten(Singletons(anchors)) == anchors
  {
    if anchors != [] {
      var init := anchors[..|anchors| - 1];
      SingletonsShape(init);
      FlattenAppend(Singletons(init), [[anchors[|anchors| - 1]]]);
      FlattenSingle([anchors[|anchors| - 1]]);
      assert anchors == init + [anchors[|anchors| - 1]];
    }
  }

  /** The keys recorded for the yielded partitions `found`: each partition with
      the anchors appended, when that makes exactly `minGp` groups. */
  function Recorded(found: seq<Partition>, anchors: seq<PcbId>, minGp: nat): seq<Key>
  {
    if found == [] then []
    else
      var p := found[|found| - 1] + Singletons(anchors);
      Recorded(found[..|found| - 1], anchors, minGp) + (if |p| == minGp then [KeyOf(p)] else [])
  }

  lemma {:induction false} RecordedFrom(found: seq<Partition>, anchors: seq<PcbId>, minGp: nat, key: Key)
    requires key in Recorded(found, anchors, minGp)
    ensures exists p :: p in found && |p| + |anchors| == minGp && key == KeyOf(p + Singletons(anchors))
  {
    var init := found[..|found| - 1];
    var last := found[|found| - 1];
    if key in Recorded(init, anchors, minGp) {
      RecordedFrom(init, anchors, minGp, key);
      var p :| p in init && |p| + |anchors| == minGp && key == KeyOf(p + Singletons(anchors));
      assert p in found;
    } else {
      assert last in found;
    }
  }

  lemma RemoveAllKnown(cat: Catalog, s: seq<PcbId>, xs: seq<PcbId>)
    requires Known(cat, s) && RemoveAll(s, xs).Some?
    ensures Known(cat, RemoveAll(s, xs).value)
  {
    var r := RemoveAll(s, xs).value;
    RemoveAllCount(s, xs);
    forall x | x in r ensures x in cat.materials {
      assert x in multiset(r);
      assert x in multiset(s);
    }
  }

  /** What `process_pair(pair, pcb_list, ..., min_gp, output_list, i)` appends
      to `output_list`, or None when a `remove` raises ValueError. */
  function SeedKeys(cat: Catalog, pair: Group, pcbList: seq<PcbId>, minGp: nat, i: nat): Option<seq<Key>>
    requires Complete(cat) && Known(cat, pcbList) && Known(cat, pair) && i <= |pcbList|
  {
    match RemoveAll(pcbList, pair + pcbList[..i])
    case None => None
    case Some(filtered) =>
      RemoveAllKnown(cat, pcbList, pair + pcbList[..i]);
      var found := Generate(cat, filtered, [pair], AtMost(minGp), false).found;
      Some(Recorded(found, pcbList[..i], minGp))
  }

  /** `process_pair`. */
  method ProcessPair(cat: Catalog, pair: Group, pcbList: seq<PcbId>, minGp: nat, i: nat) returns (outputList: Option<seq<Key>>)
    requires Complete(cat) && Known(cat, pcbList) && Known(cat, pair) && i <= |pcbList|
    ensures outputList == SeedKeys(cat, pair, pcbList, minGp, i)
  {
    var filtered := FilteredList(pcbList, pair, i);
    if filtered.None? {
      return None;
    }
    RemoveAllKnown(cat, pcbList, pair + pcbList[..i]);
    var found := Generate(cat, filtered.value, [pair], AtMost(minGp), false).found;
    var recorded: seq<Key> := [];
    for c := 0 to |found|
      invariant recorded == Recorded(found[..c], pcbList[..i], minGp)
    {
      var combination := found[c];
      for j := 0 to i
        invariant combination == found[c] + Singletons(pcbList[..j])
      {
        assert pcbList[..j + 1][..j] == pcbList[..j];
        combination := combination + [[pcbList[j]]];
      }
      assert found[..c + 1][..c] == found[..c];
      if |combination| == minGp {
        recorded := recorded + [KeyOf(combination)];
      }
    }
    assert found[..|found|] == found;
    outputList := Some(recorded);
  }

  /** A partition `process_pair` records, before it is turned into a key: a
      partition of the whole list into `minGp` valid groups whose first group
      starts with the seed pair and whose last i groups are the anchors
      `pcb_list[0..i-1]` as singletons. */
  predicate SeedPartition(cat: Catalog, pcbList: seq<PcbId>, pair: Group, i: nat, minGp: nat, q: Partition)
    requires Complete(cat) && i <= |pcbList|
  {
    && IsPartitionOf(cat, q, pcbList)
    && |q| == minGp && i < |q|
    && pair <= q[0]
    && q[|q| - i..] == Singletons(pcbList[..i])
  }

  /** For a list without repeats, `process_pair` on a pair found by
      `find_permute(pcb_list[i:])` never raises, and every key it records is the
      key of a seed partition. */
  lemma SeedKeysArePartitions(cat: Catalog, pair: Group, pcbList: seq<PcbId>, minGp: nat, i: nat)
    requires Complete(cat) && Known(cat, pcbList) && Distinct(pcbList) && i < |pcbList|
    requires pair in PairsOf(cat, pcbList[i..])
    ensures Known(cat, pair)
    ensures SeedKeys(cat, pair, pcbList, minGp, i).Some?
    ensures forall key :: key in SeedKeys(cat, pair, pcbList, minGp, i).value ==>
      exists q :: SeedPartition(cat, pcbList, pair, i, minGp, q) && key == KeyOf(q)
  {
    PairsOfShape(cat, pcbList[i..]);
    assert PairOf(cat, pcbList[i..], pair);
    assert pcbList[i..][1..] == pcbList[i + 1..];
    assert pair == [pcbList[i], pair[1]];
    var removals := pair + pcbList[..i];
    RemovalsDistinct(pcbList, pair, i);
    RemoveAllDistinct(pcbList, removals);
    var filtered := Without(pcbList, removals);
    RemoveAllKnown(cat, pcbList, removals);
    var found := Generate(cat, filtered, [pair], AtMost(minGp), false).found;
    var anchors := pcbList[..i];
    forall key | key in SeedKeys(cat, pair, pcbList, minGp, i).value
      ensures exists q :: SeedPartition(cat, pcbList, pair, i, minGp, q) && key == KeyOf(q)
    {
      RecordedFrom(found, anchors, minGp, key);
      var p :| p in found && |p| + |anchors| == minGp && key == KeyOf(p + Singletons(anchors));
      SeedPartitionOf(cat, pcbList, pair, i, minGp, p);
    }
  }

  lemma RemovalsDistinct(pcbList: seq<PcbId>, pair: Group, i: nat)
    requires Distinct(pcbList) && i < |pcbList|
    requires |pair| == 2 && pair[0] == pcbList[i] && pair[1] in pcbList[i + 1..]
    ensures Distinct(pair + pcbList[..i])
    ensures forall x :: x in pair + pcbList[..i] ==> x in pcbList
  {
    var xs := pair + pcbList[..i];
    var k :| i + 1 <= k < |pcbList| && pcbList[k] == pair[1];
    forall a, b | 0 <= a < b < |xs| ensures xs[a] != xs[b] {
      if a == 0 && b == 1 {
        assert xs[a] == pcbList[i] && xs[b] == pcbList[k];
      } else if a <= 1 {
        assert xs[b] == pcbList[b - 2];
      }
    }
  }

  /** One yielded partition of the seeded search, with the anchors appended. */
  lemma SeedPartitionOf(cat: Catalog, pcbList: seq<PcbId>, pair: Group, i: nat, minGp: nat, p: Partition)
    requires Complete(cat) && Known(cat, pcbList) && Distinct(pcbList) && i < |pcbList|
    requires |pair| == 2 && pair[0] == pcbList[i] && pair[1] in pcbList[i + 1..]
    requires Known(cat, pair) && ValidGroup(cat, pair)
    requires Known(cat, Without(pcbList, pair + pcbList[..i]))
    requires p in Generate(cat, Without(pcbList, pair + pcbList[..i]), [pair], AtMost(minGp), false).found
    requires |p| + i == minGp
    ensures SeedPartition(cat, pcbList, pair, i, minGp, p + Singletons(pcbList[..i]))
  {
    var anchors := pcbList[..i];
    var removals := pair + anchors;
    var filtered := Without(pcbList, removals);
    RemovalsDistinct(pcbList, pair, i);
    RemoveAllDistinct(pcbList, removals);
    RemoveAllCount(pcbList, removals);
    AnchoredGroups(cat, pair, filtered, anchors, minGp, p);
    AnchoredCount(cat, pair, filtered, anchors, minGp, p);
    var q := p + Singletons(anchors);
    assert q[|q| - i..] == Singletons(anchors);
    assert multiset(Flatten(q)) == multiset(pcbList);
  }

  /** The groups of a seeded partition with the anchors appended: the seed pair
      opens the first group, and every group is non-empty and valid. */
  lemma AnchoredGroups(cat: Catalog, pair: Group, filtered: seq<PcbId>, anchors: seq<PcbId>, minGp: nat, p: Partition)
    requires Complete(cat) && Known(cat, pair) && pair != [] && ValidGroup(cat, pair)
    requires Known(cat, filtered) && Known(cat, anchors)
    requires p in Generate(cat, filtered, [pair], AtMost(minGp), false).found
    ensures var q := p + Singletons(anchors);
      && |q| == |p| + |anchors| && 1 <= |p| && pair <= q[0]
      && forall j :: 0 <= j < |q| ==> Known(cat, q[j]) && q[j] != [] && ValidGroup(cat, q[j])
  {
    GenerateShape(cat, filtered, [pair], AtMost(minGp), false);
    SingletonsShape(anchors);
    var q := p + Singletons(anchors);
    forall j | 0 <= j < |q| ensures Known(cat, q[j]) && q[j] != [] && ValidGroup(cat, q[j]) {
      if j >= |p| {
        assert q[j] == [anchors[j - |p|]];
      } else {
        assert q[j] == p[j];
        if j == 0 {
          assert pair <= p[0];
        }
      }
    }
  }

  /** A seeded partition with the anchors appended holds the pair, the filtered
      list and the anchors. */
  lemma AnchoredCount(cat: Catalog, pair: Group, filtered: seq<PcbId>, anchors: seq<PcbId>, minGp: nat, p: Partition)
    requires Complete(cat) && Known(cat, pair) && Known(cat, filtered)
    requires p in Generate(cat, filtered, [pair], AtMost(minGp), false).found
    ensures multiset(Flatten(p + Singletons(anchors))) == multiset(pair) + multiset(filtered) + multiset(anchors)
  {
    GenerateCovers(cat, filtered, [pair], AtMost(minGp), false);
    SingletonsShape(anchors);
    FlattenSingle(pair);
    FlattenAppend(p, Singletons(anchors));
  }

  // ---------------------------------------------------------------------------
  // `main`.

  /** The keys recorded for the pairs `pairs` at anchor position i. */
  function KeysAt(cat: Catalog, pcbList: seq<PcbId>, minGp: nat, i: nat, pairs: seq<Group>): set<Key>
    requires Complete(cat) && Known(cat, pcbList) && i <= |pcbList|
    requires forall p :: p in pairs ==> Known(cat, p)
  {
    if pairs == [] then {}
    else
      var last := SeedKeys(cat, pairs[|pairs| - 1], pcbList, minGp, i);
      KeysAt(cat, pcbList, minGp, i, pairs[..|pairs| - 1]) + (if last.Some? then Elements(last.value) else {})
  }

  lemma PairsKnown(cat: Catalog, s: seq<PcbId>)
    requires Complete(cat) && Known(cat, s)
    ensures forall p :: p in PairsOf(cat, s) ==> Known(cat, p)
  {
    PairsOfShape(cat, s);
  }

  /** The keys recorded for the anchor positions 0..n-1. */
  function KeysUpTo(cat: Catalog, pcbList: seq<PcbId>, minGp: nat, n: nat): set<Key>
    requires Complete(cat) && Known(cat, pcbList) && n <= |pcbList|
  {
    if n == 0 then {}
    else
      PairsKnown(cat, pcbList[n - 1..]);
      KeysUpTo(cat, pcbList, minGp, n - 1) + KeysAt(cat, pcbList, minGp, n - 1, PairsOf(cat, pcbList[n - 1..]))
  }

  /** `main(pcb_list, ..., min_gp)`: every pair at every anchor position, the
      recorded keys collected into a set, and the set listed. */
  method MainSearch(cat: Catalog, pcbList: seq<PcbId>, minGp: nat) returns (best: seq<Key>)
    requires Complete(cat) && Known(cat, pcbList) && Distinct(pcbList)
    ensures Distinct(best)
    ensures Elements(best) == KeysUpTo(cat, pcbList, minGp, |pcbList|)
  {
    var outputList: seq<Key> := [];
    for i := 0 to |pcbList|
      invariant Elements(outputList) == KeysUpTo(cat, pcbList, minGp, i)
    {
      var pairs := FindPermute(cat, pcbList[i..]);
      var recorded := ProcessPairs(cat, pcbList, minGp, i, pairs);
      ElementsAppend(outputList, recorded);
      outputList := outputList + recorded;
    }
    var bestSet := CollectKeys(outputList);
    best := SetToSeq(bestSet);
  }

  /** One `pool.starmap_async(process_pair, all_pairs).get()`: what the pairs of
      anchor position i append to `output_list`. */
  method ProcessPairs(cat: Catalog, pcbList: seq<PcbId>, minGp: nat, i: nat, pairs: seq<Group>) returns (recorded: seq<Key>)
    requires Complete(cat) && Known(cat, pcbList) && Distinct(pcbList) && i < |pcbList|
    requires pairs == PairsOf(cat, pcbList[i..])
    ensures forall p :: p in pairs ==> Known(cat, p)
    ensures Elements(recorded) == KeysAt(cat, pcbList, minGp, i, pairs)
  {
    PairsKnown(cat, pcbList[i..]);
    recorded := [];
    for k := 0 to |pairs|
      invariant Elements(recorded) == KeysAt(cat, pcbList, minGp, i, pairs[..k])
    {
      assert pairs[..k + 1][..k] == pairs[..k];
      SeedKeysArePartitions(cat, pairs[k], pcbList, minGp, i);
      var out := ProcessPair(cat, pairs[k], pcbList, minGp, i);
      ElementsAppend(recorded, out.value);
      recorded := recorded + out.value;
    }
    assert pairs[..|pairs|] == pairs;
  }

  /** `for combination in output_list: best_combinations_set.add(combination)`. */
  method CollectKeys(outputList: seq<Key>) returns (bestSet: set<Key>)
    ensures bestSet == Elements(outputList)
  {
    bestSet := {};
    for c := 0 to |outputList|
      invariant bestSet == Elements(outputList[..c])
    {
      assert outputList[..c + 1] == outputList[..c] + [outputList[c]];
      ElementsSnoc(outputList[..c], outputList[c]);
      bestSet := bestSet + {outputList[c]};
    }
    assert outputList[..|outputList|] == outputList;
  }

  lemma ElementsAppend<T>(a: seq<T>, b: seq<T>)
    ensures Elements(a + b) == Elements(a) + Elements(b)
  {
    assert forall y :: y in a + b <==> y in a || y in b;
  }

  /** Every key `main` returns is the key of a partition of the whole list into
      exactly `min_gp` valid groups, in which some anchor shares a group with a
      later PCB and the PCBs before that anchor are singletons. */
  lemma {:induction false} MainKeysArePartitions(cat: Catalog, pcbList: seq<PcbId>, minGp: nat, n: nat, key: Key)
    requires Complete(cat) && Known(cat, pcbList) && Distinct(pcbList) && n <= |pcbList|
    requires key in KeysUpTo(cat, pcbList, minGp, n)
    ensures exists i, pair, q ::
      0 <= i < n && SeedPartition(cat, pcbList, pair, i, minGp, q) && |pair| == 2 && pair[0] == pcbList[i] && key == KeyOf(q)
  {
    var i := n - 1;
    PairsKnown(cat, pcbList[i..]);
    var pairs := PairsOf(cat, pcbList[i..]);
    if key in KeysUpTo(cat, pcbList, minGp, i) {
      MainKeysArePartitions(cat, pcbList, minGp, i, key);
    } else {
      var pair := KeysAtFrom(cat, pcbList, minGp, i, pairs, key);
      PairsOfShape(cat, pcbList[i..]);
      SeedKeysArePartitions(cat, pair, pcbList, minGp, i);
    }
  }

  lemma {:induction false} KeysAtFrom(cat: Catalog, pcbList: seq<PcbId>, minGp: nat, i: nat, pairs: seq<Group>, key: Key)
    returns (pair: Group)
    requires Complete(cat) && Known(cat, pcbList) && i <= |pcbList|
    requires forall p :: p in pairs ==> Known(cat, p)
    requires key in KeysAt(cat, pcbList, minGp, i, pairs)
    ensures pair in pairs && SeedKeys(cat, pair, pcbList, minGp, i).Some?
    ensures key in SeedKeys(cat, pair, pcbList, minGp, i).value
  {
    var init := pairs[..|pairs| - 1];
    if key in KeysAt(cat, pcbList, minGp, i, init) {
      pair := KeysAtFrom(cat, pcbList, minGp, i, init, key);
    } else {
      pair := pairs[|pairs| - 1];
    }
  }
}
