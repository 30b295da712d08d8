/** `worker` and `find_first_combination`, as in algorithms/bruteforce/parallel.py,
    algorithms/bruteforce/hybrid.py and Algorithms/BruteForce/BruteForcing_Parallel.py.

    One worker per bound k = 1..max_num_group asks whether the bound-k search
    yields a non-empty first partition and, if so, lowers the shared integer to k
    when k is smaller. The workers run as separate processes and the lowering is
    done under a lock; since each worker only ever replaces the value by a
    smaller one, the final value does not depend on the order the workers
    finish in: `FindFirstCombination` runs them one after the other, k ascending,
    and `RunWorkers` in any order, with the same result. */
module BoundFinder {
  import opened Grouping
  import opened Enumerator
  import opened EnumeratorFacts
  import opened EnumeratorComplete

  /** `shared_mingp`, the integer the workers lower under the lock. */
  class SharedMin {
    var value: nat

    constructor (init: nat)
      ensures value == init
    {
      value := init;
    }

    /** `worker(min_group, ...)`: `next(...)` on the bound-k search; a truthy
        first partition lowers the shared value to k when k is smaller, an empty
        partition or an exhausted search leaves it alone. */
    method Worker(cat: Catalog, pcbList: seq<PcbId>, k: nat)
      requires Complete(cat) && Known(cat, pcbList)
      modifies this
      ensures value <= old(value)
      ensures value != old(value) ==> value == k && Succeeds(cat, pcbList, k)
      ensures Succeeds(cat, pcbList, k) && k < old(value) ==> value == k
    {
      var run := Generate(cat, pcbList, [], AtMost(k), false);
      if |run.found| > 0 && run.found[0] != [] {
        if k < value {
          value := k;
        }
      }
    }
  }

  /** The value `find_first_combination(maxK, ...)` returns when the shared
      integer starts at `init`: the smallest k in 1..maxK whose search succeeds,
      if it is below `init`, and `init` otherwise. */
  predicate IsFirstBound(cat: Catalog, pcbList: seq<PcbId>, maxK: nat, init: nat, r: nat)
    requires Complete(cat) && Known(cat, pcbList)
  {
    && r <= init
    && (r < init ==> 1 <= r <= maxK && Succeeds(cat, pcbList, r))
    && (forall k :: 1 <= k <= maxK && k < r ==> !Succeeds(cat, pcbList, k))
  }

  /** There is only one such value. */
  lemma FirstBoundUnique(cat: Catalog, pcbList: seq<PcbId>, maxK: nat, init: nat, r1: nat, r2: nat)
    requires Complete(cat) && Known(cat, pcbList)
    requires IsFirstBound(cat, pcbList, maxK, init, r1) && IsFirstBound(cat, pcbList, maxK, init, r2)
    ensures r1 == r2
  {
  }

  /** `find_first_combination(maxK, pcb_list, ...)` with `shared_mingp` starting at `init`. */
  method FindFirstCombination(cat: Catalog, pcbList: seq<PcbId>, maxK: nat, init: nat) returns (r: nat)
    requires Complete(cat) && Known(cat, pcbList)
    ensures IsFirstBound(cat, pcbList, maxK, init, r)
  {
    var shared := new SharedMin(init);
    for k := 1 to maxK + 1
      invariant shared.value <= init
      invariant shared.value < init ==> 1 <= shared.value < k && Succeeds(cat, pcbList, shared.value)
      invariant forall j :: 1 <= j < k && j < shared.value ==> !Succeeds(cat, pcbList, j)
    {
      shared.Worker(cat, pcbList, k);
    }
    r := shared.value;
  }

  /** The workers of `find_first_combination`, finishing in any order: `order`
      lists the bounds in the order their workers lower the shared value, each
      of 1..maxK at least once and nothing else. Whatever the order, the result
      is the value `IsFirstBound` specifies, which `FirstBoundUnique` shows is
      the one `FindFirstCombination` returns. */
  method RunWorkers(cat: Catalog, pcbList: seq<PcbId>, maxK: nat, init: nat, order: seq<nat>) returns (r: nat)
    requires Complete(cat) && Known(cat, pcbList)
    requires forall k :: k in order <==> 1 <= k <= maxK
    ensures IsFirstBound(cat, pcbList, maxK, init, r)
  {
    var shared := new SharedMin(init);
    for i := 0 to |order|
      invariant shared.value <= init
      invariant shared.value < init ==> shared.value in order[..i] && Succeeds(cat, pcbList, shared.value)
      invariant forall j :: j in order[..i] && j < shared.value ==> !Succeeds(cat, pcbList, j)
    {
      assert order[..i + 1] == order[..i] + [order[i]];
      shared.Worker(cat, pcbList, order[i]);
    }
    assert order[..|order|] == order;
    r := shared.value;
  }

  /** The hybrid strategy probes k = 1..len(pcb_list) from `len(pcb_list)`
      (hybrid.py): for a non-empty list the result is at most the number of
      PCBs, its own search succeeds, no smaller bound succeeds, and it is the
      fewest groups any valid partition of the PCBs has. */
  lemma HybridBound(cat: Catalog, pcbList: seq<PcbId>, r: nat)
    requires Complete(cat) && Known(cat, pcbList) && pcbList != []
    requires IsFirstBound(cat, pcbList, |pcbList|, |pcbList|, r)
    ensures 1 <= r <= |pcbList| && Succeeds(cat, pcbList, r)
    ensures forall k :: 1 <= k < r ==> !Succeeds(cat, pcbList, k)
    ensures forall q :: IsPartitionOf(cat, q, pcbList) ==> r <= |q|
    ensures exists q :: IsPartitionOf(cat, q, pcbList) && |q| == r
  {
    if r == |pcbList| {
      EnoughRoomSucceeds(cat, pcbList, r);
    }
    FewestGroups(cat, pcbList, r);
  }

  /** The parallel strategy probes only k = 1..len(pcb_list)-1 from
      `len(pcb_list)` (parallel.py, and the script of BruteForcing_Parallel.py with
      `number_of_data` PCBs): either some probed bound succeeds and the result is
      the smallest one, or the result is the number of PCBs, which is never probed.
      Either way it is the fewest groups any valid partition of the PCBs has. */
  lemma ParallelBound(cat: Catalog, pcbList: seq<PcbId>, r: nat)
    requires Complete(cat) && Known(cat, pcbList) && pcbList != []
    requires IsFirstBound(cat, pcbList, |pcbList| - 1, |pcbList|, r)
    ensures 1 <= r <= |pcbList| && Succeeds(cat, pcbList, r)
    ensures r < |pcbList| ==> forall k :: 1 <= k < r ==> !Succeeds(cat, pcbList, k)
    ensures r == |pcbList| ==> forall k :: 1 <= k < |pcbList| ==> !Succeeds(cat, pcbList, k)
    ensures forall q :: IsPartitionOf(cat, q, pcbList) ==> r <= |q|
    ensures exists q :: IsPartitionOf(cat, q, pcbList) && |q| == r
  {
    if r == |pcbList| {
      EnoughRoomSucceeds(cat, pcbList, r);
    }
    FewestGroups(cat, pcbList, r);
  }

  /** A bound that succeeds while no smaller one does is the least group count
      of a valid partition. */
  lemma FewestGroups(cat: Catalog, pcbList: seq<PcbId>, r: nat)
    requires Complete(cat) && Known(cat, pcbList) && pcbList != []
    requires Succeeds(cat, pcbList, r)
    requires forall k :: 1 <= k < r ==> !Succeeds(cat, pcbList, k)
    ensures forall q :: IsPartitionOf(cat, q, pcbList) ==> r <= |q|
    ensures exists q :: IsPartitionOf(cat, q, pcbList) && |q| == r
  {
    forall q | IsPartitionOf(cat, q, pcbList) ensures r <= |q| {
      NoPartitionBelowFailure(cat, pcbList, q);
    }
    SuccessIsWitnessed(cat, pcbList, r);
    var p := Generate(cat, pcbList, [], AtMost(r), false).found[0];
    assert IsPartitionOf(cat, p, pcbList) && |p| == r;
  }
}
