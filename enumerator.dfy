/** `generate_combinations`, the backtracking enumerator every strategy shares.

    For the next PCB it first tries to append it to each existing group (in
    group order), then tries to open a new group at the end. The shared cell
    `min_groups[0]` prunes: a frame with more groups than the cell holds stops,
    and the new-group branch is only taken while one more group still fits.

    The source is a lazy generator; this model is eager. It returns the
    partitions in the order the generator yields them, together with the value
    the cell holds once the generator is exhausted. The cell is lowered by a
    `for combination in ...` loop of a new-group frame, i.e. each time a
    partition passes upward through such a frame, and that happens before any
    deeper frame resumes. Lowering to `min(cell, len)` is idempotent, so it is
    enough to know, at the point where the partition is produced, whether ANY
    enclosing frame took the new-group branch: that is the `lowering` flag. */
module Enumerator {
  import opened Grouping

  /** The value of `min_groups[0]`: infinity or a number of groups. */
  datatype Bound = Unbounded | AtMost(k: nat)

  /** `n <= min_groups[0]`. */
  predicate Fits(n: nat, b: Bound)
  {
    b.Unbounded? || n <= b.k
  }

  /** `min(min_groups[0], n)`. */
  function Lower(b: Bound, n: nat): (r: Bound)
    ensures r.AtMost? && r.k <= n
    ensures forall m: nat :: Fits(m, r) <==> Fits(m, b) && m <= n
  {
    if b.AtMost? && b.k <= n then b else AtMost(n)
  }

  /** The cell never goes up: `b2` is at most `b1`. */
  predicate NoHigher(b2: Bound, b1: Bound)
  {
    b1.Unbounded? || (b2.AtMost? && b2.k <= b1.k)
  }

  /** What one run of the generator produces: the partitions in yield order and
      the final value of the bound cell. */
  datatype Run = Run(found: seq<Partition>, bound: Bound)

  /** `generate_combinations(pcbs, ..., current_groups, min_groups)`. */
  function Generate(cat: Catalog, pcbs: seq<PcbId>, groups: Partition, bound: Bound, lowering: bool): Run
    requires Complete(cat) && Known(cat, pcbs) && KnownAll(cat, groups)
    decreases |pcbs|, 1, 0
  {
    if pcbs == [] then
      Run([groups], if lowering then Lower(bound, |groups|) else bound)
    else if !Fits(|groups|, bound) then
      Run([], bound)
    else
      var ext := Extend(cat, pcbs, groups, 0, bound, lowering);
      var single := [pcbs[0]];
      if ValidGroup(cat, single) && Fits(|groups| + 1, ext.bound) then
        var sub := Generate(cat, pcbs[1..], groups + [single], ext.bound, true);
        Run(ext.found + sub.found, sub.bound)
      else
        ext
  }

  /** The loop over `enumerate(current_groups)` from group `i` on: append the
      next PCB to group `i` and recurse when the grown group is valid. */
  function Extend(cat: Catalog, pcbs: seq<PcbId>, groups: Partition, i: nat, bound: Bound, lowering: bool): Run
    requires Complete(cat) && Known(cat, pcbs) && KnownAll(cat, groups)
    requires pcbs != [] && i <= |groups|
    decreases |pcbs|, 0, |groups| - i
  {
    if i == |groups| then
      Run([], bound)
    else
      var grown := groups[i] + [pcbs[0]];
      var here :=
        if ValidGroup(cat, grown) then Generate(cat, pcbs[1..], groups[i := grown], bound, lowering)
        else Run([], bound);
      var rest := Extend(cat, pcbs, groups, i + 1, here.bound, lowering);
      Run(here.found + rest.found, rest.bound)
  }

  /** `next(generate_combinations(pcbs, ..., current_groups=[], min_groups=[k]))`
      is truthy: the bound-`k` search yields a first partition and it is not empty. */
  predicate Succeeds(cat: Catalog, pcbs: seq<PcbId>, k: nat)
    requires Complete(cat) && Known(cat, pcbs)
  {
    var run := Generate(cat, pcbs, [], AtMost(k), false);
    |run.found| > 0 && run.found[0] != []
  }
}
