/** `PrioritizeBasedOnSAP` and `SelectOneOptimalPCB` of llm/prioritization_calls.py.

    The scheduler takes the stored optimisation result, and for each of its
    combinations in turn plans production day by day: orders are taken date by
    date, the PCBs of one date by ascending group index, and as many units as
    fit into the day are produced, a setup change being charged the first time
    a group is produced on a day. When nothing more fits, the day is closed
    (`push_in_ordering`) and the next one begins. The first combination whose
    orders all fit by their delivery dates is returned with its plan.

    Dates are day numbers. Python dicts keep insertion order, and the order of
    `cur_group_to_pcbs` and of each inner dict is visible in the plan, so both
    are association lists here. */
module Prioritization {
  import opened Common
  import Objects

  const TimePerSetupChange: nat := 2 * 60 * 60
  const TimePerPcb: nat := 10
  const TimePerDay: nat := 8 * 60 * 60

  const NotOptimizedError: string := "First optimization should be called before prioritizing PCBs."
  const NoSlackError: string := "No combination found with enough slack to fit the upcoming orders."
  const UnknownPcbError: string := "KeyError: a PCB of the plan is in no group of the combination"

  /** An entry of a day's "order" list: the `SETUP_CHANGE` marker or a `(pcb, amount)` item. */
  datatype OrderItem = SetupChange | Produce(pcb: string, amount: int)

  /** An element of `ordering`: the day and its order list. */
  datatype DayPlan = DayPlan(date: int, order: seq<OrderItem>)

  /** An entry of `cur_group_to_pcbs`: a group index and its `{pcb: amount}` dict. */
  datatype GroupLoad = GroupLoad(group: nat, items: seq<(string, int)>)

  /** A row of `sap_plan`: a delivery day with the PCB names (MATNR) and amounts (KWMENG) due. */
  datatype SapEntry = SapEntry(date: int, pcbs: seq<string>, amounts: seq<int>)

  /** A VBAP row: delivery day (EDATU), PCB name (MATNR), amount (KWMENG). */
  datatype VbapRow = VbapRow(date: int, pcb: string, amount: int)

  // ---------------------------------------------------------------------------
  // `SelectOneOptimalPCB`.

  /** The `{"error": ...}` answer. */
  function ErrorDict(message: string): Objects.Json
  {
    Objects.JObj([("error", Objects.JStr(message))])
  }

  /** `value[0]` in Python: the first element of a list, the first character of a
      string, key 0 of a dict (JSON keys are strings, so it is missing), and a
      TypeError for anything else. */
  function IndexZero(v: Objects.Json): (r: Result<Objects.Json>)
    ensures v.JArr? && v.items != [] <==> r.Ok? && v.JArr?
    ensures r.Ok? && v.JArr? ==> r.value == v.items[0]
  {
    match v
    case JArr(items) => if items == [] then Err("IndexError: list index out of range") else Ok(items[0])
    case JStr(str) => if str == [] then Err("IndexError: string index out of range") else Ok(Objects.JStr([str[0]]))
    case JObj(_) => Err("KeyError: 0")
    case _ => Err("TypeError: object is not subscriptable")
  }

  /** The guard of `SelectOneOptimalPCB`: a stored solution that is missing,
      empty or not a dict. */
  predicate NotOptimized(solutions: Option<Objects.Json>)
  {
    solutions.None? || !solutions.value.JObj? || solutions.value.fields == []
  }

  /** `SelectOneOptimalPCB` as written: `solutions['combinations'][0]`. */
  function SelectOne(solutions: Option<Objects.Json>): (r: Result<Objects.Json>)
    ensures NotOptimized(solutions) ==> r == Ok(ErrorDict(NotOptimizedError))
    ensures !NotOptimized(solutions) && !Objects.HasKey(solutions.value, "combinations") ==>
      r == Err("KeyError: 'combinations'")
  {
    if NotOptimized(solutions) then Ok(ErrorDict(NotOptimizedError))
    else match Objects.Lookup(solutions.value.fields, "combinations")
      case None => Err("KeyError: 'combinations'")
      case Some(v) => IndexZero(v)
  }

  /** What `SelectOneOptimalPCB` gives for a stored `Combinations.to_json()`:
      the first combination when there are two or more, an IndexError when there
      are none, and a KeyError when there is exactly one, since that one is
      stored in the "groups" shape without a "combinations" key. */
  lemma SelectOneShapes(cs: Objects.Combinations)
    ensures |cs.combinations| >= 2 ==>
      SelectOne(Some(Objects.CombinationsToJson(cs))) == Ok(Objects.CombinationToJson(cs.combinations[0], Some(1)))
    ensures |cs.combinations| == 0 ==>
      SelectOne(Some(Objects.CombinationsToJson(cs))) == Err("IndexError: list index out of range")
    ensures |cs.combinations| == 1 ==>
      SelectOne(Some(Objects.CombinationsToJson(cs))) == Err("KeyError: 'combinations'")
  {
    var j := Objects.CombinationsToJson(cs);
    if |cs.combinations| == 1 {
      assert j.fields[0].0 == "groups";
      assert Objects.Lookup(j.fields, "combinations") == None;
    }
  }

  /** `SelectOneOptimalPCB` with the one-combination shape handled: a solution
      without "combinations" is itself the one combination. */
  function SelectOneChecked(solutions: Option<Objects.Json>): (r: Result<Objects.Json>)
    ensures NotOptimized(solutions) ==> r == Ok(ErrorDict(NotOptimizedError))
  {
    if NotOptimized(solutions) then Ok(ErrorDict(NotOptimizedError))
    else match Objects.Lookup(solutions.value.fields, "combinations")
      case None => Ok(solutions.value)
      case Some(v) => IndexZero(v)
  }

  /** For every stored solution with at least one combination, the corrected
      selection returns the first combination, which decodes to it. */
  lemma SelectFirstCombination(cs: Objects.Combinations)
    requires cs.combinations != []
    ensures var r := SelectOneChecked(Some(Objects.CombinationsToJson(cs)));
      && r.Ok?
      && r.value == Objects.CombinationToJson(cs.combinations[0], if |cs.combinations| == 1 then None else Some(1))
      && Objects.CombinationFromJson(r.value) == Ok(Objects.CombinationNamesOnly(cs.combinations[0]))
  {
    var j := Objects.CombinationsToJson(cs);
    if |cs.combinations| == 1 {
      assert j.fields[0].0 == "groups";
      assert Objects.Lookup(j.fields, "combinations") == None;
      Objects.CombinationRoundTrip(cs.combinations[0], None);
    } else {
      Objects.CombinationRoundTrip(cs.combinations[0], Some(1));
    }
  }

  // ---------------------------------------------------------------------------
  // The upcoming-orders window.

  /** The rows delivered after the current day and at most seven days later. */
  function Upcoming(rows: seq<VbapRow>, current: int): seq<VbapRow>
  {
    if rows == [] then []
    else (if current < rows[0].date <= current + 7 then [rows[0]] else []) + Upcoming(rows[1..], current)
  }

  lemma {:induction false} UpcomingMembers(rows: seq<VbapRow>, current: int)
    ensures forall x :: x in Upcoming(rows, current) <==> x in rows && current < x.date <= current + 7
  {
    if rows != [] {
      UpcomingMembers(rows[1..], current);
      assert forall x :: x in rows <==> x == rows[0] || x in rows[1..];
    }
  }

  // ---------------------------------------------------------------------------
  // Day order lists and what they count.

  function ItemsOrder(items: seq<(string, int)>): seq<OrderItem>
  {
    if items == [] then [] else [Produce(items[0].0, items[0].1)] + ItemsOrder(items[1..])
  }

  /** The `reduce` that builds a day's "order": every group's items, each group
      preceded by one `SETUP_CHANGE`, in the order the groups entered the day. */
  function Order(load: seq<GroupLoad>): seq<OrderItem>
  {
    if load == [] then [] else [SetupChange] + ItemsOrder(load[0].items) + Order(load[1..])
  }

  /** What is counted over an order list: setup changes, units, or units of one PCB. */
  datatype Measure = Setups | Units | UnitsOf(pcb: string)

  function Weight(x: OrderItem, m: Measure): int
  {
    match m
    case Setups => if x.SetupChange? then 1 else 0
    case Units => if x.Produce? then x.amount else 0
    case UnitsOf(q) => if x.Produce? && x.pcb == q then x.amount else 0
  }

  function Count(order: seq<OrderItem>, m: Measure): int
  {
    if order == [] then 0 else Weight(order[0], m) + Count(order[1..], m)
  }

  /** The working time an order list takes. */
  function DayTime(order: seq<OrderItem>): int
  {
    TimePerSetupChange * Count(order, Setups) + TimePerPcb * Count(order, Units)
  }

  lemma {:induction false} CountAppend(a: seq<OrderItem>, b: seq<OrderItem>, m: Measure)
    ensures Count(a + b, m) == Count(a, m) + Count(b, m)
  {
    if a == [] {
      assert a + b == b;
    } else {
      CountAppend(a[1..], b, m);
      assert (a + b)[1..] == a[1..] + b;
    }
  }

  /** `pcb_dict.get(pcb, 0)`, summed over the groups of a day. */
  function ItemUnits(items: seq<(string, int)>, q: string): int
  {
    if items == [] then 0 else (if items[0].0 == q then items[0].1 else 0) + ItemUnits(items[1..], q)
  }

  function LoadUnits(load: seq<GroupLoad>, q: string): int
  {
    if load == [] then 0 else ItemUnits(load[0].items, q) + LoadUnits(load[1..], q)
  }

  lemma {:induction false} ItemsOrderCounts(items: seq<(string, int)>, q: string)
    ensures Count(ItemsOrder(items), Setups) == 0
    ensures Count(ItemsOrder(items), UnitsOf(q)) == ItemUnits(items, q)
  {
    if items != [] {
      ItemsOrderCounts(items[1..], q);
      CountAppend([Produce(items[0].0, items[0].1)], ItemsOrder(items[1..]), Setups);
      CountAppend([Produce(items[0].0, items[0].1)], ItemsOrder(items[1..]), UnitsOf(q));
    }
  }

  /** A day's order list holds one `SETUP_CHANGE` per group of the day, starts
      with one when the day is not empty, and lists of every PCB the units the
      day's dicts hold. */
  lemma {:induction false} OrderShape(load: seq<GroupLoad>, q: string)
    ensures Count(Order(load), Setups) == |load|
    ensures Count(Order(load), UnitsOf(q)) == LoadUnits(load, q)
    ensures load != [] ==> Order(load) != [] && Order(load)[0] == SetupChange
  {
    if load != [] {
      OrderShape(load[1..], q);
      ItemsOrderCounts(load[0].items, q);
      var head := [SetupChange] + ItemsOrder(load[0].items);
      CountAppend([SetupChange], ItemsOrder(load[0].items), Setups);
      CountAppend([SetupChange], ItemsOrder(load[0].items), UnitsOf(q));
      CountAppend(head, Order(load[1..]), Setups);
      CountAppend(head, Order(load[1..]), UnitsOf(q));
    }
  }

  // ---------------------------------------------------------------------------
  // `cur_group_to_pcbs`.

  /** `group in cur_group_to_pcbs`. */
  predicate HasGroup(load: seq<GroupLoad>, group: nat)
  {
    load != [] && (load[0].group == group || HasGroup(load[1..], group))
  }

  /** The keys of the dict are pairwise different. */
  predicate DistinctGroups(load: seq<GroupLoad>)
  {
    load == [] || (!HasGroup(load[1..], load[0].group) && DistinctGroups(load[1..]))
  }

  /** `pcb_dict[pcb] = pcb_dict.get(pcb, 0) + n`. */
  function AddItem(items: seq<(string, int)>, pcb: string, n: int): seq<(string, int)>
  {
    if items == [] then [(pcb, n)]
    else if items[0].0 == pcb then [(pcb, items[0].1 + n)] + items[1..]
    else [items[0]] + AddItem(items[1..], pcb, n)
  }

  /** `cur_group_to_pcbs.setdefault(group, dict())` followed by the `AddItem` update. */
  function AddUnits(load: seq<GroupLoad>, group: nat, pcb: string, n: int): seq<GroupLoad>
  {
    if load == [] then [GroupLoad(group, [(pcb, n)])]
    else if load[0].group == group then [GroupLoad(group, AddItem(load[0].items, pcb, n))] + load[1..]
    else [load[0]] + AddUnits(load[1..], group, pcb, n)
  }

  lemma {:induction false} CountAddItem(items: seq<(string, int)>, pcb: string, n: int, m: Measure)
    ensures Count(ItemsOrder(AddItem(items, pcb, n)), m) == Count(ItemsOrder(items), m) + Weight(Produce(pcb, n), m)
  {
    if items == [] {
      assert ItemsOrder([(pcb, n)]) == [Produce(pcb, n)];
    } else {
      var rest := AddItem(items, pcb, n);
      assert rest[1..] == (if items[0].0 == pcb then items[1..] else AddItem(items[1..], pcb, n));
      if items[0].0 != pcb {
        CountAddItem(items[1..], pcb, n, m);
      }
      CountAppend([Produce(rest[0].0, rest[0].1)], ItemsOrder(rest[1..]), m);
      CountAppend([Produce(items[0].0, items[0].1)], ItemsOrder(items[1..]), m);
    }
  }

  /** Adding units to a group of the day adds them to the order list, plus one
      setup change exactly when the group was not yet in the day. */
  lemma {:induction false} CountAddUnits(load: seq<GroupLoad>, group: nat, pcb: string, n: int, m: Measure)
    ensures Count(Order(AddUnits(load, group, pcb, n)), m) ==
      Count(Order(load), m) + Weight(Produce(pcb, n), m) + (if HasGroup(load, group) then 0 else Weight(SetupChange, m))
  {
    var r := AddUnits(load, group, pcb, n);
    var head := [SetupChange] + ItemsOrder(r[0].items);
    CountAppend([SetupChange], ItemsOrder(r[0].items), m);
    CountAppend(head, Order(r[1..]), m);
    if load == [] {
      CountAddItem([], pcb, n, m);
    } else {
      var old0 := [SetupChange] + ItemsOrder(load[0].items);
      CountAppend([SetupChange], ItemsOrder(load[0].items), m);
      CountAppend(old0, Order(load[1..]), m);
      if load[0].group == group {
        CountAddItem(load[0].items, pcb, n, m);
        assert r[1..] == load[1..];
      } else {
        CountAddUnits(load[1..], group, pcb, n, m);
        assert r[1..] == AddUnits(load[1..], group, pcb, n);
      }
    }
  }

  lemma {:induction false} AddUnitsGroups(load: seq<GroupLoad>, group: nat, pcb: string, n: int)
    ensures forall g :: HasGroup(AddUnits(load, group, pcb, n), g) <==> HasGroup(load, g) || g == group
    ensures DistinctGroups(load) ==> DistinctGroups(AddUnits(load, group, pcb, n))
  {
    var r := AddUnits(load, group, pcb, n);
    if load != [] {
      if load[0].group == group {
        assert r[1..] == load[1..];
      } else {
        AddUnitsGroups(load[1..], group, pcb, n);
        assert r[1..] == AddUnits(load[1..], group, pcb, n);
      }
    } else {
      assert r[1..] == [];
    }
  }

  // ---------------------------------------------------------------------------
  // The state of one combination's planning and its steps.

  /** `cur_date`, `cur_deadline`, `ordering`, `cur_group_to_pcbs` and `cur_working_time`. */
  datatype Sched = Sched(date: int, deadline: int, ordering: seq<DayPlan>, load: seq<GroupLoad>, time: int)

  /** `push_in_ordering`: the day is closed with its order list, the dict and
      the working time are reset and the date moves to the next day. */
  function Push(s: Sched): Sched
  {
    Sched(s.date + 1, s.deadline, s.ordering + [DayPlan(s.date, Order(s.load))], [], 0)
  }

  /** `(group not in cur_group_to_pcbs) * TIME_PER_SETUP_CHANGE`. */
  function SetupCost(load: seq<GroupLoad>, group: nat): nat
  {
    if HasGroup(load, group) then 0 else TimePerSetupChange
  }

  /** `possible_amount`. Python's `//` floors; with a positive divisor Dafny's `/` agrees. */
  function Possible(s: Sched, group: nat, amount: int): int
  {
    var fit := (TimePerDay - s.time - SetupCost(s.load, group)) / TimePerPcb;
    if amount <= fit then (if amount < 0 then 0 else amount) else (if fit < 0 then 0 else fit)
  }

  /** The `possible_amount > 0` branch: the time is charged and the units added. */
  function AddToDay(s: Sched, group: nat, pcb: string, n: int): Sched
  {
    s.(time := s.time + n * TimePerPcb + SetupCost(s.load, group), load := AddUnits(s.load, group, pcb, n))
  }

  function DaysLeft(s: Sched): nat
  {
    if s.date > s.deadline then 0 else s.deadline - s.date + 1
  }

  /** The `while amount > 0` loop for one PCB: the state after it and the amount left. */
  function RunAmount(s: Sched, pcb: string, group: nat, amount: int): (Sched, int)
    decreases DaysLeft(s), amount
  {
    if amount <= 0 || s.date > s.deadline then (s, amount)
    else
      var n := Possible(s, group, amount);
      if n > 0 then RunAmount(AddToDay(s, group, pcb, n), pcb, group, amount - n)
      else RunAmount(Push(s), pcb, group, amount)
  }

  /** `zip(pcbs, number)`: as long as the shorter list. */
  function Zip(pcbs: seq<string>, amounts: seq<int>): (r: seq<(string, int)>)
    ensures |r| == if |pcbs| < |amounts| then |pcbs| else |amounts|
  {
    if pcbs == [] || amounts == [] then [] else [(pcbs[0], amounts[0])] + Zip(pcbs[1..], amounts[1..])
  }

  predicate AllMapped(items: seq<(string, int)>, mapping: map<string, nat>)
  {
    forall k :: 0 <= k < |items| ==> items[k].0 in mapping
  }

  /** Inserts `x` before the first element whose group is not smaller. */
  function InsertByGroup(x: (string, int), sorted: seq<(string, int)>, mapping: map<string, nat>): (r: seq<(string, int)>)
    requires x.0 in mapping && AllMapped(sorted, mapping)
    ensures |r| == |sorted| + 1 && AllMapped(r, mapping)
  {
    if sorted == [] || mapping[x.0] <= mapping[sorted[0].0] then [x] + sorted
    else [sorted[0]] + InsertByGroup(x, sorted[1..], mapping)
  }

  /** `sorted(..., key=lambda x: mapping[x[0]])`, stable. */
  function SortByGroup(items: seq<(string, int)>, mapping: map<string, nat>): (r: seq<(string, int)>)
    requires AllMapped(items, mapping)
    ensures |r| == |items| && AllMapped(r, mapping)
  {
    if items == [] then [] else InsertByGroup(items[0], SortByGroup(items[1..], mapping), mapping)
  }

  predicate SortedByGroup(items: seq<(string, int)>, mapping: map<string, nat>)
    requires AllMapped(items, mapping)
  {
    forall i, j :: 0 <= i < j < |items| ==> mapping[items[i].0] <= mapping[items[j].0]
  }

  /** The units of `q` a list of `(pcb, amount)` items asks for; an amount that
      is not positive asks for nothing, since the `while` does not run. */
  function Requested(items: seq<(string, int)>, q: string): int
  {
    if items == [] then 0
    else (if items[0].0 == q && items[0].1 > 0 then items[0].1 else 0) + Requested(items[1..], q)
  }

  lemma {:induction false} InsertByGroupKeeps(x: (string, int), sorted: seq<(string, int)>, mapping: map<string, nat>, q: string)
    requires x.0 in mapping && AllMapped(sorted, mapping)
    ensures multiset(InsertByGroup(x, sorted, mapping)) == multiset(sorted) + multiset{x}
    ensures Requested(InsertByGroup(x, sorted, mapping), q) == Requested(sorted, q) + Requested([x], q)
  {
    var r := InsertByGroup(x, sorted, mapping);
    if sorted == [] || mapping[x.0] <= mapping[sorted[0].0] {
      assert r[1..] == sorted;
      assert r == [x] + sorted;
    } else {
      InsertByGroupKeeps(x, sorted[1..], mapping, q);
      assert r[1..] == InsertByGroup(x, sorted[1..], mapping);
      assert r == [sorted[0]] + r[1..];
      assert sorted == [sorted[0]] + sorted[1..];
    }
  }

  /** The items of `items` whose PCB is in group `g`, in their order in `items`. */
  function OfGroup(items: seq<(string, int)>, mapping: map<string, nat>, g: nat): seq<(string, int)>
  {
    if items == [] then []
    else (if items[0].0 in mapping && mapping[items[0].0] == g then [items[0]] else []) + OfGroup(items[1..], mapping, g)
  }

  /** The insertion puts `x` in front of the items of its own group, which are
      the later ones in the input. */
  lemma {:induction false} InsertByGroupStable(x: (string, int), sorted: seq<(string, int)>, mapping: map<string, nat>, g: nat)
    requires x.0 in mapping && AllMapped(sorted, mapping)
    ensures OfGroup(InsertByGroup(x, sorted, mapping), mapping, g)
         == (if mapping[x.0] == g then [x] else []) + OfGroup(sorted, mapping, g)
  {
    var r := InsertByGroup(x, sorted, mapping);
    if sorted == [] || mapping[x.0] <= mapping[sorted[0].0] {
      assert r[1..] == sorted;
    } else {
      var rest := InsertByGroup(x, sorted[1..], mapping);
      InsertByGroupStable(x, sorted[1..], mapping, g);
      assert r[1..] == rest;
      if mapping[sorted[0].0] == g {
        assert mapping[x.0] != g;
      }
    }
  }

  /** Every item of `items` is in a group numbered at least `b`. */
  predicate GroupsFrom(items: seq<(string, int)>, mapping: map<string, nat>, b: nat)
    requires AllMapped(items, mapping)
  {
    forall k :: 0 <= k < |items| ==> b <= mapping[items[k].0]
  }

  lemma {:induction false} InsertByGroupFrom(x: (string, int), sorted: seq<(string, int)>, mapping: map<string, nat>, b: nat)
    requires x.0 in mapping && AllMapped(sorted, mapping)
    requires b <= mapping[x.0] && GroupsFrom(sorted, mapping, b)
    ensures GroupsFrom(InsertByGroup(x, sorted, mapping), mapping, b)
  {
    if sorted != [] && mapping[x.0] > mapping[sorted[0].0] {
      InsertByGroupFrom(x, sorted[1..], mapping, b);
    }
  }

  lemma {:induction false} InsertByGroupSorted(x: (string, int), sorted: seq<(string, int)>, mapping: map<string, nat>)
    requires x.0 in mapping && AllMapped(sorted, mapping) && SortedByGroup(sorted, mapping)
    ensures SortedByGroup(InsertByGroup(x, sorted, mapping), mapping)
  {
    var r := InsertByGroup(x, sorted, mapping);
    if sorted != [] && mapping[x.0] > mapping[sorted[0].0] {
      var tail := sorted[1..];
      var b := mapping[sorted[0].0];
      InsertByGroupSorted(x, tail, mapping);
      InsertByGroupFrom(x, tail, mapping, b);
      var rest := InsertByGroup(x, tail, mapping);
      assert r == [sorted[0]] + rest;
      forall i, j | 0 <= i < j < |r| ensures mapping[r[i].0] <= mapping[r[j].0] {
        assert r[j] == rest[j - 1];
        if 0 < i {
          assert r[i] == rest[i - 1];
        }
      }
    }
  }

  /** The sort keeps the items, orders them by ascending group index, keeps
      the items of one group in their input order, and keeps the units every
      PCB asks for. */
  lemma {:induction false} SortByGroupFacts(items: seq<(string, int)>, mapping: map<string, nat>, q: string)
    requires AllMapped(items, mapping)
    ensures multiset(SortByGroup(items, mapping)) == multiset(items)
    ensures SortedByGroup(SortByGroup(items, mapping), mapping)
    ensures forall g :: OfGroup(SortByGroup(items, mapping), mapping, g) == OfGroup(items, mapping, g)
    ensures Requested(SortByGroup(items, mapping), q) == Requested(items, q)
  {
    if items != [] {
      var tail := SortByGroup(items[1..], mapping);
      SortByGroupFacts(items[1..], mapping, q);
      InsertByGroupKeeps(items[0], tail, mapping, q);
      InsertByGroupSorted(items[0], tail, mapping);
      forall g ensures OfGroup(SortByGroup(items, mapping), mapping, g) == OfGroup(items, mapping, g) {
        InsertByGroupStable(items[0], tail, mapping, g);
      }
      assert items == [items[0]] + items[1..];
    }
  }

  /** The `for pcb, amount in ...` loop of one delivery date, with its `break`
      once the date has passed the deadline. */
  function RunItems(s: Sched, items: seq<(string, int)>, mapping: map<string, nat>): Sched
    requires AllMapped(items, mapping)
    decreases |items|
  {
    if items == [] then s
    else
      var s1 := RunAmount(s, items[0].0, mapping[items[0].0], items[0].1).0;
      if s1.date > s1.deadline then s1 else RunItems(s1, items[1..], mapping)
  }

  /** The `for date, pcbs, number in sap_plan` loop: the sort raises KeyError
      for a PCB that is in no group. */
  function RunPlan(s: Sched, plan: seq<SapEntry>, mapping: map<string, nat>): Result<Sched>
    decreases |plan|
  {
    if plan == [] then Ok(s)
    else
      var items := Zip(plan[0].pcbs, plan[0].amounts);
      if !AllMapped(items, mapping) then Err(UnknownPcbError)
      else
        var s1 := RunItems(s.(deadline := plan[0].date), SortByGroup(items, mapping), mapping);
        if s1.date > s1.deadline then Ok(s1) else RunPlan(s1, plan[1..], mapping)
  }

  // ---------------------------------------------------------------------------
  // One combination, and the choice among the combinations.

  function PcbNames(pcbs: seq<Objects.Pcb>): set<string>
  {
    set k | 0 <= k < |pcbs| :: pcbs[k].name
  }

  /** `mapping`: the group index of every PCB name; a later group wins. */
  function GroupMapping(groups: seq<Objects.Group>): map<string, nat>
  {
    if groups == [] then map[]
    else
      var n := |groups| - 1;
      GroupMapping(groups[..n]) + map name | name in PcbNames(groups[n].pcbs) :: n
  }

  /** One group more: its PCBs now map to it, the others as before. */
  lemma GroupMappingStep(groups: seq<Objects.Group>, name: string)
    requires groups != []
    ensures var n := |groups| - 1;
      && (name in GroupMapping(groups) <==> name in GroupMapping(groups[..n]) || name in PcbNames(groups[n].pcbs))
      && (name in PcbNames(groups[n].pcbs) ==> GroupMapping(groups)[name] == n)
      && (name in GroupMapping(groups) && name !in PcbNames(groups[n].pcbs) ==>
            GroupMapping(groups)[name] == GroupMapping(groups[..n])[name])
  {
  }

  /** Every PCB of the combination is mapped, to the last group that holds it. */
  lemma {:induction false} GroupMappingFacts(groups: seq<Objects.Group>, name: string)
    ensures name in GroupMapping(groups) <==> exists j :: 0 <= j < |groups| && name in PcbNames(groups[j].pcbs)
    ensures name in GroupMapping(groups) ==>
      var j := GroupMapping(groups)[name];
      j < |groups| && name in PcbNames(groups[j].pcbs) &&
      forall t :: j < t < |groups| ==> name !in PcbNames(groups[t].pcbs)
  {
    if groups != [] {
      var n := |groups| - 1;
      var init := groups[..n];
      GroupMappingFacts(init, name);
      GroupMappingStep(groups, name);
      assert forall j :: 0 <= j < n ==> groups[j] == init[j];
    }
  }

  /** What planning one combination gives: KeyError, no fit (None), or the
      production plan, the open day being closed when it holds something. */
  function Attempt(c: Objects.Combination, plan: seq<SapEntry>, today: int): Result<Option<seq<DayPlan>>>
  {
    match RunPlan(Sched(today, today + 1, [], [], 0), plan, GroupMapping(c.groups))
    case Err(e) => Err(e)
    case Ok(s) =>
      if s.date <= s.deadline then Ok(Some(if s.load != [] then Push(s).ordering else s.ordering))
      else Ok(None)
  }

  /** The answer of `PrioritizeBasedOnSAP`: a combination with its plan, or an error message. */
  datatype Outcome = Planned(combination: Objects.Combination, plan: seq<DayPlan>) | Refused(message: string)

  function FirstFit(cs: seq<Objects.Combination>, plan: seq<SapEntry>, today: int): Result<Outcome>
  {
    if cs == [] then Ok(Refused(NoSlackError))
    else match Attempt(cs[0], plan, today)
      case Err(e) => Err(e)
      case Ok(o) => if o.Some? then Ok(Planned(cs[0], o.value)) else FirstFit(cs[1..], plan, today)
  }

  /** `PrioritizeBasedOnSAP` for the stored solution, the upcoming plan and the current day. */
  function Prioritize(solutions: Option<Objects.Json>, plan: seq<SapEntry>, today: int): Result<Outcome>
  {
    if solutions.None? || !solutions.value.JObj? then Ok(Refused(NotOptimizedError))
    else match Objects.CombinationsFromJson(solutions.value)
      case Err(e) => Err(e)
      case Ok(cs) => FirstFit(cs.combinations, plan, today)
  }

  /** On a solution the system stored, in either shape, the combinations are
      tried in their stored order, each with its groups' PCB names. */
  lemma PrioritizeStored(cs: Objects.Combinations, plan: seq<SapEntry>, today: int)
    ensures Prioritize(Some(Objects.CombinationsToJson(cs)), plan, today) ==
      FirstFit(Objects.AllNamesOnly(cs.combinations), plan, today)
  {
    Objects.CombinationsRoundTrip(cs);
  }

  // ---------------------------------------------------------------------------
  // What the planning keeps: every closed day is one day after the previous,
  // starts with a setup change and fits into the working day, and every unit
  // asked for is either in a closed day or in the open one.

  /** A closed day: its date, a non-empty order list that starts with a setup
      change, and no more work than a day holds. */
  predicate DayOk(d: DayPlan, date: int)
  {
    d.date == date && d.order != [] && d.order[0] == SetupChange && DayTime(d.order) <= TimePerDay
  }

  /** The planning state after any number of steps from `today`. */
  predicate Valid(s: Sched, today: int)
  {
    && 0 <= s.time <= TimePerDay
    && s.time == DayTime(Order(s.load))
    && DistinctGroups(s.load)
    && s.date == today + |s.ordering|
    && forall i :: 0 <= i < |s.ordering| ==> DayOk(s.ordering[i], today + i)
  }

  /** The units of `q` in the closed days. */
  function PlanUnits(ordering: seq<DayPlan>, q: string): int
  {
    if ordering == [] then 0
    else PlanUnits(ordering[..|ordering| - 1], q) + Count(ordering[|ordering| - 1].order, UnitsOf(q))
  }

  /** The units of `q` planned so far, closed days and the open one together. */
  function Scheduled(s: Sched, q: string): int
  {
    PlanUnits(s.ordering, q) + Count(Order(s.load), UnitsOf(q))
  }

  /** The units of `q` the whole SAP plan asks for. */
  function PlanRequested(plan: seq<SapEntry>, q: string): int
  {
    if plan == [] then 0 else Requested(Zip(plan[0].pcbs, plan[0].amounts), q) + PlanRequested(plan[1..], q)
  }

  /** The start of a combination's planning is valid. */
  lemma StartValid(today: int, q: string)
    ensures Valid(Sched(today, today + 1, [], [], 0), today)
    ensures Scheduled(Sched(today, today + 1, [], [], 0), q) == 0
  {
  }

  /** A positive `possible_amount` fits into the rest of the day and is at most
      what is still asked for; on an empty day something always fits. */
  lemma PossibleFits(s: Sched, group: nat, amount: int)
    ensures var n := Possible(s, group, amount);
      0 <= n && (n > 0 ==> n <= amount && n * TimePerPcb <= TimePerDay - s.time - SetupCost(s.load, group))
    ensures s.load == [] && s.time == 0 && amount > 0 ==> Possible(s, group, amount) > 0
  {
  }

  /** Charging a day with `n` more units keeps the state valid and plans `n`
      more units of `pcb`. */
  lemma AddToDayValid(s: Sched, group: nat, pcb: string, n: int, today: int, q: string)
    requires Valid(s, today) && 0 < n && n * TimePerPcb <= TimePerDay - s.time - SetupCost(s.load, group)
    ensures Valid(AddToDay(s, group, pcb, n), today)
    ensures Scheduled(AddToDay(s, group, pcb, n), q) == Scheduled(s, q) + (if pcb == q then n else 0)
  {
    var s1 := AddToDay(s, group, pcb, n);
    CountAddUnits(s.load, group, pcb, n, Setups);
    CountAddUnits(s.load, group, pcb, n, Units);
    CountAddUnits(s.load, group, pcb, n, UnitsOf(q));
    AddUnitsGroups(s.load, group, pcb, n);
    assert s1.time == DayTime(Order(s1.load));
  }

  /** Closing a non-empty day keeps the state valid and loses no unit. */
  lemma PushKeeps(s: Sched, today: int, q: string)
    requires Valid(s, today) && s.load != []
    ensures Valid(Push(s), today) && Scheduled(Push(s), q) == Scheduled(s, q)
    ensures s.ordering <= Push(s).ordering
  {
    var s1 := Push(s);
    OrderShape(s.load, q);
    assert s1.ordering[..|s1.ordering| - 1] == s.ordering;
    forall i | 0 <= i < |s1.ordering| ensures DayOk(s1.ordering[i], today + i) {
      if i < |s.ordering| {
        assert s1.ordering[i] == s.ordering[i];
      }
    }
  }

  /** The `while amount > 0` loop keeps the state valid and the deadline, only
      adds closed days, and plans every unit it takes off the amount; it stops
      with nothing left or with the date past the deadline. */
  lemma {:induction false} RunAmountFacts(s: Sched, pcb: string, group: nat, amount: int, today: int, q: string)
    requires Valid(s, today)
    ensures var (s1, rest) := RunAmount(s, pcb, group, amount);
      && Valid(s1, today) && s1.deadline == s.deadline && s.date <= s1.date && s.ordering <= s1.ordering
      && (amount <= 0 ==> s1 == s && rest == amount)
      && (amount > 0 ==> 0 <= rest <= amount && (rest == 0 || s1.date > s1.deadline))
      && Scheduled(s1, q) == Scheduled(s, q) + (if pcb == q && amount > 0 then amount - rest else 0)
    decreases DaysLeft(s), amount
  {
    if amount > 0 && s.date <= s.deadline {
      var n := Possible(s, group, amount);
      PossibleFits(s, group, amount);
      if n > 0 {
        AddToDayValid(s, group, pcb, n, today, q);
        RunAmountFacts(AddToDay(s, group, pcb, n), pcb, group, amount - n, today, q);
      } else {
        assert s.load != [];
        PushKeeps(s, today, q);
        RunAmountFacts(Push(s), pcb, group, amount, today, q);
      }
    }
  }

  /** One delivery date: when the date has not passed the deadline afterwards,
      every unit the items ask for is planned. */
  lemma {:induction false} RunItemsFacts(s: Sched, items: seq<(string, int)>, mapping: map<string, nat>, today: int, q: string)
    requires Valid(s, today) && AllMapped(items, mapping)
    ensures var s1 := RunItems(s, items, mapping);
      && Valid(s1, today) && s1.deadline == s.deadline && s.ordering <= s1.ordering
      && (s1.date <= s1.deadline ==> Scheduled(s1, q) == Scheduled(s, q) + Requested(items, q))
    decreases |items|
  {
    if items != [] {
      var x := items[0];
      RunAmountFacts(s, x.0, mapping[x.0], x.1, today, q);
      var s1 := RunAmount(s, x.0, mapping[x.0], x.1).0;
      if s1.date <= s1.deadline {
        RunItemsFacts(s1, items[1..], mapping, today, q);
      }
    }
  }

  /** The whole SAP plan: when it succeeds with the date not past the last
      deadline, every unit the plan asks for is planned. */
  lemma {:induction false} RunPlanFacts(s: Sched, plan: seq<SapEntry>, mapping: map<string, nat>, today: int, q: string)
    requires Valid(s, today)
    ensures RunPlan(s, plan, mapping).Ok? ==>
      var s1 := RunPlan(s, plan, mapping).value;
      && Valid(s1, today) && s.ordering <= s1.ordering
      && (s1.date <= s1.deadline ==> Scheduled(s1, q) == Scheduled(s, q) + PlanRequested(plan, q))
    decreases |plan|
  {
    if plan != [] {
      var items := Zip(plan[0].pcbs, plan[0].amounts);
      if AllMapped(items, mapping) {
        var sorted := SortByGroup(items, mapping);
        SortByGroupFacts(items, mapping, q);
        RunItemsFacts(s.(deadline := plan[0].date), sorted, mapping, today, q);
        var s1 := RunItems(s.(deadline := plan[0].date), sorted, mapping);
        if s1.date <= s1.deadline {
          RunPlanFacts(s1, plan[1..], mapping, today, q);
        }
      }
    }
  }

  /** The KeyError is raised exactly for a plan that reaches a date with a PCB
      in no group of the combination. */
  lemma {:induction false} RunPlanErrors(s: Sched, plan: seq<SapEntry>, mapping: map<string, nat>)
    ensures RunPlan(s, plan, mapping).Err? ==>
      && RunPlan(s, plan, mapping).error == UnknownPcbError
      && exists i :: 0 <= i < |plan| && !AllMapped(Zip(plan[i].pcbs, plan[i].amounts), mapping)
    ensures (forall i :: 0 <= i < |plan| ==> AllMapped(Zip(plan[i].pcbs, plan[i].amounts), mapping)) ==>
      RunPlan(s, plan, mapping).Ok?
    decreases |plan|
  {
    if plan != [] {
      var items := Zip(plan[0].pcbs, plan[0].amounts);
      if AllMapped(items, mapping) {
        var s1 := RunItems(s.(deadline := plan[0].date), SortByGroup(items, mapping), mapping);
        if s1.date <= s1.deadline {
          RunPlanErrors(s1, plan[1..], mapping);
          assert forall i :: 0 < i < |plan| ==> plan[1..][i - 1] == plan[i];
        }
      }
    }
  }

  /** A plan `Attempt` returns has one entry per day from today on, each day
      valid, and holds of every PCB exactly the units the SAP plan asks for; the
      only error is the KeyError, raised only for a PCB in no group. */
  lemma AttemptFacts(c: Objects.Combination, plan: seq<SapEntry>, today: int, q: string)
    ensures Attempt(c, plan, today).Ok? && Attempt(c, plan, today).value.Some? ==>
      var o := Attempt(c, plan, today).value.value;
      && (forall i :: 0 <= i < |o| ==> DayOk(o[i], today + i))
      && PlanUnits(o, q) == PlanRequested(plan, q)
    ensures Attempt(c, plan, today).Err? ==>
      && Attempt(c, plan, today).error == UnknownPcbError
      && exists i :: 0 <= i < |plan| && !AllMapped(Zip(plan[i].pcbs, plan[i].amounts), GroupMapping(c.groups))
    ensures (forall i :: 0 <= i < |plan| ==> AllMapped(Zip(plan[i].pcbs, plan[i].amounts), GroupMapping(c.groups))) ==>
      Attempt(c, plan, today).Ok?
  {
    var start := Sched(today, today + 1, [], [], 0);
    var mapping := GroupMapping(c.groups);
    StartValid(today, q);
    RunPlanFacts(start, plan, mapping, today, q);
    RunPlanErrors(start, plan, mapping);
    var r := RunPlan(start, plan, mapping);
    if r.Ok? && r.value.date <= r.value.deadline && r.value.load != [] {
      PushKeeps(r.value, today, q);
    }
  }

  /** `PrioritizeBasedOnSAP` returns the first combination whose planning fits,
      after every earlier one did not fit. */
  lemma {:induction false} FirstFitPlanned(cs: seq<Objects.Combination>, plan: seq<SapEntry>, today: int)
    ensures FirstFit(cs, plan, today).Ok? && FirstFit(cs, plan, today).value.Planned? ==>
      var o := FirstFit(cs, plan, today).value;
      exists i :: 0 <= i < |cs| && o.combination == cs[i] && Attempt(cs[i], plan, today) == Ok(Some(o.plan)) &&
        forall j :: 0 <= j < i ==> Attempt(cs[j], plan, today) == Ok(None)
  {
    if cs != [] {
      var a := Attempt(cs[0], plan, today);
      var r := FirstFit(cs[1..], plan, today);
      if a.Ok? && a.value.None? && r.Ok? && r.value.Planned? {
        FirstFitPlanned(cs[1..], plan, today);
        var i :| 0 <= i < |cs| - 1 && r.value.combination == cs[1..][i] && Attempt(cs[1..][i], plan, today) == Ok(Some(r.value.plan)) &&
          forall j :: 0 <= j < i ==> Attempt(cs[1..][j], plan, today) == Ok(None);
        forall j | 0 < j < i + 1 ensures Attempt(cs[j], plan, today) == Ok(None) {
          assert cs[j] == cs[1..][j - 1];
        }
        assert cs[i + 1] == cs[1..][i];
      }
    }
  }

  /** It refuses only when no combination fits. */
  lemma {:induction false} FirstFitRefused(cs: seq<Objects.Combination>, plan: seq<SapEntry>, today: int)
    ensures FirstFit(cs, plan, today).Ok? && FirstFit(cs, plan, today).value.Refused? ==>
      && FirstFit(cs, plan, today).value.message == NoSlackError
      && forall j :: 0 <= j < |cs| ==> Attempt(cs[j], plan, today) == Ok(None)
  {
    if cs != [] {
      var a := Attempt(cs[0], plan, today);
      if a.Ok? && a.value.None? {
        FirstFitRefused(cs[1..], plan, today);
        assert forall j :: 0 < j < |cs| ==> cs[j] == cs[1..][j - 1];
      }
    }
  }

  /** An error is the error of the first combination that does not return
      normally, every earlier one having not fit. */
  lemma {:induction false} FirstFitError(cs: seq<Objects.Combination>, plan: seq<SapEntry>, today: int)
    ensures FirstFit(cs, plan, today).Err? ==>
      exists i :: 0 <= i < |cs| && Attempt(cs[i], plan, today) == Err(FirstFit(cs, plan, today).error) &&
        forall j :: 0 <= j < i ==> Attempt(cs[j], plan, today) == Ok(None)
  {
    if cs != [] {
      var a := Attempt(cs[0], plan, today);
      var r := FirstFit(cs[1..], plan, today);
      if a.Ok? && a.value.None? && r.Err? {
        FirstFitError(cs[1..], plan, today);
        var i :| 0 <= i < |cs| - 1 && Attempt(cs[1..][i], plan, today) == Err(r.error) &&
          forall j :: 0 <= j < i ==> Attempt(cs[1..][j], plan, today) == Ok(None);
        forall j | 0 < j < i + 1 ensures Attempt(cs[j], plan, today) == Ok(None) {
          assert cs[j] == cs[1..][j - 1];
        }
        assert cs[i + 1] == cs[1..][i];
      }
    }
  }

  // ---------------------------------------------------------------------------
  // The planner as the source runs it.

  class Planner {
    var curDate: int
    var curDeadline: int
    var ordering: seq<DayPlan>
    var curGroupToPcbs: seq<GroupLoad>
    var curWorkingTime: int

    function State(): Sched
      reads this
    {
      Sched(curDate, curDeadline, ordering, curGroupToPcbs, curWorkingTime)
    }

    constructor (today: int)
      ensures State() == Sched(today, today + 1, [], [], 0)
    {
      curDate := today;
      curDeadline := today + 1;
      ordering := [];
      curGroupToPcbs := [];
      curWorkingTime := 0;
    }

    /** `push_in_ordering`. */
    method PushInOrdering()
      modifies this
      ensures State() == Push(old(State()))
    {
      ordering := ordering + [DayPlan(curDate, Order(curGroupToPcbs))];
      curGroupToPcbs := [];
      curWorkingTime := 0;
      curDate := curDate + 1;
    }

    /** The `while amount > 0` loop for one PCB of a delivery date. */
    method ScheduleAmount(pcb: string, group: nat, amount: int) returns (rest: int)
      modifies this
      ensures (State(), rest) == RunAmount(old(State()), pcb, group, amount)
    {
      rest := amount;
      while rest > 0
        invariant RunAmount(State(), pcb, group, rest) == RunAmount(old(State()), pcb, group, amount)
        decreases DaysLeft(State()), rest
      {
        if curDate > curDeadline {
          break;
        }
        var setup := SetupCost(curGroupToPcbs, group);
        var possibleAmount := Possible(State(), group, rest);
        if possibleAmount > 0 {
          curWorkingTime := curWorkingTime + possibleAmount * TimePerPcb + setup;
          curGroupToPcbs := AddUnits(curGroupToPcbs, group, pcb, possibleAmount);
          rest := rest - possibleAmount;
        } else {
          PushInOrdering();
        }
      }
    }

    /** The loop over the sorted `(pcb, amount)` items of one delivery date. */
    method ScheduleDate(items: seq<(string, int)>, mapping: map<string, nat>)
      requires AllMapped(items, mapping)
      modifies this
      ensures State() == RunItems(old(State()), items, mapping)
    {
      for k := 0 to |items|
        invariant RunItems(State(), items[k..], mapping) == RunItems(old(State()), items, mapping)
      {
        assert items[k..][1..] == items[k + 1..];
        var pcb := items[k].0;
        var rest := ScheduleAmount(pcb, mapping[pcb], items[k].1);
        if curDate > curDeadline {
          break;
        }
      }
    }
  }

  /** The planning of one combination. */
  method TryCombination(c: Objects.Combination, plan: seq<SapEntry>, today: int)
    returns (r: Result<Option<seq<DayPlan>>>)
    ensures r == Attempt(c, plan, today)
  {
    var planner := new Planner(today);
    var mapping := GroupMapping(c.groups);
    ghost var start := planner.State();
    for i := 0 to |plan|
      invariant RunPlan(planner.State(), plan[i..], mapping) == RunPlan(start, plan, mapping)
    {
      assert plan[i..][1..] == plan[i + 1..];
      planner.curDeadline := plan[i].date;
      var items := Zip(plan[i].pcbs, plan[i].amounts);
      if !AllMapped(items, mapping) {
        return Err(UnknownPcbError);
      }
      planner.ScheduleDate(SortByGroup(items, mapping), mapping);
      if planner.curDate > planner.curDeadline {
        break;
      }
    }
    if planner.curDate <= planner.curDeadline {
      if planner.curGroupToPcbs != [] {
        planner.PushInOrdering();
      }
      return Ok(Some(planner.ordering));
    }
    return Ok(None);
  }

  /** `PrioritizeBasedOnSAP`: the stored solution must be a dict; its
      combinations are tried in order and the first that fits is returned. */
  method PrioritizeBasedOnSap(solutions: Option<Objects.Json>, plan: seq<SapEntry>, today: int)
    returns (r: Result<Outcome>)
    ensures r == Prioritize(solutions, plan, today)
  {
    if solutions.None? || !solutions.value.JObj? {
      return Ok(Refused(NotOptimizedError));
    }
    var decoded := Objects.CombinationsFromJson(solutions.value);
    if decoded.Err? {
      return Err(decoded.error);
    }
    var cs := decoded.value.combinations;
    for i := 0 to |cs|
      invariant FirstFit(cs[i..], plan, today) == FirstFit(cs, plan, today)
    {
      assert cs[i..][1..] == cs[i + 1..];
      var attempt := TryCombination(cs[i], plan, today);
      if attempt.Err? {
        return Err(attempt.error);
      }
      if attempt.value.Some? {
        return Ok(Planned(cs[i], attempt.value.value));
      }
    }
    return Ok(Refused(NoSlackError));
  }
}
