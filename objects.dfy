/** The result records `PCB`, `Group`, `Combination` and `Combinations` and their
    JSON encodings. A JSON value is modelled as a tree whose objects keep their
    keys in insertion order, as Python dicts do; the encoders never repeat a key. */
module Objects {
  import opened Common

  datatype Json =
    | JNull
    | JInt(i: int)
    | JStr(s: string)
    | JArr(items: seq<Json>)
    | JObj(fields: seq<(string, Json)>)

  /** `d[key]` on a dict: the value stored under `key`, if any. */
  function Lookup(fields: seq<(string, Json)>, key: string): (r: Option<Json>)
    ensures r.Some? <==> exists k :: 0 <= k < |fields| && fields[k].0 == key
  {
    if fields == [] then None
    else if fields[0].0 == key then Some(fields[0].1)
    else
      var r := Lookup(fields[1..], key);
      assert forall k :: 0 < k < |fields| ==> fields[k] == fields[1..][k - 1];
      r
  }

  /** `key in d` for a dict `d`. */
  predicate HasKey(j: Json, key: string)
  {
    j.JObj? && Lookup(j.fields, key).Some?
  }

  /** `value[key]` for a string key. */
  function Subscript(v: Json, key: string): (r: Result<Json>)
    ensures r.Ok? <==> v.JObj? && Lookup(v.fields, key).Some?
    ensures r.Ok? ==> r.value == Lookup(v.fields, key).value
  {
    if !v.JObj? then Err("TypeError: indices must be integers")
    else match Lookup(v.fields, key)
      case None => Err("KeyError: '" + key + "'")
      case Some(x) => Ok(x)
  }

  /** `for x in value`: the elements of a list, the keys of a dict, the characters of a string. */
  function Iterate(v: Json): Result<seq<Json>>
  {
    match v
    case JArr(items) => Ok(items)
    case JObj(fields) => Ok(seq(|fields|, k requires 0 <= k < |fields| => JStr(fields[k].0)))
    case JStr(s) => Ok(seq(|s|, k requires 0 <= k < |s| => JStr([s[k]])))
    case _ => Err("TypeError: object is not iterable")
  }

  // ---------------------------------------------------------------------------
  // The records.

  datatype Pcb = Pcb(name: string, materials: Option<seq<string>>)
  datatype Group = Group(pcbs: seq<Pcb>)
  datatype Combination = Combination(groups: seq<Group>)
  datatype Combinations = Combinations(combinations: seq<Combination>)

  /** The record a group becomes after a trip through the id-numbered encoding,
      which keeps names only. */
  function NamesOnly(g: Group): (r: Group)
    ensures |r.pcbs| == |g.pcbs|
    ensures forall k :: 0 <= k < |g.pcbs| ==> r.pcbs[k] == Pcb(g.pcbs[k].name, None)
  {
    Group(PcbsNamed(Names(g.pcbs)))
  }

  /** `[PCB(name=n) for n in names]`. */
  function PcbsNamed(names: seq<string>): (r: seq<Pcb>)
    ensures |r| == |names| && forall k :: 0 <= k < |names| ==> r[k] == Pcb(names[k], None)
  {
    seq(|names|, k requires 0 <= k < |names| => Pcb(names[k], None))
  }

  function CombinationNamesOnly(c: Combination): (r: Combination)
    ensures |r.groups| == |c.groups|
    ensures forall k :: 0 <= k < |c.groups| ==> r.groups[k] == NamesOnly(c.groups[k])
  {
    Combination(seq(|c.groups|, k requires 0 <= k < |c.groups| => NamesOnly(c.groups[k])))
  }

  // ---------------------------------------------------------------------------
  // Encoders.

  function StringsToJson(xs: seq<string>): (r: seq<Json>)
    ensures |r| == |xs| && forall k :: 0 <= k < |xs| ==> r[k] == JStr(xs[k])
  {
    seq(|xs|, k requires 0 <= k < |xs| => JStr(xs[k]))
  }

  /** `PCB.to_json`. */
  function PcbToJson(p: Pcb): Json
  {
    JObj([("name", JStr(p.name)),
          ("materials", if p.materials.None? then JNull else JArr(StringsToJson(p.materials.value)))])
  }

  function Names(pcbs: seq<Pcb>): (r: seq<string>)
    ensures |r| == |pcbs| && forall k :: 0 <= k < |pcbs| ==> r[k] == pcbs[k].name
  {
    seq(|pcbs|, k requires 0 <= k < |pcbs| => pcbs[k].name)
  }

  function PcbsToJson(pcbs: seq<Pcb>): (r: seq<Json>)
    ensures |r| == |pcbs| && forall k :: 0 <= k < |pcbs| ==> r[k] == PcbToJson(pcbs[k])
  {
    seq(|pcbs|, k requires 0 <= k < |pcbs| => PcbToJson(pcbs[k]))
  }

  /** `Group.to_json(group_id)`: without an id the full PCB records, with one only the names. */
  function GroupToJson(g: Group, groupId: Option<int>): Json
  {
    if groupId.None? then JArr(PcbsToJson(g.pcbs))
    else JObj([("group_id", JInt(groupId.value)), ("PCBs", JArr(StringsToJson(Names(g.pcbs))))])
  }

  /** The groups of a combination, numbered from `first` on in order. */
  function NumberedFrom(groups: seq<Group>, first: int): (r: seq<Json>)
    ensures |r| == |groups| && forall k :: 0 <= k < |groups| ==> r[k] == GroupToJson(groups[k], Some(first + k))
  {
    seq(|groups|, k requires 0 <= k < |groups| => GroupToJson(groups[k], Some(first + k)))
  }

  /** The group list of a combination, each group numbered from 1 in order. */
  function NumberedGroups(groups: seq<Group>): seq<Json>
  {
    NumberedFrom(groups, 1)
  }

  /** The key `f"combination{combination_id}"`. */
  function CombinationKey(id: int): string
  {
    "combination" + IntToString(id)
  }

  /** `Combination.to_json(combination_id)`. */
  function CombinationToJson(c: Combination, combinationId: Option<int>): Json
  {
    var groups := JArr(NumberedGroups(c.groups));
    if combinationId.None? then JObj([("groups", groups)])
    else JObj([(CombinationKey(combinationId.value), groups)])
  }

  /** `Combinations.to_json`: one combination is written in the "groups" shape,
      any other number as a list numbered from 1. */
  function CombinationsToJson(cs: Combinations): Json
  {
    var all := cs.combinations;
    if |all| == 1 then CombinationToJson(all[0], None)
    else JObj([("combinations", JArr(NumberedCombinations(all, 1)))])
  }

  /** The combinations, numbered from `first` on in order. */
  function NumberedCombinations(all: seq<Combination>, first: int): (r: seq<Json>)
    ensures |r| == |all| && forall k :: 0 <= k < |all| ==> r[k] == CombinationToJson(all[k], Some(first + k))
  {
    seq(|all|, k requires 0 <= k < |all| => CombinationToJson(all[k], Some(first + k)))
  }

  // ---------------------------------------------------------------------------
  // Decoders. Python raises on a missing key and on indexing a value that is
  // not a dict, but stores whatever values it finds without checking their
  // kinds. These decoders accept only the kinds the encoders write and report
  // any other kind as a TypeError.

  function StringsFromJson(items: seq<Json>): (r: Result<seq<string>>)
    ensures r.Ok? ==> |r.value| == |items|
  {
    if items == [] then Ok([])
    else if !items[0].JStr? then Err("TypeError: expected a string")
    else
      var rest := StringsFromJson(items[1..]);
      if rest.Err? then rest else Ok([items[0].s] + rest.value)
  }

  /** `PCB.from_json`. */
  function PcbFromJson(j: Json): Result<Pcb>
  {
    if !j.JObj? then Err("TypeError: a PCB must be a dict")
    else
      var name := Lookup(j.fields, "name");
      var materials := Lookup(j.fields, "materials");
      if name.None? then Err("KeyError: 'name'")
      else if materials.None? then Err("KeyError: 'materials'")
      else if !name.value.JStr? then Err("TypeError: the name must be a string")
      else if materials.value.JNull? then Ok(Pcb(name.value.s, None))
      else if !materials.value.JArr? then Err("TypeError: the materials must be a list")
      else
        var ms := StringsFromJson(materials.value.items);
        if ms.Err? then Err(ms.error) else Ok(Pcb(name.value.s, Some(ms.value)))
  }

  function PcbsFromJson(items: seq<Json>): (r: Result<seq<Pcb>>)
    ensures r.Ok? ==> |r.value| == |items|
  {
    if items == [] then Ok([])
    else
      var first := PcbFromJson(items[0]);
      var rest := PcbsFromJson(items[1..]);
      if first.Err? then Err(first.error)
      else if rest.Err? then rest
      else Ok([first.value] + rest.value)
  }

  /** `Group.from_json`: a list holds full PCB records, a dict only names. */
  function GroupFromJson(j: Json): Result<Group>
  {
    if j.JArr? then
      var pcbs := PcbsFromJson(j.items);
      if pcbs.Err? then Err(pcbs.error) else Ok(Group(pcbs.value))
    else if !j.JObj? then Err("TypeError: a group must be a list or a dict")
    else
      var names := Lookup(j.fields, "PCBs");
      if names.None? then Err("KeyError: 'PCBs'")
      else if !names.value.JArr? then Err("TypeError: 'PCBs' must be a list")
      else
        var ns := StringsFromJson(names.value.items);
        if ns.Err? then Err(ns.error)
        else Ok(Group(PcbsNamed(ns.value)))
  }

  function GroupsFromJson(items: seq<Json>): (r: Result<seq<Group>>)
    ensures r.Ok? ==> |r.value| == |items|
  {
    if items == [] then Ok([])
    else
      var first := GroupFromJson(items[0]);
      var rest := GroupsFromJson(items[1..]);
      if first.Err? then Err(first.error)
      else if rest.Err? then rest
      else Ok([first.value] + rest.value)
  }

  /** `Combination.from_json`: the list under "groups", otherwise the first value of the dict. */
  function CombinationFromJson(j: Json): Result<Combination>
  {
    if !j.JObj? then Err("TypeError: a combination must be a dict")
    else
      var groups :=
        if HasKey(j, "groups") then Some(Lookup(j.fields, "groups").value)
        else if j.fields == [] then None
        else Some(j.fields[0].1);
      if groups.None? then Err("StopIteration")
      else if !groups.value.JArr? then Err("TypeError: the groups must be a list")
      else
        var gs := GroupsFromJson(groups.value.items);
        if gs.Err? then Err(gs.error) else Ok(Combination(gs.value))
  }

  function CombinationListFromJson(items: seq<Json>): (r: Result<seq<Combination>>)
    ensures r.Ok? ==> |r.value| == |items|
  {
    if items == [] then Ok([])
    else
      var first := CombinationFromJson(items[0]);
      var rest := CombinationListFromJson(items[1..]);
      if first.Err? then Err(first.error)
      else if rest.Err? then rest
      else Ok([first.value] + rest.value)
  }

  /** `Combinations.from_json`: the list under "combinations", otherwise one combination. */
  function CombinationsFromJson(j: Json): Result<Combinations>
  {
    if !j.JObj? then Err("TypeError: the solution must be a dict")
    else if HasKey(j, "combinations") then
      var list := Lookup(j.fields, "combinations").value;
      if !list.JArr? then Err("TypeError: 'combinations' must be a list")
      else
        var cs := CombinationListFromJson(list.items);
        if cs.Err? then Err(cs.error) else Ok(Combinations(cs.value))
    else
      var c := CombinationFromJson(j);
      if c.Err? then Err(c.error) else Ok(Combinations([c.value]))
  }

  // ---------------------------------------------------------------------------
  // Round trips.

  lemma {:induction false} StringsRoundTrip(xs: seq<string>)
    ensures StringsFromJson(StringsToJson(xs)) == Ok(xs)
    decreases |xs|
  {
    if xs != [] {
      StringsRoundTrip(xs[1..]);
      assert StringsToJson(xs)[1..] == StringsToJson(xs[1..]);
      assert [xs[0]] + xs[1..] == xs;
    }
  }

  /** `PCB.from_json(p.to_json()) == p`. */
  lemma PcbRoundTrip(p: Pcb)
    ensures PcbFromJson(PcbToJson(p)) == Ok(p)
  {
    var j := PcbToJson(p);
    assert Lookup(j.fields, "name") == Some(JStr(p.name));
    assert Lookup(j.fields[1..], "materials") == Some(j.fields[1].1);
    assert Lookup(j.fields, "materials") == Some(j.fields[1].1);
    if p.materials.Some? {
      StringsRoundTrip(p.materials.value);
    }
  }

  lemma {:induction false} PcbsRoundTrip(pcbs: seq<Pcb>)
    ensures PcbsFromJson(PcbsToJson(pcbs)) == Ok(pcbs)
    decreases |pcbs|
  {
    if pcbs != [] {
      PcbRoundTrip(pcbs[0]);
      PcbsRoundTrip(pcbs[1..]);
      assert PcbsToJson(pcbs)[1..] == PcbsToJson(pcbs[1..]);
      assert [pcbs[0]] + pcbs[1..] == pcbs;
    }
  }

  /** `Group.from_json(g.to_json())` gives back `g`, materials included. */
  lemma GroupRoundTrip(g: Group)
    ensures GroupFromJson(GroupToJson(g, None)) == Ok(g)
  {
    PcbsRoundTrip(g.pcbs);
  }

  /** `Group.from_json(g.to_json(group_id))` keeps the names in order; every
      `materials` comes back as None. */
  lemma GroupIdRoundTrip(g: Group, groupId: int)
    ensures GroupFromJson(GroupToJson(g, Some(groupId))) == Ok(NamesOnly(g))
  {
    var j := GroupToJson(g, Some(groupId));
    assert Lookup(j.fields[1..], "PCBs") == Some(j.fields[1].1);
    assert Lookup(j.fields, "PCBs") == Some(j.fields[1].1);
    StringsRoundTrip(Names(g.pcbs));
  }

  /** The group list of `Combination.to_json` numbers the groups 1..n in order,
      each entry holding the names of that group's PCBs. */
  lemma GroupsAreNumbered(c: Combination, combinationId: Option<int>)
    ensures var j := CombinationToJson(c, combinationId);
      |j.fields| == 1 && j.fields[0].1.JArr? && |j.fields[0].1.items| == |c.groups|
      && forall k :: 0 <= k < |c.groups| ==>
        var entry := j.fields[0].1.items[k];
        entry.JObj?
        && Lookup(entry.fields, "group_id") == Some(JInt(k + 1))
        && Lookup(entry.fields, "PCBs") == Some(JArr(StringsToJson(Names(c.groups[k].pcbs))))
  {
    var items := CombinationToJson(c, combinationId).fields[0].1.items;
    forall k | 0 <= k < |c.groups|
      ensures Lookup(items[k].fields, "PCBs") == Some(JArr(StringsToJson(Names(c.groups[k].pcbs))))
    {
      assert Lookup(items[k].fields[1..], "PCBs") == Some(items[k].fields[1].1);
    }
  }

  lemma {:induction false} NumberedGroupsRoundTrip(groups: seq<Group>, first: int)
    ensures GroupsFromJson(NumberedFrom(groups, first)) == Ok(CombinationNamesOnly(Combination(groups)).groups)
    decreases |groups|
  {
    if groups != [] {
      GroupIdRoundTrip(groups[0], first);
      NumberedGroupsRoundTrip(groups[1..], first + 1);
      assert NumberedFrom(groups, first)[1..] == NumberedFrom(groups[1..], first + 1);
      assert CombinationNamesOnly(Combination(groups)).groups
        == [NamesOnly(groups[0])] + CombinationNamesOnly(Combination(groups[1..])).groups;
    }
  }

  /** `Combination.from_json` on either output shape of `to_json` gives the same
      group name lists. */
  lemma CombinationRoundTrip(c: Combination, combinationId: Option<int>)
    ensures CombinationFromJson(CombinationToJson(c, combinationId)) == Ok(CombinationNamesOnly(c))
  {
    NumberedGroupsRoundTrip(c.groups, 1);
    if combinationId.Some? {
      var key := CombinationKey(combinationId.value);
      assert key[0] == 'c';
      assert Lookup([(key, JArr(NumberedGroups(c.groups)))], "groups") == None;
    }
  }

  /** `Combinations.to_json` uses the list shape exactly when there is not one combination. */
  lemma CombinationsShape(cs: Combinations)
    ensures HasKey(CombinationsToJson(cs), "combinations") <==> |cs.combinations| != 1
  {
  }

  function AllNamesOnly(all: seq<Combination>): (r: seq<Combination>)
    ensures |r| == |all| && forall k :: 0 <= k < |all| ==> r[k] == CombinationNamesOnly(all[k])
  {
    seq(|all|, k requires 0 <= k < |all| => CombinationNamesOnly(all[k]))
  }

  lemma {:induction false} CombinationListRoundTrip(all: seq<Combination>, first: int)
    ensures CombinationListFromJson(NumberedCombinations(all, first)) == Ok(AllNamesOnly(all))
    decreases |all|
  {
    if all != [] {
      var items := NumberedCombinations(all, first);
      CombinationRoundTrip(all[0], Some(first));
      CombinationListRoundTrip(all[1..], first + 1);
      NumberedCombinationsSplit(all, first);
      CombinationListStep(items, CombinationNamesOnly(all[0]), AllNamesOnly(all[1..]));
      AllNamesOnlySplit(all);
    }
  }

  lemma NumberedCombinationsSplit(all: seq<Combination>, first: int)
    requires all != []
    ensures NumberedCombinations(all, first)[0] == CombinationToJson(all[0], Some(first))
    ensures NumberedCombinations(all, first)[1..] == NumberedCombinations(all[1..], first + 1)
  {
  }

  lemma AllNamesOnlySplit(all: seq<Combination>)
    requires all != []
    ensures AllNamesOnly(all) == [CombinationNamesOnly(all[0])] + AllNamesOnly(all[1..])
  {
  }

  lemma CombinationListStep(items: seq<Json>, head: Combination, tail: seq<Combination>)
    requires items != []
    requires CombinationFromJson(items[0]) == Ok(head)
    requires CombinationListFromJson(items[1..]) == Ok(tail)
    ensures CombinationListFromJson(items) == Ok([head] + tail)
  {
  }

  /** `Combinations.from_json(cs.to_json())` keeps the number of combinations and
      every group's PCB names in order. */
  lemma CombinationsRoundTrip(cs: Combinations)
    ensures CombinationsFromJson(CombinationsToJson(cs)) == Ok(Combinations(AllNamesOnly(cs.combinations)))
  {
    var all := cs.combinations;
    if |all| == 1 {
      CombinationRoundTrip(all[0], None);
      assert Lookup([("groups", JArr(NumberedGroups(all[0].groups)))], "combinations") == None;
      assert AllNamesOnly(all) == [CombinationNamesOnly(all[0])];
    } else {
      CombinationListRoundTrip(all, 1);
    }
  }
}
