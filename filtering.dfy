/** `FilterPCBs` of llm/filtering_calls.py.

    The stored solution is walked as the JSON value it is: the list under
    "combinations", every (key, groups) entry of each combination, and every
    group whose "PCBs" holds one of the requested names. Python's `in`, `[...]`
    and iteration behave differently on lists, strings and dicts, and raise on
    other values; these cases are kept, and a raised exception is an `Err`. */
module Filtering {
  import opened Common
  import opened Objects

  const NoSolutionsMessage: string := "No solutions available to filter."

  /** The answer: a message string or the list of matching groups. */
  datatype Answer = Message(text: string) | Groups(groups: seq<Json>)

  /** `[f"PCB{str(pcb).zfill(3)}" for pcb in important_pcbs]`. */
  function RequestedNames(important: seq<int>): (r: seq<string>)
    ensures |r| == |important| && forall k :: 0 <= k < |important| ==> r[k] == PcbName(important[k])
  {
    seq(|important|, k requires 0 <= k < |important| => PcbName(important[k]))
  }

  /** The items of a list of names as Python prints them, `'a', 'b'`. */
  function QuotedItems(names: seq<string>): string
  {
    if names == [] then ""
    else "'" + names[0] + "'" + (if |names| == 1 then "" else ", " + QuotedItems(names[1..]))
  }

  function NoGroupsMessage(names: seq<string>): string
  {
    "No groups found containing the specified PCBs: [" + QuotedItems(names) + "]."
  }

  /** Python truthiness of the stored solution. */
  predicate Truthy(solutions: Option<Json>)
  {
    solutions.Some? &&
    match solutions.value
    case JNull => false
    case JInt(i) => i != 0
    case JStr(s) => s != []
    case JArr(items) => items != []
    case JObj(fields) => fields != []
  }

  predicate IsSubstring(p: string, s: string)
  {
    exists i :: 0 <= i <= |s| && p <= s[i..]
  }

  /** `pcb in value`: an element of a list, a substring of a string, a key of a dict. */
  function In(pcb: string, v: Json): Result<bool>
  {
    match v
    case JArr(items) => Ok(JStr(pcb) in items)
    case JStr(s) => Ok(IsSubstring(pcb, s))
    case JObj(fields) => Ok(Lookup(fields, pcb).Some?)
    case _ => Err("TypeError: argument is not iterable")
  }

  /** `any(pcb in group['PCBs'] for pcb in names)`: the lookup happens only once
      there is a name to test, and the test stops at the first name found. */
  function Matches(group: Json, names: seq<string>): Result<bool>
  {
    if names == [] then Ok(false)
    else match Subscript(group, "PCBs")
      case Err(e) => Err(e)
      case Ok(v) =>
        match In(names[0], v)
        case Err(e) => Err(e)
        case Ok(b) => if b then Ok(true) else Matches(group, names[1..])
  }

  /** `[group for group in groups if any(...)]`. */
  function MatchingGroups(groups: seq<Json>, names: seq<string>): Result<seq<Json>>
  {
    if groups == [] then Ok([])
    else match Matches(groups[0], names)
      case Err(e) => Err(e)
      case Ok(b) =>
        match MatchingGroups(groups[1..], names)
        case Err(e) => Err(e)
        case Ok(rest) => Ok((if b then [groups[0]] else []) + rest)
  }

  /** The `for _, groups in ...` loop over (key, groups) entries from a list
      `acc` already gathered: the matching groups of every entry, in order. */
  function ItemsMatches(fields: seq<(string, Json)>, names: seq<string>, acc: seq<Json>): Result<seq<Json>>
  {
    if fields == [] then Ok(acc)
    else
      match Iterate(fields[0].1)
      case Err(e) => Err(e)
      case Ok(gs) =>
        match MatchingGroups(gs, names)
        case Err(e) => Err(e)
        case Ok(m) => ItemsMatches(fields[1..], names, acc + m)
  }

  /** `combination.items()` is there only on a dict. */
  function CombinationMatches(c: Json, names: seq<string>): Result<seq<Json>>
  {
    if !c.JObj? then Err("AttributeError: object has no attribute 'items'")
    else ItemsMatches(c.fields, names, [])
  }

  /** The outer loop from a list `acc` already gathered: stop after the first
      combination at which four or more groups are gathered. */
  function Scan(cs: seq<Json>, names: seq<string>, acc: seq<Json>): Result<seq<Json>>
    decreases |cs|
  {
    if cs == [] then Ok(acc)
    else match CombinationMatches(cs[0], names)
      case Err(e) => Err(e)
      case Ok(m) => if |acc + m| >= 4 then Ok(acc + m) else Scan(cs[1..], names, acc + m)
  }

  /** `FilterPCBs(important_pcbs)` for the stored solution. */
  function Filter(important: seq<int>, solutions: Option<Json>): Result<Answer>
  {
    var names := RequestedNames(important);
    if !Truthy(solutions) then Ok(Message(NoSolutionsMessage))
    else match Subscript(solutions.value, "combinations")
      case Err(e) => Err(e)
      case Ok(v) =>
        match Iterate(v)
        case Err(e) => Err(e)
        case Ok(cs) =>
          match Scan(cs, names, [])
          case Err(e) => Err(e)
          case Ok(r) => if r == [] then Ok(Message(NoGroupsMessage(names))) else Ok(Groups(r))
  }

  // ---------------------------------------------------------------------------
  // The loops.

  /** The inner `for _, groups in combination.items()` loop. */
  method CombinationGroups(c: Json, names: seq<string>) returns (r: Result<seq<Json>>)
    ensures r == CombinationMatches(c, names)
  {
    if !c.JObj? {
      return Err("AttributeError: object has no attribute 'items'");
    }
    var fields := c.fields;
    var found: seq<Json> := [];
    for k := 0 to |fields|
      invariant ItemsMatches(fields[k..], names, found) == ItemsMatches(fields, names, [])
    {
      assert fields[k..][1..] == fields[k + 1..];
      var groups := Iterate(fields[k].1);
      if groups.Err? {
        return Err(groups.error);
      }
      var matching := MatchingGroups(groups.value, names);
      if matching.Err? {
        return Err(matching.error);
      }
      if matching.value != [] {
        found := found + matching.value;
      } else {
        assert found + matching.value == found;
      }
    }
    r := Ok(found);
  }

  /** `FilterPCBs`: the outer loop over the combinations with its early stop. */
  method FilterPcbs(important: seq<int>, solutions: Option<Json>) returns (r: Result<Answer>)
    ensures r == Filter(important, solutions)
  {
    var names := RequestedNames(important);
    if !Truthy(solutions) {
      return Ok(Message(NoSolutionsMessage));
    }
    var list := Subscript(solutions.value, "combinations");
    if list.Err? {
      return Err(list.error);
    }
    var cs := Iterate(list.value);
    if cs.Err? {
      return Err(cs.error);
    }
    var filteredGroups: seq<Json> := [];
    for i := 0 to |cs.value|
      invariant Scan(cs.value[i..], names, filteredGroups) == Scan(cs.value, names, [])
    {
      assert cs.value[i..][1..] == cs.value[i + 1..];
      var matching := CombinationGroups(cs.value[i], names);
      if matching.Err? {
        return Err(matching.error);
      }
      filteredGroups := filteredGroups + matching.value;
      if |filteredGroups| >= 4 {
        assert Scan(cs.value, names, []) == Ok(filteredGroups);
        break;
      }
    }
    assert Scan(cs.value, names, []) == Ok(filteredGroups);
    if filteredGroups == [] {
      return Ok(Message(NoGroupsMessage(names)));
    }
    return Ok(Groups(filteredGroups));
  }

  // ---------------------------------------------------------------------------
  // What the filter returns.

  /** A group matches exactly when its "PCBs" value holds one of the names;
      for the list the system writes, that is one of the names being an element. */
  lemma {:induction false} MatchesMeans(g: Json, names: seq<string>)
    ensures Matches(g, names) == Ok(true) ==>
      Subscript(g, "PCBs").Ok? && exists k :: 0 <= k < |names| && In(names[k], Subscript(g, "PCBs").value) == Ok(true)
    ensures g.JObj? && Lookup(g.fields, "PCBs").Some? && Lookup(g.fields, "PCBs").value.JArr? ==>
      Matches(g, names) == Ok(exists k :: 0 <= k < |names| && JStr(names[k]) in Lookup(g.fields, "PCBs").value.items)
  {
    if names != [] {
      MatchesMeans(g, names[1..]);
      assert forall k :: 0 < k < |names| ==> names[1..][k - 1] == names[k];
    }
  }

  /** The comprehension keeps exactly the matching groups, and no more than
      it was given. */
  lemma {:induction false} MatchingGroupsFilter(groups: seq<Json>, names: seq<string>)
    ensures MatchingGroups(groups, names).Ok? ==>
      var m := MatchingGroups(groups, names).value;
      |m| <= |groups| && forall g :: g in m <==> g in groups && Matches(g, names) == Ok(true)
  {
    if groups != [] {
      MatchingGroupsFilter(groups[1..], names);
      assert forall g :: g in groups <==> g == groups[0] || g in groups[1..];
    }
  }

  /** Every group gathered from one combination matches. */
  lemma {:induction false} ItemsMatchesMatch(fields: seq<(string, Json)>, names: seq<string>, acc: seq<Json>)
    requires forall g :: g in acc ==> Matches(g, names) == Ok(true)
    ensures ItemsMatches(fields, names, acc).Ok? ==>
      forall g :: g in ItemsMatches(fields, names, acc).value ==> Matches(g, names) == Ok(true)
  {
    if fields != [] {
      var gs := Iterate(fields[0].1);
      if gs.Ok? && MatchingGroups(gs.value, names).Ok? {
        MatchingGroupsFilter(gs.value, names);
        ItemsMatchesMatch(fields[1..], names, acc + MatchingGroups(gs.value, names).value);
      }
    }
  }

  /** The outer loop, all combinations: the groups of each, one after another. */
  function AllMatches(cs: seq<Json>, names: seq<string>): Result<seq<Json>>
  {
    if cs == [] then Ok([])
    else
      var n := |cs| - 1;
      match AllMatches(cs[..n], names)
      case Err(e) => Err(e)
      case Ok(before) =>
        match CombinationMatches(cs[n], names)
        case Err(e) => Err(e)
        case Ok(m) => Ok(before + m)
  }

  /** The first `j` combinations gather fewer than four groups. */
  predicate Below(cs: seq<Json>, names: seq<string>, j: nat)
    requires j <= |cs|
  {
    AllMatches(cs[..j], names).Ok? && |AllMatches(cs[..j], names).value| < 4
  }

  lemma {:induction false} ScanFrom(cs: seq<Json>, names: seq<string>, i: nat, acc: seq<Json>)
    requires i <= |cs| && AllMatches(cs[..i], names) == Ok(acc) && |acc| < 4
    requires forall j :: 0 <= j < i ==> Below(cs, names, j)
    ensures Scan(cs[i..], names, acc).Ok? ==>
      exists m :: i <= m <= |cs| && AllMatches(cs[..m], names) == Scan(cs[i..], names, acc) &&
        (m < |cs| ==> |Scan(cs[i..], names, acc).value| >= 4) &&
        forall j :: 0 <= j < m ==> Below(cs, names, j)
    decreases |cs| - i
  {
    if i < |cs| {
      assert cs[..i + 1][..i] == cs[..i];
      assert cs[i..][1..] == cs[i + 1..];
      var c := CombinationMatches(cs[i], names);
      if c.Ok? {
        var next := acc + c.value;
        assert AllMatches(cs[..i + 1], names) == Ok(next);
        if |next| < 4 {
          ScanFrom(cs, names, i + 1, next);
        }
      }
    } else {
      assert cs[..|cs|] == cs;
    }
  }

  /** The early stop: the groups returned are those of the first `m`
      combinations, one after another, where `m` is the first count of
      combinations that gathers four or more groups, or all of them. */
  lemma ScanStops(cs: seq<Json>, names: seq<string>)
    ensures Scan(cs, names, []).Ok? ==>
      exists m :: 0 <= m <= |cs| && AllMatches(cs[..m], names) == Scan(cs, names, []) &&
        (m < |cs| ==> |Scan(cs, names, []).value| >= 4) &&
        forall j :: 0 <= j < m ==> Below(cs, names, j)
  {
    assert cs[..0] == [];
    ScanFrom(cs, names, 0, []);
    assert cs[0..] == cs;
  }

  /** Every group the gathering returns matches. */
  lemma {:induction false} ScanMatch(cs: seq<Json>, names: seq<string>, acc: seq<Json>)
    requires forall g :: g in acc ==> Matches(g, names) == Ok(true)
    ensures Scan(cs, names, acc).Ok? ==> forall g :: g in Scan(cs, names, acc).value ==> Matches(g, names) == Ok(true)
    decreases |cs|
  {
    if cs != [] && CombinationMatches(cs[0], names).Ok? {
      ItemsMatchesMatch(cs[0].fields, names, []);
      ScanMatch(cs[1..], names, acc + CombinationMatches(cs[0], names).value);
    }
  }

  /** `FilterPCBs` answers the no-solutions message exactly for a missing or
      falsy solution, the no-groups message only when nothing matched, and
      otherwise a non-empty list of groups that each hold a requested name. */
  lemma FilterFacts(important: seq<int>, solutions: Option<Json>)
    ensures Filter(important, solutions) == Ok(Message(NoSolutionsMessage)) <==> !Truthy(solutions)
    ensures Filter(important, solutions).Ok? && Filter(important, solutions).value.Message? ==>
      Filter(important, solutions).value.text in {NoSolutionsMessage, NoGroupsMessage(RequestedNames(important))}
    ensures Filter(important, solutions).Ok? && Filter(important, solutions).value.Groups? ==>
      var gs := Filter(important, solutions).value.groups;
      gs != [] && forall g :: g in gs ==> Matches(g, RequestedNames(important)) == Ok(true)
  {
    var names := RequestedNames(important);
    var pre := "No groups found containing the specified PCBs: [";
    assert NoGroupsMessage(names) == pre + (QuotedItems(names) + "].");
    assert |NoGroupsMessage(names)| > |NoSolutionsMessage|;
    if Truthy(solutions) {
      var v := Subscript(solutions.value, "combinations");
      if v.Ok? && Iterate(v.value).Ok? {
        ScanMatch(Iterate(v.value).value, names, []);
      }
    }
  }

  // ---------------------------------------------------------------------------
  // Stored solutions. `Combinations.to_json` writes a single combination as
  // `{"groups": [...]}`, without the "combinations" key the filter indexes.

  /** A group whose "PCBs" is a list, as the system writes every group. */
  predicate PcbsList(g: Json)
  {
    g.JObj? && Lookup(g.fields, "PCBs").Some? && Lookup(g.fields, "PCBs").value.JArr?
  }

  lemma {:induction false} MatchingGroupsOk(groups: seq<Json>, names: seq<string>)
    requires forall k :: 0 <= k < |groups| ==> PcbsList(groups[k])
    ensures MatchingGroups(groups, names).Ok?
  {
    if groups != [] {
      MatchesMeans(groups[0], names);
      assert forall k :: 0 <= k < |groups| - 1 ==> groups[1..][k] == groups[k + 1];
      MatchingGroupsOk(groups[1..], names);
    }
  }

  /** Filtering never fails on a combination the system wrote. */
  lemma CombinationJsonMatches(c: Combination, id: Option<int>, names: seq<string>)
    ensures CombinationMatches(CombinationToJson(c, id), names).Ok?
  {
    var gs := NumberedGroups(c.groups);
    forall k | 0 <= k < |gs| ensures PcbsList(gs[k]) {
      assert gs[k] == GroupToJson(c.groups[k], Some(1 + k));
      assert gs[k].fields[0].0 != "PCBs";
    }
    MatchingGroupsOk(gs, names);
    var j := CombinationToJson(c, id);
    var m := MatchingGroups(gs, names).value;
    assert j.fields[0].1 == JArr(gs) && j.fields[1..] == [];
    assert Iterate(j.fields[0].1) == Ok(gs);
    assert [] + m == m;
    assert ItemsMatches(j.fields, names, []) == ItemsMatches(j.fields[1..], names, [] + m);
  }

  lemma {:induction false} ScanOk(cs: seq<Json>, names: seq<string>, acc: seq<Json>)
    requires forall k :: 0 <= k < |cs| ==> CombinationMatches(cs[k], names).Ok?
    ensures Scan(cs, names, acc).Ok?
    decreases |cs|
  {
    if cs != [] {
      assert forall k :: 0 <= k < |cs| - 1 ==> cs[1..][k] == cs[k + 1];
      ScanOk(cs[1..], names, acc + CombinationMatches(cs[0], names).value);
    }
  }

  /** The combinations to scan, with the one-combination shape taken as the
      single combination it is. */
  function SolutionCombinations(v: Json): Result<seq<Json>>
  {
    if v.JObj? && Lookup(v.fields, "combinations").None? then Ok([v])
    else match Subscript(v, "combinations")
      case Err(e) => Err(e)
      case Ok(list) => Iterate(list)
  }

  /** `FilterPCBs` reading a one-combination solution as that combination. */
  function FilterChecked(important: seq<int>, solutions: Option<Json>): Result<Answer>
  {
    var names := RequestedNames(important);
    if !Truthy(solutions) then Ok(Message(NoSolutionsMessage))
    else match SolutionCombinations(solutions.value)
      case Err(e) => Err(e)
      case Ok(cs) =>
        match Scan(cs, names, [])
        case Err(e) => Err(e)
        case Ok(r) => if r == [] then Ok(Message(NoGroupsMessage(names))) else Ok(Groups(r))
  }

  /** On a stored `Combinations.to_json()` with any number of combinations but
      one, `FilterPCBs` answers, and the checked filter answers the same. */
  lemma StoredListFilter(cs: Combinations, important: seq<int>)
    requires |cs.combinations| != 1
    ensures Filter(important, Some(CombinationsToJson(cs))).Ok?
    ensures FilterChecked(important, Some(CombinationsToJson(cs))) == Filter(important, Some(CombinationsToJson(cs)))
  {
    var names := RequestedNames(important);
    var items := NumberedCombinations(cs.combinations, 1);
    forall k | 0 <= k < |items| ensures CombinationMatches(items[k], names).Ok? {
      CombinationJsonMatches(cs.combinations[k], Some(1 + k), names);
    }
    ScanOk(items, names, []);
  }

  /** With exactly one combination, stored in the "groups" shape, `FilterPCBs`
      raises KeyError. */
  lemma StoredSingleRaises(cs: Combinations, important: seq<int>)
    requires |cs.combinations| == 1
    ensures Filter(important, Some(CombinationsToJson(cs))) == Err("KeyError: 'combinations'")
  {
    var j := CombinationsToJson(cs);
    assert j.fields[0].0 != "combinations";
    assert Lookup(j.fields, "combinations") == None;
  }

  /** With exactly one combination, the checked filter answers with that
      combination's matching groups. */
  lemma StoredSingleFilter(cs: Combinations, important: seq<int>)
    requires |cs.combinations| == 1
    ensures FilterChecked(important, Some(CombinationsToJson(cs))).Ok?
    ensures var r := FilterChecked(important, Some(CombinationsToJson(cs)));
      var m := CombinationMatches(CombinationsToJson(cs), RequestedNames(important));
      m.Ok? && r == (if m.value == [] then Ok(Message(NoGroupsMessage(RequestedNames(important)))) else Ok(Groups(m.value)))
  {
    var names := RequestedNames(important);
    var j := CombinationsToJson(cs);
    assert j == CombinationToJson(cs.combinations[0], None);
    assert j.fields[0].0 != "combinations";
    assert Lookup(j.fields, "combinations") == None;
    CombinationJsonMatches(cs.combinations[0], None, names);
    var m := CombinationMatches(j, names).value;
    assert SolutionCombinations(j) == Ok([j]);
    assert [] + m == m && [j][1..] == [];
    assert Scan([j], names, []) == Ok(m);
  }
}
