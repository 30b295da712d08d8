/** The CSV flatteners of utils/csv_utils.py, which utils/create_csv.py repeats
    line for line: `create_csv_from_input` turns the user's text into
    two-field rows, and `json_solution_to_tabular_csv` writes one row
    `[combination_id, group_id, pcb]` per PCB of a stored solution.

    The file and its name are left to the caller: the model returns the rows
    handed to the CSV writer. A row of the tabular file is the list of values
    passed to `writerow`, as JSON values. */
module Tabular {
  import opened Common
  import opened Objects

  // ---------------------------------------------------------------------------
  // `create_csv_from_input`.

  /** The characters `str.strip()` removes, as far as ASCII goes. */
  predicate IsSpace(c: char)
  {
    c == ' ' || 9 <= c as int <= 13 || 28 <= c as int <= 31
  }

  /** The index of the first character at or after `i` that is not a space. */
  function SpacesFrom(s: string, i: nat): (n: nat)
    requires i <= |s|
    ensures i <= n <= |s| && (n < |s| ==> !IsSpace(s[n]))
    ensures forall k :: i <= k < n ==> IsSpace(s[k])
    decreases |s| - i
  {
    if i < |s| && IsSpace(s[i]) then SpacesFrom(s, i + 1) else i
  }

  /** The index just past the last character before `j`, and not before `lo`,
      that is not a space. */
  function SpacesBefore(s: string, lo: nat, j: nat): (m: nat)
    requires lo <= j <= |s|
    ensures lo <= m <= j && (m > lo ==> !IsSpace(s[m - 1]))
    ensures forall k :: m <= k < j ==> IsSpace(s[k])
    decreases j
  {
    if j > lo && IsSpace(s[j - 1]) then SpacesBefore(s, lo, j - 1) else j
  }

  /** `str.strip()`: the part of `s` between the leading and the trailing spaces. */
  function Strip(s: string): string
  {
    var i := SpacesFrom(s, 0);
    s[i..SpacesBefore(s, i, |s|)]
  }

  /** `strip` removes spaces only, and only at the two ends: what it keeps is
      a slice of `s` that neither starts nor ends with a space, and all that is
      cut off on either side is space. */
  lemma StripFacts(s: string)
    ensures var r := Strip(s); var i := SpacesFrom(s, 0);
      && i + |r| <= |s| && r == s[i..i + |r|]
      && (forall k :: 0 <= k < i ==> IsSpace(s[k]))
      && (forall k :: i + |r| <= k < |s| ==> IsSpace(s[k]))
      && (r != [] ==> !IsSpace(r[0]) && !IsSpace(r[|r| - 1]))
  {
    var i := SpacesFrom(s, 0);
    var j := SpacesBefore(s, i, |s|);
    assert Strip(s) == s[i..j];
    if i < j {
      assert Strip(s)[0] == s[i];
      assert Strip(s)[j - i - 1] == s[j - 1];
    }
  }

  /** The index of the first `c` in `s`, or `|s|` when there is none. */
  function Find(s: string, c: char): (i: nat)
    ensures i <= |s| && (i < |s| ==> s[i] == c)
    ensures forall k :: 0 <= k < i ==> s[k] != c
  {
    if s == [] then 0 else if s[0] == c then 0 else 1 + Find(s[1..], c)
  }

  /** `s.split('\n')`: the pieces between the line breaks, at least one. */
  function SplitLines(s: string): (r: seq<string>)
    ensures r != []
    decreases |s|
  {
    var i := Find(s, '\n');
    if i == |s| then [s] else [s[..i]] + SplitLines(s[i + 1..])
  }

  /** `'\n'.join(lines)`. */
  function JoinLines(lines: seq<string>): string
    requires lines != []
  {
    if |lines| == 1 then lines[0] else lines[0] + "\n" + JoinLines(lines[1..])
  }

  /** Splitting at the line breaks loses nothing and leaves no line break in a piece. */
  lemma {:induction false} SplitLinesRoundTrip(s: string)
    ensures JoinLines(SplitLines(s)) == s
    ensures forall k :: 0 <= k < |SplitLines(s)| ==> '\n' !in SplitLines(s)[k]
    decreases |s|
  {
    var i := Find(s, '\n');
    if i < |s| {
      SplitLinesRoundTrip(s[i + 1..]);
      var r := SplitLines(s);
      assert r[1..] == SplitLines(s[i + 1..]);
      assert s == s[..i] + "\n" + s[i + 1..];
      forall k | 0 <= k < |r| ensures '\n' !in r[k] {
        if k > 0 {
          assert r[k] == r[1..][k - 1];
        }
      }
    }
  }

  /** `line.split(',', 1)` unpacked into two names: no comma is a ValueError. */
  function SplitFirstComma(line: string): Option<(string, string)>
  {
    var i := Find(line, ',');
    if i == |line| then None else Some((line[..i], line[i + 1..]))
  }

  /** The split is at the first comma: the first field has none, and the two
      fields joined by a comma give the line back. */
  lemma SplitFirstCommaFacts(line: string)
    ensures SplitFirstComma(line).None? <==> ',' !in line
    ensures SplitFirstComma(line).Some? ==>
      var (group, pcbs) := SplitFirstComma(line).value;
      ',' !in group && group + "," + pcbs == line
  {
    var i := Find(line, ',');
    if i < |line| {
      assert line == line[..i] + "," + line[i + 1..];
    }
  }

  const UnpackError: string := "ValueError: not enough values to unpack (expected 2, got 1)"

  /** The loop over the lines from the rows `data` already built. */
  function RowsFrom(lines: seq<string>, data: seq<seq<string>>): Result<seq<seq<string>>>
  {
    if lines == [] then Ok(data)
    else match SplitFirstComma(lines[0])
      case None => Err(UnpackError)
      case Some((group, pcbs)) => RowsFrom(lines[1..], data + [[group, pcbs]])
  }

  /** The rows `create_csv_from_input(input_data)` writes. */
  function InputRows(input: string): Result<seq<seq<string>>>
  {
    RowsFrom(SplitLines(Strip(input)), [])
  }

  /** `create_csv_from_input`, up to the file it writes. */
  method CreateCsvFromInput(input: string) returns (r: Result<seq<seq<string>>>)
    ensures r == InputRows(input)
  {
    var lines := SplitLines(Strip(input));
    var data: seq<seq<string>> := [];
    for k := 0 to |lines|
      invariant RowsFrom(lines[k..], data) == RowsFrom(lines, [])
    {
      assert lines[k..][1..] == lines[k + 1..];
      var split := SplitFirstComma(lines[k]);
      if split.None? {
        return Err(UnpackError);
      }
      var (group, pcbs) := split.value;
      data := data + [[group, pcbs]];
    }
    r := Ok(data);
  }

  /** A row written for `line`: the line split at its first comma. */
  predicate RowOf(row: seq<string>, line: string)
  {
    |row| == 2 && ',' !in row[0] && row[0] + "," + row[1] == line
  }

  lemma {:induction false} RowsFromFacts(lines: seq<string>, data: seq<seq<string>>)
    ensures RowsFrom(lines, data).Ok? <==> forall k :: 0 <= k < |lines| ==> ',' in lines[k]
    ensures RowsFrom(lines, data).Ok? ==>
      var rows := RowsFrom(lines, data).value;
      && |rows| == |data| + |lines| && rows[..|data|] == data
      && forall k :: 0 <= k < |lines| ==> RowOf(rows[|data| + k], lines[k])
    decreases |lines|
  {
    if lines != [] {
      SplitFirstCommaFacts(lines[0]);
      assert forall k :: 0 < k < |lines| ==> lines[k] == lines[1..][k - 1];
      if SplitFirstComma(lines[0]).Some? {
        var (group, pcbs) := SplitFirstComma(lines[0]).value;
        var next := data + [[group, pcbs]];
        RowsFromFacts(lines[1..], next);
        if RowsFrom(lines, data).Ok? {
          var rows := RowsFrom(lines, data).value;
          assert rows[..|next|] == next;
          assert rows[..|data|] == next[..|data|];
          assert rows[|data|] == next[|data|] == [group, pcbs];
          forall k | 0 < k < |lines| ensures RowOf(rows[|data| + k], lines[k]) {
            assert |data| + k == |next| + (k - 1);
          }
        }
      }
    }
  }

  /** `create_csv_from_input` fails exactly when a line of the stripped input has
      no comma; otherwise it writes one row per line, split at its first comma,
      and the lines joined back give the stripped input. */
  lemma InputRowsFacts(input: string)
    ensures var lines := SplitLines(Strip(input));
      InputRows(input).Ok? <==> forall k :: 0 <= k < |lines| ==> ',' in lines[k]
    ensures JoinLines(SplitLines(Strip(input))) == Strip(input)
    ensures InputRows(input).Ok? ==>
      var lines := SplitLines(Strip(input));
      var rows := InputRows(input).value;
      |rows| == |lines| && forall k :: 0 <= k < |rows| ==> RowOf(rows[k], lines[k])
  {
    var lines := SplitLines(Strip(input));
    RowsFromFacts(lines, []);
    SplitLinesRoundTrip(Strip(input));
  }

  // ---------------------------------------------------------------------------
  // `json_solution_to_tabular_csv`.

  /** The `csv.writer`: the rows handed to `writerow` so far. */
  class Writer {
    var rows: seq<seq<Json>>

    constructor ()
      ensures rows == []
    {
      rows := [];
    }

    method WriteRow(row: seq<Json>)
      modifies this
      ensures rows == old(rows) + [row]
    {
      rows := rows + [row];
    }
  }

  /** What the writer holds when the code returns or raises, with the exception raised. */
  datatype Written = Written(rows: seq<seq<Json>>, error: Option<string>)

  /** The rows of one group: one per entry of its "PCBs". */
  function PcbRows(combinationId: int, groupId: Json, pcbs: seq<Json>): (r: seq<seq<Json>>)
    ensures |r| == |pcbs| && forall k :: 0 <= k < |pcbs| ==> r[k] == [JInt(combinationId), groupId, pcbs[k]]
  {
    seq(|pcbs|, k requires 0 <= k < |pcbs| => [JInt(combinationId), groupId, pcbs[k]])
  }

  /** The `for group in ...` loop of `_combination_to_csv`, after the rows `acc`. */
  function GroupsFrom(groups: seq<Json>, combinationId: int, acc: seq<seq<Json>>): Written
  {
    if groups == [] then Written(acc, None)
    else match Subscript(groups[0], "group_id")
      case Err(e) => Written(acc, Some(e))
      case Ok(groupId) =>
        match Subscript(groups[0], "PCBs")
        case Err(e) => Written(acc, Some(e))
        case Ok(list) =>
          match Iterate(list)
          case Err(e) => Written(acc, Some(e))
          case Ok(pcbs) => GroupsFrom(groups[1..], combinationId, acc + PcbRows(combinationId, groupId, pcbs))
  }

  /** `_combination_to_csv({"groups": groups}, combination_id, writer)`. */
  function CombinationCsv(groups: Json, combinationId: int, acc: seq<seq<Json>>): Written
  {
    match Iterate(groups)
    case Err(e) => Written(acc, Some(e))
    case Ok(gs) => GroupsFrom(gs, combinationId, acc)
  }

  /** `re.match(r"combination(\d+)", name)` and `int(m.group(1))`: the digits
      right after the prefix, as many as there are. */
  function ParseId(name: string): Option<nat>
  {
    if |name| >= 11 && name[..11] == "combination" && LeadingDigits(name[11..]) != [] then
      Some(DigitsValue(LeadingDigits(name[11..])))
    else None
  }

  /** `next(iter(combination.items()))`. */
  function FirstItem(c: Json): Result<(string, Json)>
  {
    if !c.JObj? then Err("AttributeError: object has no attribute 'items'")
    else if c.fields == [] then Err("StopIteration")
    else Ok(c.fields[0])
  }

  /** The `for combination in json_data["combinations"]` loop after the rows `acc`. */
  function CombinationsFrom(cs: seq<Json>, acc: seq<seq<Json>>): Written
  {
    if cs == [] then Written(acc, None)
    else match FirstItem(cs[0])
      case Err(e) => Written(acc, Some(e))
      case Ok((name, groups)) =>
        match ParseId(name)
        case None => Written(acc, Some("AssertionError"))
        case Some(id) =>
          var w := CombinationCsv(groups, id, acc);
          if w.error.Some? then w else CombinationsFrom(cs[1..], w.rows)
  }

  /** What `json_solution_to_tabular_csv(file_id, json_data)` writes and raises. */
  function Tabular(j: Json): Written
    requires j.JObj?
  {
    if HasKey(j, "groups") then CombinationCsv(Lookup(j.fields, "groups").value, 1, [])
    else match Subscript(j, "combinations")
      case Err(e) => Written([], Some(e))
      case Ok(list) =>
        match Iterate(list)
        case Err(e) => Written([], Some(e))
        case Ok(cs) => CombinationsFrom(cs, [])
  }

  /** The inner `for pcb in group["PCBs"]` loop. */
  method WriteGroup(combinationId: int, groupId: Json, pcbs: seq<Json>, writer: Writer)
    modifies writer
    ensures writer.rows == old(writer.rows) + PcbRows(combinationId, groupId, pcbs)
  {
    for k := 0 to |pcbs|
      invariant writer.rows == old(writer.rows) + PcbRows(combinationId, groupId, pcbs[..k])
    {
      writer.WriteRow([JInt(combinationId), groupId, pcbs[k]]);
      assert PcbRows(combinationId, groupId, pcbs[..k + 1]) == PcbRows(combinationId, groupId, pcbs[..k]) + [[JInt(combinationId), groupId, pcbs[k]]];
    }
    assert pcbs[..|pcbs|] == pcbs;
  }

  /** `_combination_to_csv`, on the value stored under "groups". */
  method CombinationToCsv(groups: Json, combinationId: int, writer: Writer) returns (error: Option<string>)
    modifies writer
    ensures Written(writer.rows, error) == CombinationCsv(groups, combinationId, old(writer.rows))
  {
    var gs := Iterate(groups);
    if gs.Err? {
      return Some(gs.error);
    }
    for k := 0 to |gs.value|
      invariant GroupsFrom(gs.value[k..], combinationId, writer.rows) == GroupsFrom(gs.value, combinationId, old(writer.rows))
    {
      assert gs.value[k..][1..] == gs.value[k + 1..];
      var group := gs.value[k];
      var groupId := Subscript(group, "group_id");
      if groupId.Err? {
        return Some(groupId.error);
      }
      var list := Subscript(group, "PCBs");
      if list.Err? {
        return Some(list.error);
      }
      var pcbs := Iterate(list.value);
      if pcbs.Err? {
        return Some(pcbs.error);
      }
      WriteGroup(combinationId, groupId.value, pcbs.value, writer);
    }
    return None;
  }

  /** `json_solution_to_tabular_csv`, up to the file: the rows written and the
      exception raised, if any. */
  method JsonSolutionToTabularCsv(j: Json) returns (rows: seq<seq<Json>>, error: Option<string>)
    requires j.JObj?
    ensures Written(rows, error) == Tabular(j)
  {
    var writer := new Writer();
    if HasKey(j, "groups") {
      error := CombinationToCsv(Lookup(j.fields, "groups").value, 1, writer);
      return writer.rows, error;
    }
    var list := Subscript(j, "combinations");
    if list.Err? {
      return [], Some(list.error);
    }
    var cs := Iterate(list.value);
    if cs.Err? {
      return [], Some(cs.error);
    }
    for k := 0 to |cs.value|
      invariant CombinationsFrom(cs.value[k..], writer.rows) == Tabular(j)
    {
      assert cs.value[k..][1..] == cs.value[k + 1..];
      var item := FirstItem(cs.value[k]);
      if item.Err? {
        return writer.rows, Some(item.error);
      }
      var (name, groups) := item.value;
      var id := ParseId(name);
      if id.None? {
        return writer.rows, Some("AssertionError");
      }
      error := CombinationToCsv(groups, id.value, writer);
      if error.Some? {
        return writer.rows, error;
      }
    }
    return writer.rows, None;
  }

  // ---------------------------------------------------------------------------
  // The table of a stored solution.

  /** The rows of a group numbered `groupId`: one per PCB name, in order. */
  function NameRows(combinationId: int, groupId: int, names: seq<string>): seq<seq<Json>>
  {
    PcbRows(combinationId, JInt(groupId), StringsToJson(names))
  }

  /** The rows of the groups of one combination, numbered from `groupId` on. */
  function GroupTable(groups: seq<Group>, combinationId: int, groupId: int): seq<seq<Json>>
  {
    if groups == [] then []
    else NameRows(combinationId, groupId, Names(groups[0].pcbs)) + GroupTable(groups[1..], combinationId, groupId + 1)
  }

  /** The rows of the combinations, numbered from `first` on. */
  function CombinationTable(all: seq<Combination>, first: int): seq<seq<Json>>
  {
    if all == [] then [] else GroupTable(all[0].groups, first, 1) + CombinationTable(all[1..], first + 1)
  }

  function GroupPcbCount(groups: seq<Group>): nat
  {
    if groups == [] then 0 else |groups[0].pcbs| + GroupPcbCount(groups[1..])
  }

  function PcbCount(all: seq<Combination>): nat
  {
    if all == [] then 0 else GroupPcbCount(all[0].groups) + PcbCount(all[1..])
  }

  /** One row per PCB of every group of every combination. */
  lemma {:induction false} CombinationTableSize(all: seq<Combination>, first: int)
    ensures |CombinationTable(all, first)| == PcbCount(all)
  {
    if all != [] {
      GroupTableSize(all[0].groups, first, 1);
      CombinationTableSize(all[1..], first + 1);
    }
  }

  lemma {:induction false} GroupTableSize(groups: seq<Group>, combinationId: int, groupId: int)
    ensures |GroupTable(groups, combinationId, groupId)| == GroupPcbCount(groups)
  {
    if groups != [] {
      GroupTableSize(groups[1..], combinationId, groupId + 1);
    }
  }

  lemma NumberedFromSplit(groups: seq<Group>, first: int)
    requires groups != []
    ensures NumberedFrom(groups, first) == [GroupToJson(groups[0], Some(first))] + NumberedFrom(groups[1..], first + 1)
  {
    var l := NumberedFrom(groups, first);
    var tail := NumberedFrom(groups[1..], first + 1);
    forall k | 1 <= k < |l| ensures l[k] == tail[k - 1] {
      assert groups[1..][k - 1] == groups[k];
    }
    ConsOfPointwise(l, GroupToJson(groups[0], Some(first)), tail);
  }

  /** A list whose head is `h` and whose other items are those of `tail`. */
  lemma ConsOfPointwise(l: seq<Json>, h: Json, tail: seq<Json>)
    requires |l| == |tail| + 1 && l[0] == h
    requires forall k :: 1 <= k < |l| ==> l[k] == tail[k - 1]
    ensures l == [h] + tail
  {
  }

  /** Appending rows in two steps or in one gives the same table. */
  lemma RowsAssoc(a: seq<seq<Json>>, b: seq<seq<Json>>, c: seq<seq<Json>>)
    ensures (a + b) + c == a + (b + c)
  {
  }

  /** A group the system wrote, numbered `groupId`, comes out as its rows. */
  lemma GroupRows(g: Group, groupId: int, combinationId: int, rest: seq<Json>, acc: seq<seq<Json>>)
    ensures GroupsFrom([GroupToJson(g, Some(groupId))] + rest, combinationId, acc) ==
      GroupsFrom(rest, combinationId, acc + NameRows(combinationId, groupId, Names(g.pcbs)))
  {
    var gs := [GroupToJson(g, Some(groupId))] + rest;
    var j := gs[0];
    var list := JArr(StringsToJson(Names(g.pcbs)));
    assert j == JObj([("group_id", JInt(groupId)), ("PCBs", list)]);
    assert gs[1..] == rest;
    assert j.fields[1..][0] == ("PCBs", list);
    assert Lookup(j.fields[1..], "PCBs") == Some(list);
    assert |j.fields[0].0| == 8;
    assert Lookup(j.fields, "PCBs") == Some(list);
  }

  /** The groups the system writes come out as their table rows. */
  lemma {:induction false} GroupsFromNumbered(groups: seq<Group>, combinationId: int, groupId: int, acc: seq<seq<Json>>)
    ensures GroupsFrom(NumberedFrom(groups, groupId), combinationId, acc) ==
      Written(acc + GroupTable(groups, combinationId, groupId), None)
    decreases |groups|
  {
    if groups != [] {
      NumberedFromSplit(groups, groupId);
      GroupRows(groups[0], groupId, combinationId, NumberedFrom(groups[1..], groupId + 1), acc);
      var head := NameRows(combinationId, groupId, Names(groups[0].pcbs));
      GroupsFromNumbered(groups[1..], combinationId, groupId + 1, acc + head);
      RowsAssoc(acc, head, GroupTable(groups[1..], combinationId, groupId + 1));
    } else {
      assert acc + [] == acc;
    }
  }

  /** The key `combination<id>` gives back its id. */
  lemma ParseCombinationKey(id: nat)
    ensures ParseId(CombinationKey(id)) == Some(id)
  {
    var key := CombinationKey(id);
    var digits := NatToString(id);
    assert key[..11] == "combination" && key[11..] == digits;
    assert LeadingDigits(digits) == digits;
    NatToStringRoundTrip(id);
  }

  lemma NumberedCombinationsSplit(all: seq<Combination>, first: int)
    requires all != []
    ensures NumberedCombinations(all, first) ==
      [CombinationToJson(all[0], Some(first))] + NumberedCombinations(all[1..], first + 1)
  {
    var l := NumberedCombinations(all, first);
    var tail := NumberedCombinations(all[1..], first + 1);
    forall k | 1 <= k < |l| ensures l[k] == tail[k - 1] {
      assert all[1..][k - 1] == all[k];
    }
    ConsOfPointwise(l, CombinationToJson(all[0], Some(first)), tail);
  }

  /** A combination the system wrote, numbered `id`, comes out as its table rows. */
  lemma CombinationRows(c: Combination, id: nat, rest: seq<Json>, acc: seq<seq<Json>>)
    ensures CombinationsFrom([CombinationToJson(c, Some(id))] + rest, acc) ==
      CombinationsFrom(rest, acc + GroupTable(c.groups, id, 1))
  {
    var cs := [CombinationToJson(c, Some(id))] + rest;
    var groups := JArr(NumberedGroups(c.groups));
    assert cs[0] == CombinationToJson(c, Some(id)) && cs[1..] == rest;
    assert FirstItem(cs[0]) == Ok((CombinationKey(id), groups));
    ParseCombinationKey(id);
    GroupsFromNumbered(c.groups, id, 1, acc);
  }

  lemma {:induction false} CombinationsFromNumbered(all: seq<Combination>, first: nat, acc: seq<seq<Json>>)
    ensures CombinationsFrom(NumberedCombinations(all, first), acc) == Written(acc + CombinationTable(all, first), None)
    decreases |all|
  {
    if all != [] {
      NumberedCombinationsSplit(all, first);
      CombinationRows(all[0], first, NumberedCombinations(all[1..], first + 1), acc);
      var head := GroupTable(all[0].groups, first, 1);
      CombinationsFromNumbered(all[1..], first + 1, acc + head);
      RowsAssoc(acc, head, CombinationTable(all[1..], first + 1));
    } else {
      assert acc + [] == acc;
    }
  }

  /** For a stored `Combinations.to_json()`, in either shape, the table lists
      `[combination number, group number, PCB name]` for every PCB of every
      group of every combination, in order, both numbered from 1 (the
      one-combination shape gets combination number 1), one row per PCB, and
      nothing is raised. */
  lemma StoredTable(cs: Combinations)
    ensures Tabular(CombinationsToJson(cs)) == Written(CombinationTable(cs.combinations, 1), None)
    ensures |CombinationTable(cs.combinations, 1)| == PcbCount(cs.combinations)
  {
    var all := cs.combinations;
    var j := CombinationsToJson(cs);
    CombinationTableSize(all, 1);
    if |all| == 1 {
      assert Lookup(j.fields, "groups").Some?;
      GroupsFromNumbered(all[0].groups, 1, 1, []);
      assert CombinationTable(all, 1) == GroupTable(all[0].groups, 1, 1) + CombinationTable([], 2);
    } else {
      assert j.fields[0].0 != "groups";
      assert Lookup(j.fields, "groups") == None;
      CombinationsFromNumbered(all, 1, []);
    }
  }

  /** A key not of the form `combination<digits>` fails the assertion before
      anything of that combination is written. */
  lemma UnnamedCombinationFails(rows: seq<seq<Json>>, name: string, groups: Json, rest: seq<Json>)
    requires ParseId(name) == None
    ensures CombinationsFrom([JObj([(name, groups)])] + rest, rows) == Written(rows, Some("AssertionError"))
  {
    assert ([JObj([(name, groups)])] + rest)[0] == JObj([(name, groups)]);
  }
}
