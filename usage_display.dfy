// The usage report's ordering and table (openai-usage/src/api_usage.py,
// get_sort_key_tuple and display_results).
//
// Rows are sorted by a tuple key: the values of the user's criteria in their
// order, then the values of the remaining ones of project, day, key and model.
// The sorted rows are walked once; a subtotal row closes every maximal run of
// rows with the same value of the first criterion, and a grand total ends the
// table. Colours, column alignment and the `.4f` formatting are not modelled:
// a row is the record of the values it shows.

module UsageDisplay {
  import opened Wrappers
  import opened Text
  import opened UsageCosts
  import opened Sorting

  /** `d.get(k, default)` on a field that may be missing. */
  function GetOr(o: Option<string>, default: string): string
  {
    if o.Some? then o.value else default
  }

  /** `project_names.get(pid, pid)`: the mapped name, or the id itself. */
  function ProjectName(names: map<string, string>, pid: string): (r: string)
    ensures pid in names ==> r == names[pid]
    ensures pid !in names ==> r == pid
  {
    if pid in names then names[pid] else pid
  }

  /* ---------------- the sort key ---------------- */

  /** The criteria added after the user's, in this order. */
  const StableOrder: seq<string> := ["project", "day", "key", "model"]

  /** `criteria_to_value_map.get(c, '')`: the value one criterion sorts by. */
  function CriterionValue(u: Usage, c: string, names: map<string, string>): string
  {
    if c == "project" then ProjectName(names, GetOr(u.projectId, ""))
    else if c == "day" then GetOr(u.date, "")
    else if c == "key" then GetOr(u.apiKeyName, "")
    else if c == "model" then GetOr(u.model, "")
    else ""
  }

  /** The user's criteria, each looked up after lower-casing. */
  function UserParts(u: Usage, criteria: seq<string>, names: map<string, string>): seq<string>
    decreases |criteria|
  {
    if criteria == [] then []
    else
      var n := |criteria|;
      UserParts(u, criteria[..n - 1], names) + [CriterionValue(u, LowerStr(criteria[n - 1]), names)]
  }

  /** The criteria of `order` the user did not name (compared as written), in `order`'s order. */
  function Remaining(order: seq<string>, criteria: seq<string>): seq<string>
    decreases |order|
  {
    if order == [] then []
    else
      var n := |order|;
      Remaining(order[..n - 1], criteria) + (if order[n - 1] in criteria then [] else [order[n - 1]])
  }

  function Values(u: Usage, cs: seq<string>, names: map<string, string>): seq<string>
    decreases |cs|
  {
    if cs == [] then []
    else
      var n := |cs|;
      Values(u, cs[..n - 1], names) + [CriterionValue(u, cs[n - 1], names)]
  }

  /** `get_sort_key_tuple` */
  function SortKey(u: Usage, criteria: seq<string>, names: map<string, string>): seq<string>
  {
    UserParts(u, criteria, names) + Values(u, Remaining(StableOrder, criteria), names)
  }

  lemma {:induction false} UserPartsAt(u: Usage, criteria: seq<string>, names: map<string, string>)
    ensures |UserParts(u, criteria, names)| == |criteria|
    ensures forall i :: 0 <= i < |criteria| ==>
      UserParts(u, criteria, names)[i] == CriterionValue(u, LowerStr(criteria[i]), names)
    decreases |criteria|
  {
    if criteria != [] {
      var n := |criteria|;
      UserPartsAt(u, criteria[..n - 1], names);
    }
  }

  lemma {:induction false} ValuesAt(u: Usage, cs: seq<string>, names: map<string, string>)
    ensures |Values(u, cs, names)| == |cs|
    ensures forall i :: 0 <= i < |cs| ==> Values(u, cs, names)[i] == CriterionValue(u, cs[i], names)
    decreases |cs|
  {
    if cs != [] {
      var n := |cs|;
      ValuesAt(u, cs[..n - 1], names);
    }
  }

  /**
   * The key starts with one value per user criterion, in the user's order
   * (an unknown criterion sorts as ''), and goes on with the values of the
   * fixed criteria the user did not name.
   */
  lemma SortKeyParts(u: Usage, criteria: seq<string>, names: map<string, string>)
    ensures var k := SortKey(u, criteria, names);
      var rest := Remaining(StableOrder, criteria);
      |k| == |criteria| + |rest|
      && (forall i :: 0 <= i < |criteria| ==> k[i] == CriterionValue(u, LowerStr(criteria[i]), names))
      && (forall i :: 0 <= i < |rest| ==> k[|criteria| + i] == CriterionValue(u, rest[i], names))
  {
    UserPartsAt(u, criteria, names);
    ValuesAt(u, Remaining(StableOrder, criteria), names);
  }

  /** Exactly the fixed criteria absent from the user's list remain, in the fixed order. */
  lemma {:induction false} RemainingSpec(order: seq<string>, criteria: seq<string>)
    ensures forall c :: c in Remaining(order, criteria) <==> c in order && c !in criteria
    ensures |Remaining(order, criteria)| <= |order|
    decreases |order|
  {
    if order != [] {
      var n := |order|;
      RemainingSpec(order[..n - 1], criteria);
      assert order == order[..n - 1] + [order[n - 1]];
    }
  }

  lemma {:induction false} NothingNamed(order: seq<string>)
    ensures Remaining(order, []) == order
    decreases |order|
  {
    if order != [] {
      NothingNamed(order[..|order| - 1]);
    }
  }

  /** Without criteria the key is (project name, day, key name, model). */
  lemma DefaultKey(u: Usage, names: map<string, string>)
    ensures SortKey(u, [], names) == [ProjectName(names, GetOr(u.projectId, "")), GetOr(u.date, ""),
                                      GetOr(u.apiKeyName, ""), GetOr(u.model, "")]
  {
    NothingNamed(StableOrder);
    ValuesAt(u, StableOrder, names);
  }

  /** A permutation of some of the fixed criteria, each at most once, all in lower case. */
  predicate ValidCriteria(criteria: seq<string>)
  {
    (forall i :: 0 <= i < |criteria| ==> criteria[i] in StableOrder && LowerStr(criteria[i]) == criteria[i])
    && (forall i, j :: 0 <= i < j < |criteria| ==> criteria[i] != criteria[j])
  }

  lemma KeyLength(u: Usage, criteria: seq<string>, names: map<string, string>)
    ensures |SortKey(u, criteria, names)| == |criteria| + |Remaining(StableOrder, criteria)|
  {
    UserPartsAt(u, criteria, names);
    ValuesAt(u, Remaining(StableOrder, criteria), names);
  }

  /** Distinct criteria taken from `order` and the ones of `order` they leave out add up to `order`. */
  lemma CriteriaSplit(order: seq<string>, criteria: seq<string>)
    requires forall i, j :: 0 <= i < j < |order| ==> order[i] != order[j]
    requires forall i :: 0 <= i < |criteria| ==> criteria[i] in order
    requires forall i, j :: 0 <= i < j < |criteria| ==> criteria[i] != criteria[j]
    ensures |criteria| + |Remaining(order, criteria)| == |order|
  {
    var rest := Remaining(order, criteria);
    RemainingSpec(order, criteria);
    RemainingDistinct(order, criteria);
    var given := set c | c in criteria;
    var left := set c | c in rest;
    var all := set c | c in order;
    assert given + left == all;
    assert given * left == {};
    DistinctCard(criteria);
    DistinctCard(rest);
    DistinctCard(order);
  }

  lemma StableOrderDistinct()
    ensures forall i, j :: 0 <= i < j < |StableOrder| ==> StableOrder[i] != StableOrder[j]
  {
    assert StableOrder[1][0] != StableOrder[2][0];
  }

  /** Distinct valid criteria always give a four-part key. */
  lemma FourPartKey(u: Usage, criteria: seq<string>, names: map<string, string>)
    requires ValidCriteria(criteria)
    ensures |SortKey(u, criteria, names)| == 4
  {
    KeyLength(u, criteria, names);
    StableOrderDistinct();
    CriteriaSplit(StableOrder, criteria);
  }

  lemma {:induction false} RemainingDistinct(order: seq<string>, criteria: seq<string>)
    requires forall i, j :: 0 <= i < j < |order| ==> order[i] != order[j]
    ensures var r := Remaining(order, criteria); forall i, j :: 0 <= i < j < |r| ==> r[i] != r[j]
    decreases |order|
  {
    if order != [] {
      var n := |order|;
      RemainingDistinct(order[..n - 1], criteria);
      RemainingSpec(order[..n - 1], criteria);
    }
  }

  /** A sequence without repetitions has as many elements as its set of elements. */
  lemma {:induction false} DistinctCard(s: seq<string>)
    requires forall i, j :: 0 <= i < j < |s| ==> s[i] != s[j]
    ensures |set c | c in s| == |s|
    decreases |s|
  {
    if s != [] {
      var n := |s|;
      var front := s[..n - 1];
      DistinctCard(front);
      assert s == front + [s[n - 1]];
      assert (set c | c in s) == (set c | c in front) + {s[n - 1]};
    }
  }

  lemma RemainingStep(order: seq<string>, j: nat, criteria: seq<string>)
    requires j < |order|
    ensures Remaining(order[..j + 1], criteria)
      == Remaining(order[..j], criteria) + (if order[j] in criteria then [] else [order[j]])
  {
    assert order[..j + 1][..j] == order[..j];
  }

  lemma ValuesSnoc(u: Usage, cs: seq<string>, c: string, names: map<string, string>)
    ensures Values(u, cs + [c], names) == Values(u, cs, names) + [CriterionValue(u, c, names)]
  {
    assert (cs + [c])[..|cs|] == cs;
  }

  /** `get_sort_key_tuple`, with its two loops. */
  method SortKeyTuple(u: Usage, criteria: seq<string>, names: map<string, string>) returns (key: seq<string>)
    ensures key == SortKey(u, criteria, names)
  {
    var user := UserKeyParts(u, criteria, names);
    var rest := RemainingKeyParts(u, criteria, names);
    key := user + rest;
  }

  /** The first loop: the values of the user's criteria. */
  method UserKeyParts(u: Usage, criteria: seq<string>, names: map<string, string>) returns (parts: seq<string>)
    ensures parts == UserParts(u, criteria, names)
  {
    parts := [];
    var i := 0;
    while i < |criteria|
      invariant 0 <= i <= |criteria|
      invariant parts == UserParts(u, criteria[..i], names)
    {
      assert criteria[..i + 1][..i] == criteria[..i];
      parts := parts + [CriterionValue(u, LowerStr(criteria[i]), names)];
      i := i + 1;
    }
    assert criteria[..i] == criteria;
  }

  /** The second loop: the values of the fixed criteria the user did not name. */
  method RemainingKeyParts(u: Usage, criteria: seq<string>, names: map<string, string>) returns (parts: seq<string>)
    ensures parts == Values(u, Remaining(StableOrder, criteria), names)
  {
    parts := [];
    var j := 0;
    while j < |StableOrder|
      invariant 0 <= j <= |StableOrder|
      invariant parts == Values(u, Remaining(StableOrder[..j], criteria), names)
    {
      var crit := StableOrder[j];
      RemainingStep(StableOrder, j, criteria);
      if crit !in criteria {
        ValuesSnoc(u, Remaining(StableOrder[..j], criteria), crit, names);
        parts := parts + [CriterionValue(u, crit, names)];
      } else {
        assert Remaining(StableOrder[..j + 1], criteria) == Remaining(StableOrder[..j], criteria);
      }
      j := j + 1;
    }
    assert StableOrder[..j] == StableOrder;
  }

  /* ---------------- display_results ---------------- */

  /** The items paired with their keys, as `sorted(key=...)` computes them. */
  function Decorate(items: seq<Usage>, criteria: seq<string>, names: map<string, string>): seq<Keyed<Usage>>
    decreases |items|
  {
    if items == [] then []
    else
      var n := |items|;
      Decorate(items[..n - 1], criteria, names) + [Keyed(SortKey(items[n - 1], criteria, names), items[n - 1])]
  }

  /** `sorted(all_usage_details, key=lambda x: get_sort_key_tuple(x, group_by_criteria, project_names))` */
  function SortedUsage(items: seq<Usage>, criteria: seq<string>, names: map<string, string>): seq<Usage>
  {
    Items(SortKeyed(Decorate(items, criteria, names)))
  }

  /** One table row, without its colours and number formatting. */
  datatype Row =
    | DataRow(date: string, project: string, model: string, apiKey: string,
              input: real, output: real, cached: real, total: real)
    | SubtotalRow(caption: string, amount: real)
    | Divider
    | GrandRow(amount: real)

  /** What `display_results` prints: a message, or the table. */
  datatype Report = Message(text: string) | Table(rows: seq<Row>)

  const NoUsageText := "No usage data to display."

  /** The criterion subtotals are taken for: the first one, or "day". */
  function Primary(criteria: seq<string>): string
  {
    if criteria == [] then "day" else criteria[0]
  }

  function LabelPrefix(primary: string): string
  {
    if primary == "project" then "Total for Project"
    else if primary == "day" then "Total for day"
    else if primary == "key" then "Total for API Key"
    else if primary == "model" then "Total for Model"
    else "Total for " + primary
  }

  /** The value rows are grouped by; any criterion other than project, key and model groups by day. */
  function GroupId(u: Usage, primary: string): string
  {
    if primary == "project" then GetOr(u.projectId, "unknown_project")
    else if primary == "key" then GetOr(u.apiKeyName, "Unknown")
    else if primary == "model" then GetOr(u.model, "Unknown Model")
    else GetOr(u.date, "unknown_date")
  }

  /** The name a group's subtotal shows: the project's name for projects, the id otherwise. */
  function GroupName(u: Usage, primary: string, names: map<string, string>): string
  {
    var id := GroupId(u, primary);
    if primary == "project" then ProjectName(names, id) else id
  }

  /** `costs.get(field, 0.0)`, with a missing cost map read as `{}`. */
  function Cost(u: Usage, field: string): real
  {
    if u.costs.Some? && field in u.costs.value then u.costs.value[field] else 0.0
  }

  /** `current_row_total` */
  function RowTotal(u: Usage): real
  {
    Cost(u, "input_cost") + Cost(u, "output_cost") + Cost(u, "cached_input_cost") + Cost(u, "minute_cost")
  }

  function RowOf(u: Usage, names: map<string, string>): Row
  {
    DataRow(GetOr(u.date, "unknown_date"), ProjectName(names, GetOr(u.projectId, "unknown_project")),
            GetOr(u.model, "unknown_model"), GetOr(u.apiKeyName, "Unknown Key"),
            Cost(u, "input_cost"), Cost(u, "output_cost"), Cost(u, "cached_input_cost"), RowTotal(u))
  }

  /** The loop's variables: the current group, its running total, the grand total and the rows so far. */
  datatype Walk = Walk(groupId: Option<string>, groupName: string, groupTotal: real, grand: real, rows: seq<Row>)

  const Unwalked := Walk(None, "", 0.0, 0.0, [])

  /** The subtotal row of the current group. */
  function Subtotal(w: Walk, primary: string): Row
  {
    SubtotalRow(LabelPrefix(primary) + " " + w.groupName, w.groupTotal)
  }

  /** One iteration: close the group when the id changes, then add the row and its total. */
  function WalkStep(w: Walk, u: Usage, primary: string, names: map<string, string>): Walk
  {
    var id := GroupId(u, primary);
    var name := GroupName(u, primary, names);
    var w1 := if w.groupId.None? then w.(groupId := Some(id), groupName := name) else w;
    var w2 := if w1.groupId != Some(id) then
                Walk(Some(id), name, 0.0, w1.grand, w1.rows + [Subtotal(w1, primary), Divider])
              else w1;
    var t := RowTotal(u);
    w2.(groupTotal := w2.groupTotal + t, grand := w2.grand + t, rows := w2.rows + [RowOf(u, names)])
  }

  /** The loop over the sorted items. */
  function WalkAll(items: seq<Usage>, primary: string, names: map<string, string>): Walk
    decreases |items|
  {
    if items == [] then Unwalked
    else
      var n := |items|;
      WalkStep(WalkAll(items[..n - 1], primary, names), items[n - 1], primary, names)
  }

  /** The rows after the loop: the last group's subtotal, a divider and the grand total. */
  function Finished(w: Walk, primary: string): seq<Row>
  {
    w.rows + [Subtotal(w, primary), Divider, GrandRow(w.grand)]
  }

  /** `display_results` */
  function ReportOf(items: seq<Usage>, names: map<string, string>, criteria: seq<string>): Report
  {
    if items == [] then Message(NoUsageText)
    else
      var primary := Primary(criteria);
      Table(Finished(WalkAll(SortedUsage(items, criteria, names), primary, names), primary))
  }

  /** `display_results`: sort, then walk the rows once, closing a group whenever its id changes. */
  method DisplayResults(items: seq<Usage>, names: map<string, string>, criteria: seq<string>) returns (report: Report)
    ensures report == ReportOf(items, names, criteria)
  {
    if items == [] {
      return Message(NoUsageText);
    }
    var sorted := SortedUsage(items, criteria, names);
    var primary := if criteria != [] then criteria[0] else "day";
    var currentId, currentName, groupTotal, grand, rows := WalkRows(sorted, primary, names);
    ghost var w := Walk(currentId, currentName, groupTotal, grand, rows);
    assert primary == Primary(criteria);
    var prefix := LabelPrefix(primary);
    var closing := [SubtotalRow(prefix + " " + currentName, groupTotal), Divider];
    assert closing + [GrandRow(grand)] == [Subtotal(w, primary), Divider, GrandRow(w.grand)];
    rows := rows + closing;
    rows := rows + [GrandRow(grand)];
    assert rows == w.rows + (closing + [GrandRow(grand)]);
    return Table(rows);
  }

  /** The loop over the sorted rows, with its variables. */
  method WalkRows(sorted: seq<Usage>, primary: string, names: map<string, string>)
    returns (currentId: Option<string>, currentName: string, groupTotal: real, grand: real, rows: seq<Row>)
    ensures Walk(currentId, currentName, groupTotal, grand, rows) == WalkAll(sorted, primary, names)
  {
    currentId, currentName, groupTotal, grand, rows := None, "", 0.0, 0.0, [];
    var i := 0;
    while i < |sorted|
      invariant 0 <= i <= |sorted|
      invariant Walk(currentId, currentName, groupTotal, grand, rows) == WalkAll(sorted[..i], primary, names)
    {
      WalkAllNext(sorted, i, primary, names);
      currentId, currentName, groupTotal, grand, rows :=
        VisitRow(currentId, currentName, groupTotal, grand, rows, sorted[i], primary, names);
      i := i + 1;
    }
    assert sorted[..i] == sorted;
  }

  lemma WalkAllNext(items: seq<Usage>, i: int, primary: string, names: map<string, string>)
    requires 0 <= i < |items|
    ensures WalkAll(items[..i + 1], primary, names) == WalkStep(WalkAll(items[..i], primary, names), items[i], primary, names)
  {
    assert items[..i + 1][..i] == items[..i];
  }

  /** The body of the loop over the sorted rows. */
  method VisitRow(currentId: Option<string>, currentName: string, groupTotal: real, grand: real, rows: seq<Row>,
                  usage: Usage, primary: string, names: map<string, string>)
    returns (currentId': Option<string>, currentName': string, groupTotal': real, grand': real, rows': seq<Row>)
    ensures Walk(currentId', currentName', groupTotal', grand', rows')
      == WalkStep(Walk(currentId, currentName, groupTotal, grand, rows), usage, primary, names)
  {
    currentId', currentName', groupTotal', grand', rows' := currentId, currentName, groupTotal, grand, rows;
    var itemId := GroupId(usage, primary);
    var itemName := GroupName(usage, primary, names);
    if currentId'.None? {
      currentId' := Some(itemId);
      currentName' := itemName;
    }
    if currentId' != Some(itemId) {
      rows' := rows' + [SubtotalRow(LabelPrefix(primary) + " " + currentName', groupTotal'), Divider];
      groupTotal' := 0.0;
      currentId' := Some(itemId);
      currentName' := itemName;
    }
    var costs := if usage.costs.Some? then usage.costs.value else map[];
    var input := if "input_cost" in costs then costs["input_cost"] else 0.0;
    var output := if "output_cost" in costs then costs["output_cost"] else 0.0;
    var cached := if "cached_input_cost" in costs then costs["cached_input_cost"] else 0.0;
    var minute := if "minute_cost" in costs then costs["minute_cost"] else 0.0;
    var rowTotal := input + output + cached + minute;
    groupTotal' := groupTotal' + rowTotal;
    grand' := grand' + rowTotal;
    rows' := rows' + [DataRow(GetOr(usage.date, "unknown_date"),
                              ProjectName(names, GetOr(usage.projectId, "unknown_project")),
                              GetOr(usage.model, "unknown_model"), GetOr(usage.apiKeyName, "Unknown Key"),
                              input, output, cached, rowTotal)];
  }

  /* ---------------- what the table adds up to ---------------- */

  /** The sum of the row totals. */
  function Total(items: seq<Usage>): real
    decreases |items|
  {
    if items == [] then 0.0 else var n := |items|; Total(items[..n - 1]) + RowTotal(items[n - 1])
  }

  /** The sum of the subtotal rows' amounts. */
  function SubtotalSum(rows: seq<Row>): real
    decreases |rows|
  {
    if rows == [] then 0.0
    else
      var n := |rows|;
      SubtotalSum(rows[..n - 1]) + (if rows[n - 1].SubtotalRow? then rows[n - 1].amount else 0.0)
  }

  function SubtotalCount(rows: seq<Row>): nat
    decreases |rows|
  {
    if rows == [] then 0 else var n := |rows|; SubtotalCount(rows[..n - 1]) + (if rows[n - 1].SubtotalRow? then 1 else 0)
  }

  /** The data rows, in order. */
  function DataRows(rows: seq<Row>): seq<Row>
    decreases |rows|
  {
    if rows == [] then [] else var n := |rows|; DataRows(rows[..n - 1]) + (if rows[n - 1].DataRow? then [rows[n - 1]] else [])
  }

  function RowsOf(items: seq<Usage>, names: map<string, string>): seq<Row>
    decreases |items|
  {
    if items == [] then [] else var n := |items|; RowsOf(items[..n - 1], names) + [RowOf(items[n - 1], names)]
  }

  /** The number of maximal runs of equal group ids. */
  function Runs(items: seq<Usage>, primary: string): nat
    decreases |items|
  {
    if items == [] then 0
    else if |items| == 1 then 1
    else
      var n := |items|;
      Runs(items[..n - 1], primary) + (if GroupId(items[n - 1], primary) != GroupId(items[n - 2], primary) then 1 else 0)
  }

  lemma {:induction false} RowsAppend(a: seq<Row>, b: seq<Row>)
    ensures SubtotalSum(a + b) == SubtotalSum(a) + SubtotalSum(b)
    ensures SubtotalCount(a + b) == SubtotalCount(a) + SubtotalCount(b)
    ensures DataRows(a + b) == DataRows(a) + DataRows(b)
    decreases |b|
  {
    if b == [] {
      assert a + b == a;
    } else {
      var init, last := b[..|b| - 1], b[|b| - 1];
      RowsAppend(a, init);
      assert a + b == (a + init) + [last];
      RowsSnoc(a + init, last);
      assert b == init + [last];
      RowsSnoc(init, last);
    }
  }

  lemma RowsSnoc(rows: seq<Row>, r: Row)
    ensures SubtotalSum(rows + [r]) == SubtotalSum(rows) + SubtotalSum([r])
    ensures SubtotalCount(rows + [r]) == SubtotalCount(rows) + SubtotalCount([r])
    ensures DataRows(rows + [r]) == DataRows(rows) + DataRows([r])
  {
    assert (rows + [r])[..|rows|] == rows;
    assert [r][..0] == [];
  }

  /** One iteration either opens a new group after a subtotal and a divider, or stays in the current one. */
  lemma StepShape(w: Walk, u: Usage, primary: string, names: map<string, string>)
    ensures var w' := WalkStep(w, u, primary, names);
      var t := RowTotal(u);
      w'.groupId == Some(GroupId(u, primary)) && w'.grand == w.grand + t
      && (if w.groupId.Some? && w.groupId != Some(GroupId(u, primary)) then
            w'.rows == w.rows + [Subtotal(w, primary), Divider, RowOf(u, names)] && w'.groupTotal == t
          else w'.rows == w.rows + [RowOf(u, names)] && w'.groupTotal == w.groupTotal + t)
  {
    var id := GroupId(u, primary);
    if w.groupId.Some? && w.groupId != Some(id) {
      assert w.rows + [Subtotal(w, primary), Divider] + [RowOf(u, names)]
        == w.rows + [Subtotal(w, primary), Divider, RowOf(u, names)];
    }
  }

  /** Along the loop, the grand total is the sum of the row totals, and the id is the last item's group. */
  lemma {:induction false} WalkGrand(items: seq<Usage>, primary: string, names: map<string, string>)
    ensures var w := WalkAll(items, primary, names);
      w.grand == Total(items)
      && (items == [] ==> w.groupId.None?)
      && (items != [] ==> w.groupId == Some(GroupId(items[|items| - 1], primary)))
    decreases |items|
  {
    if items != [] {
      var n := |items|;
      WalkGrand(items[..n - 1], primary, names);
      StepShape(WalkAll(items[..n - 1], primary, names), items[n - 1], primary, names);
    }
  }

  /** Along the loop, the subtotals written so far and the open group's total make up the grand total. */
  lemma {:induction false} WalkSubtotals(items: seq<Usage>, primary: string, names: map<string, string>)
    ensures var w := WalkAll(items, primary, names); SubtotalSum(w.rows) + w.groupTotal == w.grand
    decreases |items|
  {
    if items != [] {
      var n := |items|;
      WalkSubtotals(items[..n - 1], primary, names);
      SubtotalsStep(WalkAll(items[..n - 1], primary, names), items[n - 1], primary, names);
    }
  }

  lemma SubtotalsStep(w: Walk, u: Usage, primary: string, names: map<string, string>)
    requires SubtotalSum(w.rows) + w.groupTotal == w.grand
    ensures var w' := WalkStep(w, u, primary, names); SubtotalSum(w'.rows) + w'.groupTotal == w'.grand
  {
    StepShape(w, u, primary, names);
    if w.groupId.Some? && w.groupId != Some(GroupId(u, primary)) {
      RowsAppend(w.rows, [Subtotal(w, primary), Divider, RowOf(u, names)]);
      RowsTail([Subtotal(w, primary), Divider, RowOf(u, names)]);
    } else {
      RowsAppend(w.rows, [RowOf(u, names)]);
    }
  }

  /** Along the loop, the data rows are the items' rows in order. */
  lemma {:induction false} WalkData(items: seq<Usage>, primary: string, names: map<string, string>)
    ensures DataRows(WalkAll(items, primary, names).rows) == RowsOf(items, names)
    decreases |items|
  {
    if items != [] {
      var n := |items|;
      WalkData(items[..n - 1], primary, names);
      DataStep(WalkAll(items[..n - 1], primary, names), items[n - 1], primary, names);
    }
  }

  lemma DataStep(w: Walk, u: Usage, primary: string, names: map<string, string>)
    ensures DataRows(WalkStep(w, u, primary, names).rows) == DataRows(w.rows) + [RowOf(u, names)]
  {
    StepShape(w, u, primary, names);
    if w.groupId.Some? && w.groupId != Some(GroupId(u, primary)) {
      RowsAppend(w.rows, [Subtotal(w, primary), Divider, RowOf(u, names)]);
      RowsTail([Subtotal(w, primary), Divider, RowOf(u, names)]);
    } else {
      RowsAppend(w.rows, [RowOf(u, names)]);
    }
  }

  /** Along a non-empty loop, one subtotal has been written per group change. */
  lemma {:induction false} WalkRuns(items: seq<Usage>, primary: string, names: map<string, string>)
    requires items != []
    ensures SubtotalCount(WalkAll(items, primary, names).rows) + 1 == Runs(items, primary)
    decreases |items|
  {
    var n := |items|;
    var prefix := items[..n - 1];
    var u := items[n - 1];
    var w := WalkAll(prefix, primary, names);
    CountStep(w, u, primary, names);
    if n == 1 {
      assert prefix == [];
    } else {
      WalkRuns(prefix, primary, names);
      WalkGrand(prefix, primary, names);
      assert prefix[|prefix| - 1] == items[n - 2];
    }
  }

  /** One step writes a subtotal exactly when the group id changes. */
  lemma CountStep(w: Walk, u: Usage, primary: string, names: map<string, string>)
    ensures SubtotalCount(WalkStep(w, u, primary, names).rows)
      == SubtotalCount(w.rows) + (if w.groupId.Some? && w.groupId != Some(GroupId(u, primary)) then 1 else 0)
  {
    StepShape(w, u, primary, names);
    if w.groupId.Some? && w.groupId != Some(GroupId(u, primary)) {
      RowsAppend(w.rows, [Subtotal(w, primary), Divider, RowOf(u, names)]);
      RowsTail([Subtotal(w, primary), Divider, RowOf(u, names)]);
    } else {
      RowsAppend(w.rows, [RowOf(u, names)]);
    }
  }

  /** The tallies of a subtotal, a divider and a data row. */
  lemma RowsTail(rows: seq<Row>)
    requires |rows| == 3 && rows[0].SubtotalRow? && rows[1].Divider? && rows[2].DataRow?
    ensures SubtotalSum(rows) == rows[0].amount && SubtotalCount(rows) == 1 && DataRows(rows) == [rows[2]]
  {
    var two := rows[..2];
    var one := rows[..1];
    assert two[..1] == one && one[..0] == [];
    assert SubtotalSum(one) == rows[0].amount && SubtotalCount(one) == 1 && DataRows(one) == [];
    assert SubtotalSum(two) == rows[0].amount && SubtotalCount(two) == 1 && DataRows(two) == [];
  }

  /**
   * A non-empty report ends with the last group's subtotal, a divider and the
   * grand total; the grand total is the sum of all row totals (whatever the
   * order), the subtotals add up to it, there is one subtotal per maximal run
   * of equal group ids in the sorted order, and the data rows are the sorted
   * items' rows.
   */
  lemma TableTotals(items: seq<Usage>, names: map<string, string>, criteria: seq<string>)
    requires items != []
    ensures ReportOf(items, names, criteria).Table?
    ensures var rows := ReportOf(items, names, criteria).rows;
      var sorted := SortedUsage(items, criteria, names);
      var primary := Primary(criteria);
      |rows| >= 3 && rows[|rows| - 1] == GrandRow(Total(items)) && rows[|rows| - 2] == Divider
      && SubtotalSum(rows) == Total(items)
      && SubtotalCount(rows) == Runs(sorted, primary)
      && DataRows(rows) == RowsOf(sorted, names)
  {
    var sorted := SortedUsage(items, criteria, names);
    var primary := Primary(criteria);
    var w := WalkAll(sorted, primary, names);
    SortedTotal(items, criteria, names);
    SortedNonEmpty(items, criteria, names);
    WalkGrand(sorted, primary, names);
    WalkSubtotals(sorted, primary, names);
    WalkData(sorted, primary, names);
    WalkRuns(sorted, primary, names);
    FinishedTallies(w, primary);
  }

  /** The closing rows add the open group's subtotal and nothing else to the tallies. */
  lemma FinishedTallies(w: Walk, primary: string)
    ensures var rows := Finished(w, primary);
      |rows| >= 3 && rows[|rows| - 1] == GrandRow(w.grand) && rows[|rows| - 2] == Divider
      && SubtotalSum(rows) == SubtotalSum(w.rows) + w.groupTotal
      && SubtotalCount(rows) == SubtotalCount(w.rows) + 1
      && DataRows(rows) == DataRows(w.rows)
  {
    var tail := [Subtotal(w, primary), Divider, GrandRow(w.grand)];
    RowsAppend(w.rows, tail);
    var two := tail[..2];
    var one := tail[..1];
    assert two[..1] == one && one[..0] == [];
    assert SubtotalSum(one) == w.groupTotal && SubtotalCount(one) == 1 && DataRows(one) == [];
    assert SubtotalSum(two) == w.groupTotal && SubtotalCount(two) == 1 && DataRows(two) == [];
  }

  function TotalKeyed(s: seq<Keyed<Usage>>): real
    decreases |s|
  {
    if s == [] then 0.0 else var n := |s|; TotalKeyed(s[..n - 1]) + RowTotal(s[n - 1].item)
  }

  lemma {:induction false} InsertTotal(s: seq<Keyed<Usage>>, x: Keyed<Usage>)
    ensures TotalKeyed(Insert(s, x)) == TotalKeyed(s) + RowTotal(x.item)
    decreases |s|
  {
    if s != [] {
      var n := |s|;
      var init, last := s[..n - 1], s[n - 1];
      if KeyBelow(x.key, last.key) {
        InsertTotal(init, x);
        TotalSnoc(Insert(init, x), last);
      } else {
        TotalSnoc(s, x);
      }
    }
  }

  lemma TotalSnoc(a: seq<Keyed<Usage>>, y: Keyed<Usage>)
    ensures TotalKeyed(a + [y]) == TotalKeyed(a) + RowTotal(y.item)
  {
    assert (a + [y])[..|a|] == a;
  }

  lemma {:induction false} SortTotal(s: seq<Keyed<Usage>>)
    ensures TotalKeyed(SortKeyed(s)) == TotalKeyed(s)
    decreases |s|
  {
    if s != [] {
      var n := |s|;
      SortTotal(s[..n - 1]);
      InsertTotal(SortKeyed(s[..n - 1]), s[n - 1]);
    }
  }

  lemma {:induction false} ItemsTotal(s: seq<Keyed<Usage>>)
    ensures Total(Items(s)) == TotalKeyed(s) && |Items(s)| == |s|
    decreases |s|
  {
    if s != [] {
      var n := |s|;
      ItemsTotal(s[..n - 1]);
      assert Items(s) == Items(s[..n - 1]) + [s[n - 1].item];
      assert Items(s)[..n - 1] == Items(s[..n - 1]);
    }
  }

  lemma {:induction false} DecorateTotal(items: seq<Usage>, criteria: seq<string>, names: map<string, string>)
    ensures TotalKeyed(Decorate(items, criteria, names)) == Total(items)
    decreases |items|
  {
    if items != [] {
      var n := |items|;
      var d := Decorate(items[..n - 1], criteria, names);
      var e := Keyed(SortKey(items[n - 1], criteria, names), items[n - 1]);
      DecorateTotal(items[..n - 1], criteria, names);
      TotalSnoc(d, e);
    }
  }

  lemma {:induction false} DecorateLength(items: seq<Usage>, criteria: seq<string>, names: map<string, string>)
    ensures |Decorate(items, criteria, names)| == |items|
    decreases |items|
  {
    if items != [] {
      DecorateLength(items[..|items| - 1], criteria, names);
    }
  }

  /** Sorting does not change the sum of the row totals. */
  lemma SortedTotal(items: seq<Usage>, criteria: seq<string>, names: map<string, string>)
    ensures Total(SortedUsage(items, criteria, names)) == Total(items)
  {
    var d := Decorate(items, criteria, names);
    DecorateTotal(items, criteria, names);
    SortTotal(d);
    ItemsTotal(SortKeyed(d));
  }

  lemma SortedNonEmpty(items: seq<Usage>, criteria: seq<string>, names: map<string, string>)
    ensures |SortedUsage(items, criteria, names)| == |items|
  {
    var d := Decorate(items, criteria, names);
    DecorateLength(items, criteria, names);
    SortPermutes(d);
    assert |multiset(SortKeyed(d))| == |multiset(d)|;
    ItemsTotal(SortKeyed(d));
  }
}
