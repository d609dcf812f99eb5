/**
 The cloud-cost view: its table, its pages and its graph (pkg/cloudcost/repositoryquerier.go).
 Both are read from maps in no particular order; what the caller gets is shown not to depend on
 that order, up to the names of tied items of the graph.
 */
module QueryView {
  import opened Results
  import opened Sums
  import opened Sorting

  datatype CloudCost = CloudCost(labels: map<string, string>, kubernetesPercent: real, cost: real)

  datatype Row = Row(name: string, labels: map<string, string>, kubernetesPercent: real, cost: real)

  datatype SortField = ByName | ByCost | ByKubernetesPercent | Unsupported(field: string)

  datatype SortDirection = Ascending | Descending

  datatype Request = Request(column: SortField, direction: SortDirection, offset: nat, limit: int)

  function RowOf(name: string, cc: CloudCost): Row {
    Row(name, cc.labels, cc.kubernetesPercent, cc.cost)
  }

  /* ---------- the orders ---------- */

  /** The order of strings, character by character. */
  predicate StringLess(a: string, b: string) {
    b != [] && (a == [] || a[0] < b[0] || (a[0] == b[0] && StringLess(a[1..], b[1..])))
  }

  lemma {:induction false} StringLessAsymmetric(a: string, b: string)
    requires StringLess(a, b)
    ensures !StringLess(b, a)
  {
    if a != [] && a[0] == b[0] { StringLessAsymmetric(a[1..], b[1..]); }
  }

  lemma {:induction false} StringLessTotal(a: string, b: string)
    requires a != b
    ensures StringLess(a, b) || StringLess(b, a)
  {
    if a != [] && b != [] && a[0] == b[0] {
      assert a == [a[0]] + a[1..] && b == [b[0]] + b[1..];
      StringLessTotal(a[1..], b[1..]);
    }
  }

  lemma {:induction false} StringLessSplits(a: string, b: string, c: string)
    requires StringLess(a, c)
    ensures StringLess(a, b) || StringLess(b, c)
  {
    if a != [] && b != [] && a[0] == b[0] == c[0] { StringLessSplits(a[1..], b[1..], c[1..]); }
  }

  /** Of two strings that first differ at some place, the one with the smaller character there comes first; and a string
      comes before its continuations. */
  lemma {:induction false} StringLessIsLexicographic(prefix: string, c: char, d: char, a: string, b: string)
    ensures c < d ==> StringLess(prefix + [c] + a, prefix + [d] + b)
    ensures StringLess(prefix, prefix + [c] + a)
  {
    if prefix != [] {
      StringLessIsLexicographic(prefix[1..], c, d, a, b);
      assert (prefix + [c] + a)[1..] == prefix[1..] + [c] + a && (prefix + [d] + b)[1..] == prefix[1..] + [d] + b;
    }
  }

  predicate NameAscending(a: Row, b: Row) { StringLess(a.name, b.name) }
  predicate NameDescending(a: Row, b: Row) { StringLess(b.name, a.name) }
  predicate CostAscending(a: Row, b: Row) { a.cost < b.cost }
  predicate CostDescending(a: Row, b: Row) { a.cost > b.cost }
  predicate PercentAscending(a: Row, b: Row) { a.kubernetesPercent < b.kubernetesPercent }
  predicate PercentDescending(a: Row, b: Row) { a.kubernetesPercent > b.kubernetesPercent }

  /** The column the caller asked for. */
  function Column(column: SortField, direction: SortDirection): (Row, Row) -> bool {
    match column
    case ByName => if direction.Ascending? then NameAscending else NameDescending
    case ByCost => if direction.Ascending? then CostAscending else CostDescending
    case _ => if direction.Ascending? then PercentAscending else PercentDescending
  }

  /** The column, with ties in descending name order. */
  function TableOrder(column: SortField, direction: SortDirection): (Row, Row) -> bool {
    Lex(Column(column, direction), NameDescending)
  }

  lemma NamesAreStrictWeak()
    ensures StrictWeak(NameAscending) && StrictWeak(NameDescending)
  {
    hide StringLess;
    forall x: Row, y: Row | StringLess(x.name, y.name) ensures !StringLess(y.name, x.name) {
      StringLessAsymmetric(x.name, y.name);
    }
    forall x: Row, y: Row, z: Row | StringLess(x.name, z.name)
      ensures StringLess(x.name, y.name) || StringLess(y.name, z.name)
    {
      StringLessSplits(x.name, y.name, z.name);
    }
  }

  lemma ColumnIsStrictWeak(column: SortField, direction: SortDirection)
    ensures StrictWeak(Column(column, direction))
  {
    hide StringLess;
    NamesAreStrictWeak();
  }

  /* ---------- the table ---------- */

  /** `rows` lists the map's entries, once each. */
  ghost predicate ListsRows(rows: seq<Row>, costs: map<string, CloudCost>) {
    && Distinct(rows)
    && forall r :: r in rows <==> r.name in costs && r == RowOf(r.name, costs[r.name])
  }

  /** The full table: the map's entries, once each, in the requested order. */
  ghost predicate IsTable(t: seq<Row>, costs: map<string, CloudCost>, column: SortField, direction: SortDirection) {
    ListsRows(t, costs) && Sorted(t, TableOrder(column, direction))
  }

  /** Which way the rows run: the earlier row against a later one. */
  ghost predicate Runs(x: Row, y: Row, column: SortField, direction: SortDirection) {
    match (column, direction)
    case (ByName, Ascending) => StringLess(x.name, y.name)
    case (ByName, Descending) => StringLess(y.name, x.name)
    case (ByCost, Ascending) => x.cost < y.cost || (x.cost == y.cost && StringLess(y.name, x.name))
    case (ByCost, Descending) => x.cost > y.cost || (x.cost == y.cost && StringLess(y.name, x.name))
    case (ByKubernetesPercent, Ascending) =>
      x.kubernetesPercent < y.kubernetesPercent || (x.kubernetesPercent == y.kubernetesPercent && StringLess(y.name, x.name))
    case (ByKubernetesPercent, Descending) =>
      x.kubernetesPercent > y.kubernetesPercent || (x.kubernetesPercent == y.kubernetesPercent && StringLess(y.name, x.name))
    case _ => false
  }

  lemma OrderRuns(x: Row, y: Row, column: SortField, direction: SortDirection)
    requires x.name != y.name && !TableOrder(column, direction)(y, x) && !column.Unsupported?
    ensures Runs(x, y, column, direction)
  {
    hide StringLess;
    StringLessTotal(x.name, y.name);
    assert !Column(column, direction)(y, x);
    if column != ByName { assert Column(column, direction)(x, y) || !NameDescending(y, x); }
  }

  /** A table shows every entry's own figures, and runs the way that was asked for, ties by name descending. */
  lemma TableReads(t: seq<Row>, costs: map<string, CloudCost>, column: SortField, direction: SortDirection)
    requires IsTable(t, costs, column, direction) && !column.Unsupported?
    ensures forall r :: r in t ==> r.name in costs && r.cost == costs[r.name].cost && r.labels == costs[r.name].labels
    ensures forall r :: r in t ==> r.name in costs && r.kubernetesPercent == costs[r.name].kubernetesPercent
    ensures forall name :: name in costs ==> exists i :: 0 <= i < |t| && t[i].name == name
    ensures forall i, j :: 0 <= i < j < |t| ==> Runs(t[i], t[j], column, direction)
  {
    hide StringLess, Runs, TableOrder;
    forall name | name in costs ensures exists i :: 0 <= i < |t| && t[i].name == name {
      assert RowOf(name, costs[name]) in t;
    }
    forall i, j | 0 <= i < j < |t| ensures Runs(t[i], t[j], column, direction) {
      assert t[i] in t && t[j] in t && t[i] != t[j];
      assert t[i].name != t[j].name;
      OrderRuns(t[i], t[j], column, direction);
    }
  }

  /** There is only one such table. */
  lemma TableIsUnique(t: seq<Row>, u: seq<Row>, costs: map<string, CloudCost>, column: SortField,
                      direction: SortDirection)
    requires IsTable(t, costs, column, direction) && IsTable(u, costs, column, direction)
    ensures t == u
  {
    hide StringLess, StrictWeak, Column;
    var major := Column(column, direction);
    var less := TableOrder(column, direction);
    NamesAreStrictWeak();
    ColumnIsStrictWeak(column, direction);
    LexIsStrictWeak(Column(column, direction), NameDescending);
    DistinctMultisets(t, u);
    forall x, y | x in t && y in t && x != y ensures less(x, y) || less(y, x) {
      assert x.name != y.name;
      StringLessTotal(x.name, y.name);
      assert NameDescending(x, y) || NameDescending(y, x);
      LexDecides(x, y, major, NameDescending);
    }
    SortedUnique(t, u, less);
  }

  /** The rows after both sorts. */
  function SortRows(rows: seq<Row>, column: SortField, direction: SortDirection): seq<Row> {
    var named := StableSort(rows, NameDescending);
    if column.ByName? && direction.Descending? then named else StableSort(named, Column(column, direction))
  }

  lemma SortRowsPermutes(rows: seq<Row>, column: SortField, direction: SortDirection)
    ensures multiset(SortRows(rows, column, direction)) == multiset(rows)
  {
    hide StableSort, Column;
    StableSortPermutes(rows, NameDescending);
    StableSortPermutes(StableSort(rows, NameDescending), Column(column, direction));
  }

  lemma SortRowsSorts(rows: seq<Row>, column: SortField, direction: SortDirection)
    ensures Sorted(SortRows(rows, column, direction), TableOrder(column, direction))
  {
    hide StringLess, StrictWeak, StableSort;
    NamesAreStrictWeak();
    ColumnIsStrictWeak(column, direction);
    StableSortSorted(rows, NameDescending);
    var named := StableSort(rows, NameDescending);
    if column.ByName? && direction.Descending? {
      forall i, j | 0 <= i < j < |named| ensures !TableOrder(column, direction)(named[j], named[i]) {
        assert !NameDescending(named[j], named[i]);
      }
    } else {
      StableSortLex(named, Column(column, direction), NameDescending);
    }
  }

  /** Whatever order the rows came in, the two sorts make the table. */
  lemma SortRowsMakesTable(rows: seq<Row>, costs: map<string, CloudCost>, column: SortField, direction: SortDirection)
    requires ListsRows(rows, costs)
    ensures IsTable(SortRows(rows, column, direction), costs, column, direction)
  {
    hide SortRows, TableOrder;
    SortRowsSorts(rows, column, direction);
    SortRowsPermutes(rows, column, direction);
    var t := SortRows(rows, column, direction);
    DistinctPermutes(rows, t);
    SameElements(rows, t);
  }

  /** The rows a caller gets of a table. */
  function Page(t: seq<Row>, offset: nat, limit: int): seq<Row> {
    if offset > |t| then []
    else if limit > 0 && offset + limit <= |t| then t[offset..offset + limit]
    else t[offset..]
  }

  /** A page holds the rows from the offset on, as many as the limit allows if there is one. */
  lemma PageIsSlice(t: seq<Row>, offset: nat, limit: int)
    ensures var page := Page(t, offset, limit);
            && (forall i :: 0 <= i < |page| ==> offset + i < |t| && page[i] == t[offset + i])
            && |page| == (if offset >= |t| then 0 else if limit > 0 && offset + limit <= |t| then limit else |t| - offset)
  {
  }

  method CollectRows(costs: map<string, CloudCost>) returns (rows: seq<Row>)
    ensures ListsRows(rows, costs)
  {
    rows := [];
    var todo := costs.Keys;
    while todo != {}
      invariant todo <= costs.Keys
      invariant Distinct(rows)
      invariant forall r :: r in rows <==> r.name in costs && r.name !in todo && r == RowOf(r.name, costs[r.name])
      decreases todo
    {
      var name :| name in todo;
      var row := RowOf(name, costs[name]);
      assert row !in rows;
      forall r
        ensures r in rows + [row] <==> r.name in costs && r.name !in todo - {name} && r == RowOf(r.name, costs[r.name])
      {
        assert r in rows + [row] <==> r in rows || r == row;
      }
      rows := rows + [row];
      todo := todo - {name};
    }
  }

  /** QueryViewTable after the query: a page of the one table, or an error for an unknown column. */
  method QueryViewTable(costs: map<string, CloudCost>, request: Request) returns (r: Result<seq<Row>>)
    ensures r.Err? <==> request.column.Unsupported?
    ensures r.Ok? ==> exists t ::
        IsTable(t, costs, request.column, request.direction) && r.value == Page(t, request.offset, request.limit)
    ensures r.Ok? ==> forall i, j :: 0 <= i < j < |r.value| ==> Runs(r.value[i], r.value[j], request.column, request.direction)
  {
    hide ListsRows, StableSort, TableOrder, StringLess, Runs, Page;
    var collected := CollectRows(costs);
    var rows := new Row[|collected|](i requires 0 <= i < |collected| => collected[i]);
    assert rows[..] == collected;
    SliceStable(rows, NameDescending);
    match request.column {
    case ByName =>
      if request.direction == Ascending { SliceStable(rows, NameAscending); }
    case ByCost =>
      if request.direction == Ascending { SliceStable(rows, CostAscending); } else { SliceStable(rows, CostDescending); }
    case ByKubernetesPercent =>
      if request.direction == Ascending { SliceStable(rows, PercentAscending); } else { SliceStable(rows, PercentDescending); }
    case Unsupported(_) => return Err("invalid sort field");
    }
    ghost var t := rows[..];
    assert t == SortRows(collected, request.column, request.direction);
    SortRowsMakesTable(collected, costs, request.column, request.direction);
    PageReads(t, costs, request);
    var page := PageOf(rows, request.offset, request.limit);
    return Ok(page);
  }

  method PageOf(rows: array<Row>, offset: nat, limit: int) returns (page: seq<Row>)
    ensures page == Page(rows[..], offset, limit)
  {
    if offset > rows.Length {
      return [];
    }
    if limit > 0 {
      var end := offset + limit;
      if end > rows.Length {
        return rows[offset..];
      }
      return rows[offset..end];
    }
    if offset > 0 {
      return rows[offset..];
    }
    return rows[..];
  }

  lemma PageReads(t: seq<Row>, costs: map<string, CloudCost>, request: Request)
    requires IsTable(t, costs, request.column, request.direction) && !request.column.Unsupported?
    ensures var page := Page(t, request.offset, request.limit);
            forall i, j :: 0 <= i < j < |page| ==> Runs(page[i], page[j], request.column, request.direction)
  {
    hide Runs, IsTable;
    TableReads(t, costs, request.column, request.direction);
  }

  /** The pages at offsets 0, L, 2L, ... one after the other. */
  function Pages(t: seq<Row>, limit: nat, n: nat): seq<Row> {
    if n == 0 then [] else Pages(t, limit, n - 1) + Page(t, (n - 1) * limit, limit)
  }

  lemma {:induction false} PagesArePrefix(t: seq<Row>, limit: nat, n: nat)
    requires limit > 0
    ensures Pages(t, limit, n) == t[..if n * limit <= |t| then n * limit else |t|]
  {
    if n > 0 {
      var before := (n - 1) * limit;
      assert n * limit == before + limit;
      PagesArePrefix(t, limit, n - 1);
      NextPage(t, before, limit);
    }
  }

  lemma NextPage(t: seq<Row>, before: nat, limit: nat)
    requires limit > 0
    ensures t[..if before <= |t| then before else |t|] + Page(t, before, limit)
            == t[..if before + limit <= |t| then before + limit else |t|]
  {
  }

  /** Paging through the table yields it whole, every row once. */
  lemma PagesMakeTable(t: seq<Row>, limit: nat, n: nat)
    requires limit > 0 && n * limit >= |t|
    ensures Pages(t, limit, n) == t
  {
    PagesArePrefix(t, limit, n);
  }

  /* ---------- the graph ---------- */

  datatype Item = Item(name: string, value: real)

  predicate ValueDescending(a: Item, b: Item) { a.value > b.value }

  function ValueOf(item: Item): real { item.value }

  function CostAt(costs: map<string, real>, name: string): real {
    if name in costs then costs[name] else 0.0
  }

  /** The whole of a cost set. */
  ghost function TotalCost(costs: map<string, real>): real {
    SumOver(costs.Keys, name => CostAt(costs, name))
  }

  ghost predicate ListsItems(items: seq<Item>, costs: map<string, real>) {
    && Distinct(items)
    && forall it :: it in items <==> it.name in costs && it.value == costs[it.name]
  }

  /** The first n-1 items as they are, and all the others added up under the name "Other". */
  ghost function Fold(items: seq<Item>, n: nat): seq<Item>
    requires n >= 1
  {
    if |items| <= n then items
    else items[..n - 1] + [Item("Other", SumSeq(items[n - 1..], ValueOf))]
  }

  /** The items kept under their own names. */
  function Kept(size: nat, n: nat): nat
    requires n >= 1
  {
    if size <= n then size else n - 1
  }

  method CollectItems(costs: map<string, real>) returns (items: seq<Item>)
    ensures ListsItems(items, costs)
  {
    items := [];
    var todo := costs.Keys;
    while todo != {}
      invariant todo <= costs.Keys
      invariant Distinct(items)
      invariant forall it :: it in items <==> it.name in costs && it.name !in todo && it.value == costs[it.name]
      decreases todo
    {
      var name :| name in todo;
      var item := Item(name, costs[name]);
      assert item !in items;
      forall it
        ensures it in items + [item] <==> it.name in costs && it.name !in todo - {name} && it.value == costs[it.name]
      {
        assert it in items + [item] <==> it in items || it == item;
      }
      items := items + [item];
      todo := todo - {name};
    }
  }

  /** A listing holds as many items as the map, and adds up to its total. */
  lemma {:induction false} ListingSums(items: seq<Item>, costs: map<string, real>)
    requires ListsItems(items, costs)
    ensures |items| == |costs| && SumSeq(items, ValueOf) == TotalCost(costs)
  {
    hide SumOver;
    assert forall name :: name in costs ==> Item(name, costs[name]) in items;
    if items == [] {
      assert costs.Keys == {};
      SumZero(costs.Keys, name => CostAt(costs, name));
    } else {
      var n := |items| - 1;
      var last := items[n];
      assert last in items;
      var rest := costs - {last.name};
      ListingShrinks(items, costs);
      hide ListsItems;
      ListingSums(items[..n], rest);
      SumPick(costs.Keys, name => CostAt(costs, name), last.name);
      assert rest.Keys == costs.Keys - {last.name};
      SumAgree(rest.Keys, name => CostAt(costs, name), name => CostAt(rest, name));
      assert |costs| == |costs.Keys| && |rest| == |rest.Keys|;
    }
  }

  lemma ListingShrinks(items: seq<Item>, costs: map<string, real>)
    requires ListsItems(items, costs) && items != []
    ensures ListsItems(items[..|items| - 1], costs - {items[|items| - 1].name})
  {
    var n := |items| - 1;
    var rest := costs - {items[n].name};
    forall it ensures it in items[..n] <==> it.name in rest && it.value == rest[it.name] {
      assert it in items <==> it in items[..n] || it == items[n];
    }
  }

  lemma SortedListing(order: seq<Item>, costs: map<string, real>)
    requires ListsItems(order, costs)
    ensures var sorted := StableSort(order, ValueDescending);
            ListsItems(sorted, costs) && Sorted(sorted, ValueDescending)
  {
    hide StableSort;
    StableSortPermutes(order, ValueDescending);
    StableSortSorted(order, ValueDescending);
    DistinctPermutes(order, StableSort(order, ValueDescending));
    SameElements(order, StableSort(order, ValueDescending));
  }

  lemma FoldSums(items: seq<Item>, n: nat)
    requires n >= 1
    ensures SumSeq(Fold(items, n), ValueOf) == SumSeq(items, ValueOf)
  {
    if |items| > n {
      var other := Item("Other", SumSeq(items[n - 1..], ValueOf));
      assert items == items[..n - 1] + items[n - 1..];
      SumSeqConcat(items[..n - 1], items[n - 1..], ValueOf);
      SumSeqConcat(items[..n - 1], [other], ValueOf);
      assert [other][..0] == [];
    }
  }

  /** What the graph of a cost set shows. */
  ghost predicate IsGraph(items: seq<Item>, costs: map<string, real>, n: nat)
    requires n >= 1
  {
    var kept := Kept(|costs|, n);
    && |items| == (if |costs| <= n then |costs| else n)
    && SumSeq(items, ValueOf) == TotalCost(costs)
    && (forall i :: 0 <= i < kept ==> items[i].name in costs && items[i].value == costs[items[i].name])
    && (forall i, j :: 0 <= i < j < kept ==> items[i].name != items[j].name && items[i].value >= items[j].value)
    && (|costs| > n ==> items[n - 1].name == "Other")
    && (forall i, name :: 0 <= i < kept && name in costs && (forall j :: 0 <= j < kept ==> items[j].name != name) ==>
          costs[name] <= items[i].value)
  }

  lemma FoldIsGraph(sorted: seq<Item>, costs: map<string, real>, n: nat)
    requires n >= 1 && ListsItems(sorted, costs) && Sorted(sorted, ValueDescending)
    ensures IsGraph(Fold(sorted, n), costs, n)
  {
    hide SumSeq, SumOver, TotalCost;
    ListingSums(sorted, costs);
    FoldSums(sorted, n);
    var items := Fold(sorted, n);
    var kept := Kept(|costs|, n);
    assert forall i :: 0 <= i < kept ==> items[i] == sorted[i] && sorted[i] in sorted;
    forall i, j | 0 <= i < j < kept ensures items[i].name != items[j].name && items[i].value >= items[j].value {
      assert sorted[i] != sorted[j] && !ValueDescending(sorted[j], sorted[i]);
    }
    forall i, name | 0 <= i < kept && name in costs && (forall j :: 0 <= j < kept ==> items[j].name != name)
      ensures costs[name] <= items[i].value
    {
      forall j | 0 <= j < kept ensures sorted[j].name != name { assert items[j] == sorted[j]; }
      FoldedIsSmaller(sorted, costs, kept, i, name);
    }
  }

  lemma FoldedIsSmaller(sorted: seq<Item>, costs: map<string, real>, kept: nat, i: nat, name: string)
    requires ListsItems(sorted, costs) && Sorted(sorted, ValueDescending) && i < kept <= |sorted|
    requires name in costs && forall j :: 0 <= j < kept ==> sorted[j].name != name
    ensures costs[name] <= sorted[i].value
  {
    assert Item(name, costs[name]) in sorted;
    var j :| 0 <= j < |sorted| && sorted[j] == Item(name, costs[name]);
    assert !ValueDescending(sorted[j], sorted[i]);
  }

  /** The last item kept takes the name "Other" and, one by one, the values behind it. */
  method FoldTail(items: seq<Item>, n: nat) returns (last: Item)
    requires 1 <= n <= |items|
    ensures last == Item("Other", SumSeq(items[n - 1..], ValueOf))
  {
    last := Item("Other", items[n - 1].value);
    assert items[n - 1..n] == [items[n - 1]] && [items[n - 1]][..0] == [];
    for i := n to |items|
      invariant last == Item("Other", SumSeq(items[n - 1..i], ValueOf))
    {
      assert items[n - 1..i + 1][..i + 1 - n] == items[n - 1..i];
      last := last.(value := last.value + items[i].value);
    }
    assert items[n - 1..|items|] == items[n - 1..];
  }

  /** QueryViewGraph for one cost set: sorted by value, the tail added into the last item kept. */
  method GraphItems(costs: map<string, real>, n: nat) returns (items: seq<Item>)
    requires n >= 1
    ensures IsGraph(items, costs, n)
    ensures exists order :: ListsItems(order, costs) && items == Fold(StableSort(order, ValueDescending), n)
  {
    hide SumOver, SumSeq, StableSort, ListsItems, IsGraph;
    var order := CollectItems(costs);
    var a := new Item[|order|](i requires 0 <= i < |order| => order[i]);
    assert a[..] == order;
    SliceStable(a, ValueDescending);
    items := a[..];
    SortedListing(order, costs);
    FoldIsGraph(items, costs, n);
    if |items| > n {
      var last := FoldTail(items, n);
      items := items[..n - 1] + [last];
    }
  }

  /** The values of the graph do not depend on the map's order. */
  lemma GraphValuesAreFixed(p: seq<Item>, q: seq<Item>, costs: map<string, real>, n: nat)
    requires n >= 1 && ListsItems(p, costs) && ListsItems(q, costs)
    ensures var (a, b) := (Fold(StableSort(p, ValueDescending), n), Fold(StableSort(q, ValueDescending), n));
            |a| == |b| && forall i :: 0 <= i < |a| ==> a[i].value == b[i].value
  {
    hide StableSort, SumSeq, Fold, StrictWeak;
    var s, t := StableSort(p, ValueDescending), StableSort(q, ValueDescending);
    SortedListing(p, costs);
    SortedListing(q, costs);
    DistinctMultisets(s, t);
    ValueOrderIsStrictWeak();
    SortedPointwise(s, t, ValueDescending);
    forall i | 0 <= i < |s| ensures s[i].value == t[i].value {
      assert Ties(s[i], t[i], ValueDescending);
    }
    FoldPointwise(s, t, n);
  }

  lemma ValueOrderIsStrictWeak()
    ensures StrictWeak(ValueDescending)
  {
  }

  lemma FoldPointwise(s: seq<Item>, t: seq<Item>, n: nat)
    requires n >= 1 && |s| == |t| && forall i :: 0 <= i < |s| ==> s[i].value == t[i].value
    ensures |Fold(s, n)| == |Fold(t, n)| && forall i :: 0 <= i < |Fold(s, n)| ==>
              Fold(s, n)[i].value == Fold(t, n)[i].value
  {
    hide SumSeq;
    if |s| > n { SumSeqPointwise(s[n - 1..], t[n - 1..]); }
  }

  lemma {:induction false} SumSeqPointwise(s: seq<Item>, t: seq<Item>)
    requires |s| == |t| && forall i :: 0 <= i < |s| ==> s[i].value == t[i].value
    ensures SumSeq(s, ValueOf) == SumSeq(t, ValueOf)
  {
    if s != [] { SumSeqPointwise(s[..|s| - 1], t[..|t| - 1]); }
  }

  lemma UntiedNamesAreFixed(p: seq<Item>, q: seq<Item>, costs: map<string, real>, n: nat)
    requires n >= 1 && ListsItems(p, costs) && ListsItems(q, costs)
    requires forall x, y :: x in costs && y in costs && x != y ==> costs[x] != costs[y]
    ensures Fold(StableSort(p, ValueDescending), n) == Fold(StableSort(q, ValueDescending), n)
  {
    hide StableSort, SumSeq;
    var s, t := StableSort(p, ValueDescending), StableSort(q, ValueDescending);
    SortedListing(p, costs);
    SortedListing(q, costs);
    DistinctMultisets(s, t);
    SortedUnique(s, t, ValueDescending);
  }

  lemma {:induction false} ListingExists(costs: map<string, real>) returns (items: seq<Item>)
    ensures ListsItems(items, costs)
    decreases |costs|
  {
    if costs.Keys == {} {
      items := [];
    } else {
      var name :| name in costs;
      var rest := costs - {name};
      assert rest.Keys == costs.Keys - {name};
      assert |rest| == |rest.Keys| && |costs| == |costs.Keys|;
      items := ListingExists(rest);
      var item := Item(name, costs[name]);
      forall it ensures it in items + [item] <==> it.name in costs && it.value == costs[it.name] {
        assert it in items + [item] <==> it in items || it == item;
      }
      assert item !in items;
      items := items + [item];
    }
  }

  lemma SwapElements(s: seq<Item>, i: nat, j: nat)
    requires i < j < |s|
    ensures forall it :: it in s[i := s[j]][j := s[i]] <==> it in s
  {
    var t := s[i := s[j]][j := s[i]];
    assert s[i] == t[j] && s[j] == t[i];
    assert forall k :: 0 <= k < |s| && k != i && k != j ==> s[k] == t[k];
  }

  /** Two tied items of a sorted listing may change places. */
  lemma TiesSwap(s: seq<Item>, costs: map<string, real>, i: nat, j: nat)
    requires i < j < |s| && s[i].value == s[j].value
    requires ListsItems(s, costs) && Sorted(s, ValueDescending)
    ensures var t := s[i := s[j]][j := s[i]];
            t != s && ListsItems(t, costs) && StableSort(t, ValueDescending) == t
  {
    hide StableSort;
    var t := s[i := s[j]][j := s[i]];
    SwapElements(s, i, j);
    assert Sorted(t, ValueDescending) by {
      forall a, b | 0 <= a < b < |t| ensures !ValueDescending(t[b], t[a]) {
        assert t[a].value == s[a].value && t[b].value == s[b].value && !ValueDescending(s[b], s[a]);
      }
    }
    assert s[i] != s[j];
    SortedIsKept(t, ValueDescending);
  }

  ghost function Larger(costs: map<string, real>, v: real): set<string> { set z | z in costs && costs[z] > v }

  /** Two items tie for places of which at least the first keeps its name. */
  ghost predicate TiedInView(costs: map<string, real>, n: nat)
    requires n >= 1
  {
    exists x, y ::
        x in costs && y in costs && x != y && costs[x] == costs[y] && |Larger(costs, costs[x])| < Kept(|costs|, n)
  }

  function Names(s: seq<Item>): set<string> { set k | 0 <= k < |s| :: s[k].name }

  lemma {:induction false} NamesSize(s: seq<Item>)
    ensures |Names(s)| <= |s|
    ensures (forall i, j :: 0 <= i < j < |s| ==> s[i].name != s[j].name) ==> |Names(s)| == |s|
  {
    if s != [] {
      var n := |s| - 1;
      NamesSize(s[..n]);
      NamesSnoc(s);
    }
  }

  lemma NamesSnoc(s: seq<Item>)
    requires s != []
    ensures var n := |s| - 1;
            Names(s) == Names(s[..n]) + {s[n].name} && (s[n].name in Names(s[..n]) ==> exists i :: 0 <= i < n && s[i].name == s[n].name)
  {
    var n := |s| - 1;
    forall i | 0 <= i < n ensures s[..n][i] == s[i] {
    }
    forall x | x in Names(s) ensures x in Names(s[..n]) + {s[n].name} {
      var k :| 0 <= k < |s| && s[k].name == x;
      assert k < n ==> s[..n][k].name == x;
    }
    forall x | x in Names(s[..n]) ensures x in Names(s) && exists i :: 0 <= i < n && s[i].name == x {
      var k :| 0 <= k < n && s[..n][k].name == x;
      assert s[k].name == x;
    }
  }

  /** In a sorted listing, whatever is larger than an item stands before it; and whatever stands before the first
      item of a value is larger. */
  lemma LargerStandBefore(s: seq<Item>, costs: map<string, real>, i: nat)
    requires i < |s| && ListsItems(s, costs) && Sorted(s, ValueDescending)
    ensures |Larger(costs, s[i].value)| <= i
    ensures (forall k :: 0 <= k < i ==> s[k].value != s[i].value) ==> |Larger(costs, s[i].value)| == i
  {
    var larger, names := Larger(costs, s[i].value), Names(s[..i]);
    NamesSize(s[..i]);
    forall z | z in larger ensures z in names {
      assert Item(z, costs[z]) in s;
      var k :| 0 <= k < |s| && s[k] == Item(z, costs[z]);
      assert k > i ==> !ValueDescending(s[k], s[i]);
      assert s[..i][k].name == z;
    }
    SubsetSize(larger, names);
    if forall k :: 0 <= k < i ==> s[k].value != s[i].value {
      forall k | 0 <= k < i ensures s[k].name in larger {
        assert s[k] in s && !ValueDescending(s[i], s[k]);
      }
      forall a, b | 0 <= a < b < i ensures s[a].name != s[b].name { assert s[a] in s && s[b] in s; }
      assert names <= larger;
      SubsetSize(names, larger);
    }
  }

  lemma KeptAreFixed(s: seq<Item>, t: seq<Item>, costs: map<string, real>, n: nat)
    requires n >= 1 && ListsItems(s, costs) && ListsItems(t, costs) && |s| == |t| == |costs|
    requires Sorted(s, ValueDescending) && forall i :: 0 <= i < |s| ==> s[i].value == t[i].value
    requires !TiedInView(costs, n)
    ensures Fold(s, n) == Fold(t, n)
  {
    hide SumSeq, TiedInView, Sorted;
    forall i | 0 <= i < Kept(|s|, n) ensures s[i] == t[i] {
      if s[i] != t[i] {
        LargerStandBefore(s, costs, i);
        assert s[i] in s && t[i] in t;
        TieIsInView(costs, n, s[i].name, t[i].name);
      }
    }
    if |s| > n {
      SumSeqPointwise(s[n - 1..], t[n - 1..]);
      assert s[..n - 1] == t[..n - 1];
    }
  }

  lemma TieIsInView(costs: map<string, real>, n: nat, x: string, y: string)
    requires n >= 1 && x in costs && y in costs && x != y && costs[x] == costs[y]
             && |Larger(costs, costs[x])| < Kept(|costs|, n)
    ensures TiedInView(costs, n)
  {
  }

  /** The whole graph of a request, names included, is the same for every map order exactly when no tie reaches into the
      places that keep their names; otherwise two runs on the same costs can show different names. */
  lemma GraphIsFixedIff(costs: map<string, real>, n: nat)
    requires n >= 1
    ensures (forall p, q | ListsItems(p, costs) && ListsItems(q, costs) ::
               Fold(StableSort(p, ValueDescending), n) == Fold(StableSort(q, ValueDescending), n))
       <==> !TiedInView(costs, n)
  {
    hide StableSort, SumSeq, SumOver, Fold, ListsItems, StrictWeak;
    if !TiedInView(costs, n) {
      forall p, q | ListsItems(p, costs) && ListsItems(q, costs)
        ensures Fold(StableSort(p, ValueDescending), n) == Fold(StableSort(q, ValueDescending), n)
      {
        var s, t := StableSort(p, ValueDescending), StableSort(q, ValueDescending);
        SortedListing(p, costs);
        SortedListing(q, costs);
        SortedValues(s, t, costs);
        ListingSums(s, costs);
        KeptAreFixed(s, t, costs, n);
      }
    } else {
      var x, y :| x in costs && y in costs && x != y && costs[x] == costs[y] && |Larger(costs, costs[x])| < Kept(|costs|, n);
      TiedListings(costs, n, x, y);
    }
  }

  /** Two items of cost 1: either may come first. */
  lemma TiedNamesSwap(a: string, b: string)
    requires a != b
    ensures var costs, p, q := map[a := 1.0, b := 1.0], [Item(a, 1.0), Item(b, 1.0)], [Item(b, 1.0), Item(a, 1.0)];
            && ListsItems(p, costs) && ListsItems(q, costs)
            && Fold(StableSort(p, ValueDescending), 2) == p && Fold(StableSort(q, ValueDescending), 2) == q
  {
    hide StableSort, SumSeq;
    var p, q := [Item(a, 1.0), Item(b, 1.0)], [Item(b, 1.0), Item(a, 1.0)];
    SortedIsKept(p, ValueDescending);
    SortedIsKept(q, ValueDescending);
  }

  lemma SortedValues(s: seq<Item>, t: seq<Item>, costs: map<string, real>)
    requires ListsItems(s, costs) && ListsItems(t, costs) && Sorted(s, ValueDescending) && Sorted(t, ValueDescending)
    ensures |s| == |t| && forall i :: 0 <= i < |s| ==> s[i].value == t[i].value
  {
    hide StrictWeak, Sorted;
    DistinctMultisets(s, t);
    ValueOrderIsStrictWeak();
    SortedPointwise(s, t, ValueDescending);
    forall i | 0 <= i < |s| ensures s[i].value == t[i].value {
      assert Ties(s[i], t[i], ValueDescending);
    }
  }

  lemma FirstOfValue(s: seq<Item>, m: nat) returns (i: nat)
    requires m < |s|
    ensures i <= m && s[i].value == s[m].value && forall k :: 0 <= k < i ==> s[k].value != s[m].value
  {
    i := 0;
    while s[i].value != s[m].value
      invariant i <= m && forall k :: 0 <= k < i ==> s[k].value != s[m].value
      decreases m - i
    {
      i := i + 1;
    }
  }

  lemma TiedListings(costs: map<string, real>, n: nat, x: string, y: string)
    requires n >= 1 && x in costs && y in costs && x != y && costs[x] == costs[y]
             && |Larger(costs, costs[x])| < Kept(|costs|, n)
    ensures exists p, q :: ListsItems(p, costs) && ListsItems(q, costs)
              && Fold(StableSort(p, ValueDescending), n) != Fold(StableSort(q, ValueDescending), n)
  {
    hide StableSort, SumSeq, SumOver, Fold, Sorted, ListsItems;
    var order := ListingExists(costs);
    SortedListing(order, costs);
    var s := StableSort(order, ValueDescending);
    ListingSums(s, costs);
    var i, j := TiedPlaces(s, costs, x, y);
    SortedIsKept(s, ValueDescending);
    TiesSwap(s, costs, i, j);
    SwapShows(s, i, j, n);
    var t := s[i := s[j]][j := s[i]];
    assert Fold(StableSort(s, ValueDescending), n) != Fold(StableSort(t, ValueDescending), n);
  }

  lemma TiedPlaces(s: seq<Item>, costs: map<string, real>, x: string, y: string) returns (i: nat, j: nat)
    requires ListsItems(s, costs) && Sorted(s, ValueDescending) && x in costs && y in costs && x != y
             && costs[x] == costs[y]
    ensures i < j < |s| && s[i].value == s[j].value && s[i] != s[j] && i == |Larger(costs, costs[x])|
  {
    hide Sorted;
    assert Item(x, costs[x]) in s && Item(y, costs[y]) in s;
    var a: nat :| a < |s| && s[a] == Item(x, costs[x]);
    var b: nat :| b < |s| && s[b] == Item(y, costs[y]);
    i := FirstOfValue(s, a);
    j := if a == i then b else a;
    LargerStandBefore(s, costs, i);
  }

  lemma SwapShows(s: seq<Item>, i: nat, j: nat, n: nat)
    requires n >= 1 && i < j < |s| && i < Kept(|s|, n) && s[i] != s[j]
    ensures Fold(s, n) != Fold(s[i := s[j]][j := s[i]], n)
  {
    hide SumSeq;
    var t := s[i := s[j]][j := s[i]];
    assert Fold(s, n)[i] == s[i] && Fold(t, n)[i] == s[j];
  }
}
