/**
 * The table component (frontend/src/components/DataTable.tsx): the rows
 * shown are the data filtered by the search term, sorted by the selected
 * column, and cut to the current page.
 *
 * A row is a map from field names to cell values. A cell is a number or a
 * text; how a number prints is the parameter `numberText`
 * (`Number.prototype.toString`).
 */
module DataTable {
  import opened Common

  datatype Value = Num(x: real) | Text(s: string)

  type Row = map<string, Value>

  /** A column shows a field of the row or a value computed from the whole row. */
  datatype Accessor = Field(key: string) | Computed(render: Row -> string)

  datatype Column = Column(header: string, accessor: Accessor, sortable: bool)

  datatype Direction = Asc | Desc

  /** `sortConfig`: the sorted field, if any, and the direction. */
  datatype SortConfig = SortConfig(key: Option<string>, direction: Direction)

  const DefaultPageSize: nat := 10

  // ---------------------------------------------------------------------
  // Searching

  /** `String(value)`: a missing field prints as "undefined". */
  function CellText(row: Row, accessor: Accessor, numberText: real -> string): string
  {
    match accessor
    case Computed(render) => render(row)
    case Field(key) =>
      if key !in row then "undefined"
      else match row[key]
        case Num(x) => numberText(x)
        case Text(s) => s
  }

  /** Some column's text contains the term, ignoring case. */
  predicate Matches(row: Row, columns: seq<Column>, term: string, numberText: real -> string)
  {
    exists c :: 0 <= c < |columns| && Contains(ToLower(CellText(row, columns[c].accessor, numberText)), ToLower(term))
  }

  /** `filteredData`: the data itself for an empty term, else the matching rows in order. */
  function Filtered(data: seq<Row>, columns: seq<Column>, term: string, numberText: real -> string): (r: seq<Row>)
    ensures term == "" ==> r == data
  {
    if term == "" then data
    else if data == [] then []
    else
      var rest := Filtered(data[..|data| - 1], columns, term, numberText);
      var row := data[|data| - 1];
      if Matches(row, columns, term, numberText) then rest + [row] else rest
  }

  /**
   * A non-empty term keeps exactly the matching rows: the result is no longer
   * than the data, every kept row matches, every matching row of the data is
   * kept, and each row occurs as often as in the data if it matches and not
   * at all otherwise. `FilteredConcat` states that the order is kept.
   */
  lemma {:induction false} FilteredKeepsMatches(data: seq<Row>, columns: seq<Column>, term: string, numberText: real -> string)
    requires term != ""
    ensures var r := Filtered(data, columns, term, numberText);
      && |r| <= |data|
      && (forall k :: 0 <= k < |r| ==> Matches(r[k], columns, term, numberText) && r[k] in data)
      && (forall k :: 0 <= k < |data| && Matches(data[k], columns, term, numberText) ==> data[k] in r)
      && (forall x :: multiset(r)[x] == if Matches(x, columns, term, numberText) then multiset(data)[x] else 0)
  {
    if data != [] {
      var n := |data| - 1;
      FilteredKeepsMatches(data[..n], columns, term, numberText);
      assert data == data[..n] + [data[n]];
    }
    FilteredCounts(data, columns, term, numberText);
  }

  /** A non-empty term keeps each matching row as often as it occurs in the data, and no other row. */
  lemma {:induction false} FilteredCounts(data: seq<Row>, columns: seq<Column>, term: string, numberText: real -> string)
    requires term != ""
    ensures var r := Filtered(data, columns, term, numberText);
      forall x :: multiset(r)[x] == if Matches(x, columns, term, numberText) then multiset(data)[x] else 0
  {
    if data != [] {
      var n := |data| - 1;
      FilteredCounts(data[..n], columns, term, numberText);
      assert data == data[..n] + [data[n]];
      assert multiset(data) == multiset(data[..n]) + multiset{data[n]};
    }
  }

  /**
   * Filtering commutes with concatenation: the kept rows of `a + b` are the
   * kept rows of `a` followed by those of `b`, so the filter keeps the rows in
   * their order.
   */
  lemma {:induction false} FilteredConcat(a: seq<Row>, b: seq<Row>, columns: seq<Column>, term: string, numberText: real -> string)
    ensures Filtered(a + b, columns, term, numberText)
      == Filtered(a, columns, term, numberText) + Filtered(b, columns, term, numberText)
    decreases |b|
  {
    if term != "" && b != [] {
      var n := |b| - 1;
      FilteredConcat(a, b[..n], columns, term, numberText);
      assert (a + b)[..|a + b| - 1] == a + b[..n];
      assert (a + b)[|a + b| - 1] == b[n];
    } else if b == [] {
      assert a + b == a;
    }
  }

  /** Lower-casing is idempotent. */
  lemma {:induction false} ToLowerIdempotent(s: string)
    ensures ToLower(ToLower(s)) == ToLower(s)
  {
    assert forall i :: 0 <= i < |s| ==> LowerChar(LowerChar(s[i])) == LowerChar(s[i]);
  }

  /** The search ignores the case of the term: a term and its lower-case form select the same rows. */
  lemma {:induction false} SearchIgnoresCase(data: seq<Row>, columns: seq<Column>, term: string, numberText: real -> string)
    ensures Filtered(data, columns, ToLower(term), numberText) == Filtered(data, columns, term, numberText)
  {
    ToLowerIdempotent(term);
    assert ToLower(term) == "" <==> term == "";
    if term != "" && data != [] {
      SearchIgnoresCase(data[..|data| - 1], columns, term, numberText);
      assert forall row :: Matches(row, columns, ToLower(term), numberText) == Matches(row, columns, term, numberText);
    }
  }

  // ---------------------------------------------------------------------
  // Sorting

  /** JavaScript `<` on strings: the first differing code unit decides; a proper prefix is smaller. */
  predicate TextLess(a: string, b: string)
  {
    if a == [] then b != []
    else if b == [] then false
    else if a[0] != b[0] then a[0] < b[0]
    else TextLess(a[1..], b[1..])
  }

  /**
   * `aValue < bValue` on two cells: numbers by value, texts by code units. A
   * missing field (`undefined`) is neither smaller nor greater than
   * anything, and a number against a text is treated the same way.
   */
  predicate CellLess(a: Option<Value>, b: Option<Value>)
  {
    match (a, b)
    case (Some(Num(x)), Some(Num(y))) => x < y
    case (Some(Text(s)), Some(Text(t))) => TextLess(s, t)
    case _ => false
  }

  function SortValue(row: Row, key: string): Option<Value>
  {
    if key in row then Some(row[key]) else None
  }

  /** The comparator passed to `sort`. */
  function Compare(a: Row, b: Row, key: string, direction: Direction): int
  {
    var aValue := SortValue(a, key);
    var bValue := SortValue(b, key);
    if CellLess(aValue, bValue) then (if direction == Asc then -1 else 1)
    else if CellLess(bValue, aValue) then (if direction == Asc then 1 else -1)
    else 0
  }

  /** `a` goes before `b`: the comparator is negative. */
  predicate Before(a: Row, b: Row, key: string, direction: Direction)
  {
    Compare(a, b, key, direction) < 0
  }

  /**
   * Inserting `x` into sorted rows behind every row it does not go before:
   * rows the comparator calls equal keep their order, as in the stable
   * `Array.prototype.sort`.
   */
  function Insert(sorted: seq<Row>, x: Row, key: string, direction: Direction): (r: seq<Row>)
    ensures multiset(r) == multiset(sorted) + multiset{x}
  {
    if sorted == [] then [x]
    else
      var n := |sorted| - 1;
      if Before(x, sorted[n], key, direction) then
        assert sorted == sorted[..n] + [sorted[n]];
        Insert(sorted[..n], x, key, direction) + [sorted[n]]
      else sorted + [x]
  }

  /** `[...rows].sort(comparator)`, stable. */
  function SortRows(rows: seq<Row>, key: string, direction: Direction): (r: seq<Row>)
    ensures multiset(r) == multiset(rows)
  {
    if rows == [] then []
    else
      var n := |rows| - 1;
      assert rows == rows[..n] + [rows[n]];
      Insert(SortRows(rows[..n], key, direction), rows[n], key, direction)
  }

  /** `sortedData`: unchanged without a sort key, and for the key `""`, which JavaScript reads as false. */
  function Sorted(rows: seq<Row>, config: SortConfig): seq<Row>
  {
    match config.key
    case None => rows
    case Some(key) => if key == "" then rows else SortRows(rows, key, config.direction)
  }

  /** No row goes before an earlier one. */
  predicate Ordered(rows: seq<Row>, key: string, direction: Direction)
  {
    forall i, j :: 0 <= i < j < |rows| ==> !Before(rows[j], rows[i], key, direction)
  }

  /** The row has the sort field, holding a number when `numeric` and a text otherwise. */
  predicate HasKind(row: Row, key: string, numeric: bool)
  {
    key in row && row[key].Num? == numeric
  }

  /** Every row has the sort field, and all of them hold numbers or all hold texts. */
  predicate Comparable(rows: seq<Row>, key: string, numeric: bool)
  {
    forall k :: 0 <= k < |rows| ==> HasKind(rows[k], key, numeric)
  }

  lemma {:induction false} TextLessIrreflexive(a: string)
    ensures !TextLess(a, a)
  {
    if a != [] {
      TextLessIrreflexive(a[1..]);
    }
  }

  lemma {:induction false} TextLessTransitive(a: string, b: string, c: string)
    requires TextLess(a, b) && TextLess(b, c)
    ensures TextLess(a, c)
  {
    if a != [] && b != [] && c != [] && a[0] == b[0] && b[0] == c[0] {
      TextLessTransitive(a[1..], b[1..], c[1..]);
    }
  }

  lemma {:induction false} TextLessTotal(a: string, b: string)
    requires a != b
    ensures TextLess(a, b) || TextLess(b, a)
  {
    if a != [] && b != [] && a[0] == b[0] {
      assert a == [a[0]] + a[1..] && b == [b[0]] + b[1..];
      TextLessTotal(a[1..], b[1..]);
    }
  }

  /** Between cells of the same kind, `<` is a strict total order. */
  lemma CellOrder(u: Value, v: Value, w: Value)
    requires u.Num? == v.Num? == w.Num?
    ensures !CellLess(Some(u), Some(u))
    ensures CellLess(Some(u), Some(v)) && CellLess(Some(v), Some(w)) ==> CellLess(Some(u), Some(w))
    ensures u != v ==> CellLess(Some(u), Some(v)) || CellLess(Some(v), Some(u))
  {
    if u.Text? {
      TextLessIrreflexive(u.s);
      if TextLess(u.s, v.s) && TextLess(v.s, w.s) {
        TextLessTransitive(u.s, v.s, w.s);
      }
      if u.s != v.s {
        TextLessTotal(u.s, v.s);
      }
    }
  }

  /** On cells of one kind, "does not go before" is transitive and "goes before" is asymmetric. */
  lemma BeforeOrder(a: Row, b: Row, c: Row, key: string, direction: Direction, numeric: bool)
    requires HasKind(a, key, numeric) && HasKind(b, key, numeric) && HasKind(c, key, numeric)
    ensures !Before(b, a, key, direction) && !Before(c, b, key, direction) ==> !Before(c, a, key, direction)
    ensures Before(a, b, key, direction) ==> !Before(b, a, key, direction)
  {
    var u, v, w := a[key], b[key], c[key];
    CellOrder(u, v, w);
    CellOrder(w, u, v);
    CellOrder(v, w, u);
    CellOrder(u, w, v);
    CellOrder(v, u, w);
    CellOrder(w, v, u);
    CellOrder(u, v, u);
  }

  /** Appending a row that goes before none of the rows keeps them ordered. */
  lemma AppendOrdered(rows: seq<Row>, y: Row, key: string, direction: Direction)
    requires Ordered(rows, key, direction)
    requires forall i :: 0 <= i < |rows| ==> !Before(y, rows[i], key, direction)
    ensures Ordered(rows + [y], key, direction)
  {
    var r := rows + [y];
    forall i, j | 0 <= i < j < |r| ensures !Before(r[j], r[i], key, direction) {
      assert r[i] == rows[i];
      if j < |rows| { assert r[j] == rows[j]; }
    }
  }

  /** Inserting into ordered rows of one kind keeps them ordered. */
  lemma {:induction false} InsertOrdered(sorted: seq<Row>, x: Row, key: string, direction: Direction, numeric: bool)
    requires Ordered(sorted, key, direction)
    requires Comparable(sorted, key, numeric) && HasKind(x, key, numeric)
    ensures Ordered(Insert(sorted, x, key, direction), key, direction)
  {
    if sorted != [] {
      var n := |sorted| - 1;
      var last := sorted[n];
      var init := sorted[..n];
      if Before(x, last, key, direction) {
        assert Ordered(init, key, direction);
        assert Comparable(init, key, numeric);
        InsertOrdered(init, x, key, direction, numeric);
        var ins := Insert(init, x, key, direction);
        LastAfterInserted(sorted, x, last, ins, key, direction, numeric);
        AppendOrdered(ins, last, key, direction);
      } else {
        NoneAfterAppended(sorted, x, key, direction, numeric);
        AppendOrdered(sorted, x, key, direction);
      }
    }
  }

  /** When `x` goes before the last row, the last row goes before none of the others with `x` inserted. */
  lemma LastAfterInserted(sorted: seq<Row>, x: Row, last: Row, ins: seq<Row>, key: string, direction: Direction, numeric: bool)
    requires sorted != [] && Ordered(sorted, key, direction)
    requires Comparable(sorted, key, numeric) && HasKind(x, key, numeric)
    requires last == sorted[|sorted| - 1] && Before(x, last, key, direction)
    requires ins == Insert(sorted[..|sorted| - 1], x, key, direction)
    ensures forall i :: 0 <= i < |ins| ==> !Before(last, ins[i], key, direction)
  {
    var n := |sorted| - 1;
    var init := sorted[..n];
    forall i | 0 <= i < |ins| ensures !Before(last, ins[i], key, direction) {
      assert ins[i] in multiset(ins);
      if ins[i] == x {
        BeforeOrder(x, last, x, key, direction, numeric);
      } else {
        assert ins[i] in multiset(init);
        var k :| 0 <= k < n && init[k] == ins[i];
        assert sorted[k] == ins[i];
      }
    }
  }

  /** When `x` does not go before the last row, it goes before none of the rows. */
  lemma NoneAfterAppended(sorted: seq<Row>, x: Row, key: string, direction: Direction, numeric: bool)
    requires sorted != [] && Ordered(sorted, key, direction)
    requires Comparable(sorted, key, numeric) && HasKind(x, key, numeric)
    requires !Before(x, sorted[|sorted| - 1], key, direction)
    ensures forall i :: 0 <= i < |sorted| ==> !Before(x, sorted[i], key, direction)
  {
    var n := |sorted| - 1;
    forall i | 0 <= i < |sorted| ensures !Before(x, sorted[i], key, direction) {
      if i < n {
        BeforeOrder(sorted[i], sorted[n], x, key, direction, numeric);
      }
    }
  }

  /** Rows of one kind stay of that kind through any permutation. */
  lemma PermutationKeepsKind(rows: seq<Row>, perm: seq<Row>, key: string, numeric: bool)
    requires multiset(perm) == multiset(rows) && Comparable(rows, key, numeric)
    ensures Comparable(perm, key, numeric)
  {
    forall k | 0 <= k < |perm| ensures HasKind(perm[k], key, numeric) {
      assert perm[k] in multiset(rows) by { assert perm[k] in multiset(perm); }
      var i :| 0 <= i < |rows| && rows[i] == perm[k];
    }
  }

  /**
   * When the sort field holds numbers in every row, or texts in every row,
   * the sorted rows are ordered ascending or descending and are a
   * permutation of the input.
   */
  lemma {:induction false} SortRowsOrdered(rows: seq<Row>, key: string, direction: Direction, numeric: bool)
    requires Comparable(rows, key, numeric)
    ensures Ordered(SortRows(rows, key, direction), key, direction)
    ensures multiset(SortRows(rows, key, direction)) == multiset(rows)
  {
    if rows != [] {
      var n := |rows| - 1;
      var init := rows[..n];
      assert Comparable(init, key, numeric);
      SortRowsOrdered(init, key, direction, numeric);
      var s := SortRows(init, key, direction);
      PermutationKeepsKind(init, s, key, numeric);
      InsertOrdered(s, rows[n], key, direction, numeric);
    }
  }

  /** Ascending order by a field: each row's cell is at most the next one's. */
  lemma AscendingMeansNonDecreasing(rows: seq<Row>, key: string, numeric: bool)
    requires Ordered(rows, key, Asc) && Comparable(rows, key, numeric)
    ensures forall i, j :: 0 <= i < j < |rows| ==> !CellLess(SortValue(rows[j], key), SortValue(rows[i], key))
  {
    forall i, j | 0 <= i < j < |rows| ensures !CellLess(SortValue(rows[j], key), SortValue(rows[i], key)) {
      assert !Before(rows[j], rows[i], key, Asc);
    }
  }

  /** Clicking a column: the same column while ascending turns descending; anything else sorts ascending by it. */
  function HandleSortConfig(prev: SortConfig, key: string): (next: SortConfig)
    ensures next.key == Some(key)
    ensures next.direction == Desc <==> prev.key == Some(key) && prev.direction == Asc
  {
    SortConfig(Some(key), if prev.key == Some(key) && prev.direction == Asc then Desc else Asc)
  }

  /** Clicking the sorted column twice gives back the same sort. */
  lemma ClickTwiceRestores(prev: SortConfig, key: string)
    requires prev.key == Some(key)
    ensures HandleSortConfig(HandleSortConfig(prev, key), key) == prev
  {
  }

  // ---------------------------------------------------------------------
  // Pagination

  /** `Math.ceil(n / pageSize)`. */
  function TotalPages(n: nat, pageSize: nat): (pages: nat)
    requires pageSize > 0
    ensures (pages - 1) * pageSize < n <= pages * pageSize || (n == 0 && pages == 0)
  {
    (n + pageSize - 1) / pageSize
  }

  /** `slice((page - 1) * pageSize, page * pageSize)`, clamped to the rows. */
  function PageSlice(rows: seq<Row>, page: nat, pageSize: nat): (r: seq<Row>)
    requires page >= 1
  {
    var start := Min((page - 1) * pageSize, |rows|);
    var end := Min(page * pageSize, |rows|);
    rows[start..end]
  }

  /** `paginatedData`: the current page, or every row without pagination. */
  function Paginated(rows: seq<Row>, pagination: bool, page: nat, pageSize: nat): seq<Row>
    requires page >= 1
  {
    if pagination then PageSlice(rows, page, pageSize) else rows
  }

  /** Pages 1 to `k`, one after the other. */
  function FirstPages(rows: seq<Row>, k: nat, pageSize: nat): seq<Row>
  {
    if k == 0 then [] else FirstPages(rows, k - 1, pageSize) + PageSlice(rows, k, pageSize)
  }

  /** Pages 1 to `k` are the first `min(k·pageSize, n)` rows. */
  lemma {:induction false} FirstPagesArePrefix(rows: seq<Row>, k: nat, pageSize: nat)
    ensures FirstPages(rows, k, pageSize) == rows[..Min(k * pageSize, |rows|)]
  {
    if k > 0 {
      FirstPagesArePrefix(rows, k - 1, pageSize);
      assert (k - 1) * pageSize <= k * pageSize;
    }
  }

  /** Each page has at most `pageSize` rows. */
  lemma PageSize(rows: seq<Row>, page: nat, pageSize: nat)
    requires page >= 1
    ensures |PageSlice(rows, page, pageSize)| <= pageSize
  {
    assert (page - 1) * pageSize + pageSize == page * pageSize;
  }

  /** Pages 1 to `totalPages` together are exactly the rows, in order. */
  lemma PagesCoverRows(rows: seq<Row>, pageSize: nat)
    requires pageSize > 0
    ensures FirstPages(rows, TotalPages(|rows|, pageSize), pageSize) == rows
  {
    var pages := TotalPages(|rows|, pageSize);
    FirstPagesArePrefix(rows, pages, pageSize);
    assert Min(pages * pageSize, |rows|) == |rows|;
  }

  /** The "Mostrando a de b" text: first and last row numbers of the page. */
  function RangeStart(page: nat, pageSize: nat): int
  {
    (page - 1) * pageSize + 1
  }

  function RangeEnd(page: nat, pageSize: nat, n: nat): int
  {
    Min(page * pageSize, n)
  }

  /** On a page within range, the text counts exactly the rows of the page. */
  lemma RangeMatchesPage(rows: seq<Row>, page: nat, pageSize: nat)
    requires pageSize > 0 && 1 <= page <= TotalPages(|rows|, pageSize)
    ensures 1 <= RangeStart(page, pageSize) <= RangeEnd(page, pageSize, |rows|) <= |rows|
    ensures RangeEnd(page, pageSize, |rows|) - RangeStart(page, pageSize) + 1 == |PageSlice(rows, page, pageSize)|
  {
    assert (page - 1) * pageSize <= (TotalPages(|rows|, pageSize) - 1) * pageSize;
  }

  // ---------------------------------------------------------------------
  // The component

  /** The component's props and state. */
  class Table {
    const data: seq<Row>
    const columns: seq<Column>
    const pagination: bool
    const pageSize: nat
    const numberText: real -> string
    var searchTerm: string
    var currentPage: int
    var sortConfig: SortConfig

    /** The current page stays between 1 and the last page (page 1 when nothing is shown). */
    ghost predicate Valid()
      reads this
    {
      pageSize > 0 && 1 <= currentPage <= Max(1, PageCount())
    }

    function Rows(): seq<Row>
      reads this
    {
      Sorted(Filtered(data, columns, searchTerm, numberText), sortConfig)
    }

    function PageCount(): nat
      reads this
      requires pageSize > 0
    {
      TotalPages(|Rows()|, pageSize)
    }

    /** The rows on screen. */
    function Visible(): seq<Row>
      reads this
      requires currentPage >= 1
    {
      Paginated(Rows(), pagination, currentPage, pageSize)
    }

    /** The initial state: empty search, page 1, no sort. */
    constructor(data: seq<Row>, columns: seq<Column>, pagination: bool, pageSize: nat, numberText: real -> string)
      requires pageSize > 0
      ensures Valid()
      ensures this.data == data && this.columns == columns && this.pagination == pagination
      ensures this.pageSize == pageSize && this.numberText == numberText
      ensures searchTerm == "" && currentPage == 1 && sortConfig == SortConfig(None, Asc)
    {
      this.data := data;
      this.columns := columns;
      this.pagination := pagination;
      this.pageSize := pageSize;
      this.numberText := numberText;
      searchTerm := "";
      currentPage := 1;
      sortConfig := SortConfig(None, Asc);
    }

    /** Typing in the search box: a new term, back to page 1. */
    method SetSearchTerm(term: string)
      requires Valid()
      modifies this
      ensures Valid()
      ensures searchTerm == term && currentPage == 1 && sortConfig == old(sortConfig)
    {
      searchTerm := term;
      currentPage := 1;
    }

    /** `handleSort`: the page is kept, and so is the number of rows. */
    method HandleSort(key: string)
      requires Valid()
      modifies this
      ensures Valid()
      ensures sortConfig == HandleSortConfig(old(sortConfig), key)
      ensures searchTerm == old(searchTerm) && currentPage == old(currentPage)
    {
      sortConfig := SortConfig(Some(key), if sortConfig.key == Some(key) && sortConfig.direction == Asc then Desc else Asc);
      SortedKeepsCount(Filtered(data, columns, searchTerm, numberText), old(sortConfig), sortConfig);
    }

    /** The previous-page button: never below page 1. */
    method PrevPage()
      requires Valid()
      modifies this
      ensures Valid()
      ensures currentPage == Max(1, old(currentPage) - 1)
      ensures searchTerm == old(searchTerm) && sortConfig == old(sortConfig)
    {
      currentPage := Max(1, currentPage - 1);
    }

    /** The next-page button, shown only when there is more than one page: never past the last page. */
    method NextPage()
      requires Valid() && pagination && PageCount() > 1
      modifies this
      ensures Valid()
      ensures currentPage == Min(old(PageCount()), old(currentPage) + 1)
      ensures searchTerm == old(searchTerm) && sortConfig == old(sortConfig)
    {
      currentPage := Min(PageCount(), currentPage + 1);
    }
  }

  /**
   * Sorting only reorders: without a key, or with the empty key, the rows are
   * unchanged; with another key they are a permutation, so every
   * configuration shows as many rows.
   */
  lemma SortedKeepsCount(rows: seq<Row>, a: SortConfig, b: SortConfig)
    ensures a.key.None? || a.key == Some("") ==> Sorted(rows, a) == rows
    ensures multiset(Sorted(rows, a)) == multiset(rows)
    ensures |Sorted(rows, a)| == |Sorted(rows, b)| == |rows|
  {
    if a.key.Some? && a.key.value != "" {
      assert |multiset(SortRows(rows, a.key.value, a.direction))| == |multiset(rows)|;
    }
    if b.key.Some? && b.key.value != "" {
      assert |multiset(SortRows(rows, b.key.value, b.direction))| == |multiset(rows)|;
    }
  }

  /** Without pagination every row is shown, whatever the page. */
  lemma UnpaginatedShowsAll(rows: seq<Row>, page: nat, pageSize: nat)
    requires page >= 1
    ensures Paginated(rows, false, page, pageSize) == rows
  {
  }

  /** Every row of a page is one of the rows being paged. */
  lemma PageRowsFromRows(rows: seq<Row>, page: nat, pageSize: nat)
    requires page >= 1
    ensures forall k :: 0 <= k < |PageSlice(rows, page, pageSize)| ==> PageSlice(rows, page, pageSize)[k] in multiset(rows)
  {
    var start := Min((page - 1) * pageSize, |rows|);
    var slice := PageSlice(rows, page, pageSize);
    forall k | 0 <= k < |slice| ensures slice[k] in multiset(rows) {
      assert slice[k] == rows[start + k];
    }
  }

  /** A table in a valid state shows at most one page of rows, all of them among the filtered data. */
  lemma VisibleIsOnePage(t: Table)
    requires t.Valid() && t.pagination
    ensures |t.Visible()| <= t.pageSize
    ensures forall k :: 0 <= k < |t.Visible()| ==> t.Visible()[k] in multiset(Filtered(t.data, t.columns, t.searchTerm, t.numberText))
  {
    var filtered := Filtered(t.data, t.columns, t.searchTerm, t.numberText);
    var rows := t.Rows();
    assert multiset(rows) == multiset(filtered) by {
      if t.sortConfig.key.Some? {}
    }
    PageSize(rows, t.currentPage, t.pageSize);
    PageRowsFromRows(rows, t.currentPage, t.pageSize);
  }
}
