/** The campaign table: the status dropdown, the column sort, pagination in
    pages of five, and the table's state (sort column, direction, dropdown
    value, current page). */
module DataTable {
  import opened Common
  import opened CampaignData

  // --------------------------------------------------------- status dropdown

  /** The dropdown value: "all" or one status. */
  datatype StatusChoice = AllStatuses | OnlyStatus(status: Status)

  predicate ShowsStatus(choice: StatusChoice, r: TableRow)
  {
    choice == AllStatuses || r.status == choice.status
  }

  /** `statusFilter === 'all' ? data : data.filter(...)`: some of the rows,
      each with the chosen status. */
  function StatusFiltered(data: seq<TableRow>, choice: StatusChoice): (shown: seq<TableRow>)
    ensures |shown| <= |data|
    ensures forall i :: 0 <= i < |shown| ==>
      shown[i] in data && (choice.OnlyStatus? ==> shown[i].status == choice.status)
  {
    FilterMembers(data, r => ShowsStatus(choice, r));
    Filter(data, r => ShowsStatus(choice, r))
  }

  /** "all" keeps every row; a status keeps exactly the rows with that status,
      in their original order. */
  lemma StatusFilteredMeaning(data: seq<TableRow>, choice: StatusChoice)
    ensures choice == AllStatuses ==> StatusFiltered(data, choice) == data
    ensures choice.OnlyStatus? ==> forall r :: r in StatusFiltered(data, choice) <==> r in data && r.status == choice.status
    ensures IsSubsequence(StatusFiltered(data, choice), data)
  {
    FilterIsSubsequence(data, r => ShowsStatus(choice, r));
    FilterMembers(data, r => ShowsStatus(choice, r));
    if choice == AllStatuses {
      FilterKeepsAll(data, r => ShowsStatus(choice, r));
    } else {
      forall r | r in data && r.status == choice.status ensures r in StatusFiltered(data, choice) {
        var i :| 0 <= i < |data| && data[i] == r;
      }
    }
  }

  // ----------------------------------------------------------- the comparator

  /** The column the table is sorted by: any field of a row. */
  datatype SortField = Id | Campaign | StatusField | Impressions | Clicks | Ctr | Cost
                     | Conversions | Roi | StartDate | EndDate | CategoryField | PlatformField

  datatype SortDirection = Asc | Desc

  /** A field's value as the comparator sees it: a string or a number. */
  datatype Value = Str(s: string) | Num(n: real)

  /** The value a column shows for a row: a number exactly on the numeric
      columns. */
  function FieldValue(r: TableRow, field: SortField): (v: Value)
    ensures v.Num? <==> IsNumeric(field)
  {
    match field
    case Id => Str(r.id)
    case Campaign => Str(r.campaign)
    case StatusField => Str(StatusText(r.status))
    case Impressions => Num(r.impressions as real)
    case Clicks => Num(r.clicks as real)
    case Ctr => Num(r.ctr)
    case Cost => Num(r.cost)
    case Conversions => Num(r.conversions as real)
    case Roi => Num(r.roi)
    case StartDate => Str(IsoText(r.startDate))
    case EndDate => Str(IsoText(r.endDate))
    case CategoryField => Str(CategoryText(r.category))
    case PlatformField => Str(PlatformText(r.platform))
  }

  predicate IsNumeric(field: SortField)
  {
    field in {Impressions, Clicks, Ctr, Cost, Conversions, Roi}
  }

  /** `localeCompare`, taken as lexicographic order of characters:
      negative, zero or positive. */
  function LexCompare(a: string, b: string): (r: int)
    ensures -1 <= r <= 1
    ensures r == 0 <==> a == b
  {
    if a == [] && b == [] then 0
    else if a == [] then -1
    else if b == [] then 1
    else if a[0] < b[0] then -1
    else if a[0] > b[0] then 1
    else
      var r := LexCompare(a[1..], b[1..]);
      assert a == [a[0]] + a[1..] && b == [b[0]] + b[1..];
      r
  }

  lemma {:induction false} LexAntisymmetric(a: string, b: string)
    ensures LexCompare(b, a) == -LexCompare(a, b)
  {
    if a != [] && b != [] && a[0] == b[0] { LexAntisymmetric(a[1..], b[1..]); }
  }

  lemma {:induction false} LexTransitive(a: string, b: string, c: string)
    requires LexCompare(a, b) <= 0 && LexCompare(b, c) <= 0
    ensures LexCompare(a, c) <= 0
  {
    if a != [] && b != [] && c != [] && a[0] == b[0] && b[0] == c[0] {
      LexTransitive(a[1..], b[1..], c[1..]);
    }
  }

  /** The comparator: strings by `localeCompare`, numbers by subtraction,
      descending by swapping the operands, anything else equal. */
  function CompareValues(a: Value, b: Value, dir: SortDirection): (c: real)
    ensures a.Str? && b.Str? ==> (c == 0.0 <==> a.s == b.s)
    ensures a.Num? && b.Num? ==> (c <= 0.0 <==> if dir == Asc then a.n <= b.n else b.n <= a.n)
    ensures a.Str? != b.Str? ==> c == 0.0
  {
    match (a, b)
    case (Str(x), Str(y)) => if dir == Asc then LexCompare(x, y) as real else LexCompare(y, x) as real
    case (Num(x), Num(y)) => if dir == Asc then x - y else y - x
    case _ => 0.0
  }

  datatype SortKey = SortKey(field: SortField, dir: SortDirection)

  /** A row compares equal to itself, and on a numeric column the sign
      says which value is larger. */
  function RowCompare(a: TableRow, b: TableRow, key: SortKey): (c: real)
    ensures a == b ==> c == 0.0
    ensures IsNumeric(key.field) && key.dir == Asc ==>
      (c <= 0.0 <==> FieldValue(a, key.field).n <= FieldValue(b, key.field).n)
    ensures IsNumeric(key.field) && key.dir == Desc ==>
      (c <= 0.0 <==> FieldValue(a, key.field).n >= FieldValue(b, key.field).n)
  {
    CompareValues(FieldValue(a, key.field), FieldValue(b, key.field), key.dir)
  }

  /** Descending is ascending with the operands swapped; a string and a
      number compare equal; a column holds numbers iff it is numeric. */
  lemma ComparatorShape(a: TableRow, b: TableRow, field: SortField, x: string, y: real)
    ensures RowCompare(a, b, SortKey(field, Desc)) == RowCompare(b, a, SortKey(field, Asc))
    ensures CompareValues(Str(x), Num(y), Asc) == 0.0 && CompareValues(Num(y), Str(x), Desc) == 0.0
    ensures FieldValue(a, field).Num? <==> IsNumeric(field)
  {
  }

  lemma CompareAntisymmetric(a: TableRow, b: TableRow, key: SortKey)
    ensures RowCompare(b, a, key) == -RowCompare(a, b, key)
  {
    var va, vb := FieldValue(a, key.field), FieldValue(b, key.field);
    if va.Str? && vb.Str? { LexAntisymmetric(va.s, vb.s); }
  }

  lemma CompareTransitive(a: TableRow, b: TableRow, c: TableRow, key: SortKey)
    requires RowCompare(a, b, key) <= 0.0 && RowCompare(b, c, key) <= 0.0
    ensures RowCompare(a, c, key) <= 0.0
  {
    var va, vb, vc := FieldValue(a, key.field), FieldValue(b, key.field), FieldValue(c, key.field);
    if va.Str? {
      if key.dir == Asc { LexTransitive(va.s, vb.s, vc.s); } else { LexTransitive(vc.s, vb.s, va.s); }
    }
  }

  // ------------------------------------------------------------------ sorting

  /** Every earlier row compares at most equal to every later one. */
  predicate Sorted(r: seq<TableRow>, key: SortKey)
  {
    forall i, j :: 0 <= i < j < |r| ==> RowCompare(r[i], r[j], key) <= 0.0
  }

  /** Inserts `x` after every row that does not compare greater than it, so
      equal rows keep their order (the sort is stable, as `Array.sort` is). */
  function Insert(x: TableRow, s: seq<TableRow>, key: SortKey): (r: seq<TableRow>)
    ensures multiset(r) == multiset(s) + multiset{x}
    ensures |r| == |s| + 1
  {
    if s == [] then [x]
    else if RowCompare(x, s[0], key) < 0.0 then [x] + s
    else
      assert s == [s[0]] + s[1..];
      [s[0]] + Insert(x, s[1..], key)
  }

  /** Putting a row that compares below the head in front keeps the order. */
  lemma InsertFront(x: TableRow, s: seq<TableRow>, key: SortKey)
    requires Sorted(s, key) && s != [] && RowCompare(x, s[0], key) < 0.0
    ensures Sorted([x] + s, key)
  {
    forall j | 0 <= j < |s| ensures RowCompare(x, s[j], key) <= 0.0 {
      if j > 0 { CompareTransitive(x, s[0], s[j], key); }
    }
    var r := [x] + s;
    forall i, j | 0 <= i < j < |r| ensures RowCompare(r[i], r[j], key) <= 0.0 {
      assert r[j] == s[j - 1];
      if i > 0 { assert r[i] == s[i - 1]; }
    }
  }

  /** A head that compares at most equal to every other row keeps the order. */
  lemma ConsSorted(y: TableRow, rest: seq<TableRow>, key: SortKey)
    requires Sorted(rest, key)
    requires forall j :: 0 <= j < |rest| ==> RowCompare(y, rest[j], key) <= 0.0
    ensures Sorted([y] + rest, key)
  {
    var r := [y] + rest;
    forall i, j | 0 <= i < j < |r| ensures RowCompare(r[i], r[j], key) <= 0.0 {
      assert r[j] == rest[j - 1];
      if i > 0 { assert r[i] == rest[i - 1]; }
    }
  }

  lemma {:induction false} InsertSorted(x: TableRow, s: seq<TableRow>, key: SortKey)
    requires Sorted(s, key)
    ensures Sorted(Insert(x, s, key), key)
  {
    if s == [] {
    } else if RowCompare(x, s[0], key) < 0.0 {
      InsertFront(x, s, key);
    } else {
      CompareAntisymmetric(x, s[0], key);
      assert Sorted(s[1..], key) by {
        forall i, j | 0 <= i < j < |s[1..]| ensures RowCompare(s[1..][i], s[1..][j], key) <= 0.0 {
          assert s[1..][i] == s[i + 1] && s[1..][j] == s[j + 1];
        }
      }
      InsertSorted(x, s[1..], key);
      var rest := Insert(x, s[1..], key);
      forall j | 0 <= j < |rest| ensures RowCompare(s[0], rest[j], key) <= 0.0 {
        assert rest[j] in multiset(rest);
        assert rest[j] == x || rest[j] in multiset(s[1..]);
        if rest[j] != x {
          var k :| 0 <= k < |s[1..]| && s[1..][k] == rest[j];
          assert s[k + 1] == rest[j];
        }
      }
      ConsSorted(s[0], rest, key);
    }
  }

  /** `[...rows].sort(comparator)`: a sorted permutation of the input. */
  function SortRows(s: seq<TableRow>, key: SortKey): (r: seq<TableRow>)
    ensures multiset(r) == multiset(s)
    ensures |r| == |s|
    ensures Sorted(r, key)
  {
    if s == [] then []
    else
      var init := s[..|s| - 1];
      assert s == init + [s[|s| - 1]];
      var sorted := SortRows(init, key);
      InsertSorted(s[|s| - 1], sorted, key);
      Insert(s[|s| - 1], sorted, key)
  }

  /** On a numeric column, ascending order is non-decreasing and descending
      order non-increasing. */
  lemma NumericOrder(r: seq<TableRow>, field: SortField)
    requires IsNumeric(field)
    ensures Sorted(r, SortKey(field, Asc)) ==> forall i, j :: 0 <= i < j < |r| ==> FieldValue(r[i], field).n <= FieldValue(r[j], field).n
    ensures Sorted(r, SortKey(field, Desc)) ==> forall i, j :: 0 <= i < j < |r| ==> FieldValue(r[i], field).n >= FieldValue(r[j], field).n
  {
    if Sorted(r, SortKey(field, Asc)) {
      forall i, j | 0 <= i < j < |r| ensures FieldValue(r[i], field).n <= FieldValue(r[j], field).n {
        assert RowCompare(r[i], r[j], SortKey(field, Asc)) <= 0.0;
      }
    }
    if Sorted(r, SortKey(field, Desc)) {
      forall i, j | 0 <= i < j < |r| ensures FieldValue(r[i], field).n >= FieldValue(r[j], field).n {
        assert RowCompare(r[i], r[j], SortKey(field, Desc)) <= 0.0;
      }
    }
  }

  function Reverse<T>(s: seq<T>): (r: seq<T>)
    ensures |r| == |s|
    ensures forall i :: 0 <= i < |s| ==> r[i] == s[|s| - 1 - i]
  {
    if s == [] then [] else Reverse(s[1..]) + [s[0]]
  }

  /** Reversing an ascending order gives a descending order of the same rows. */
  lemma ReverseAscendingIsDescending(s: seq<TableRow>, field: SortField)
    requires Sorted(s, SortKey(field, Asc))
    ensures Sorted(Reverse(s), SortKey(field, Desc))
    ensures multiset(Reverse(s)) == multiset(s)
  {
    ReverseSorted(s, field);
    ReverseMultiset(s);
  }

  lemma ReverseSorted(s: seq<TableRow>, field: SortField)
    requires Sorted(s, SortKey(field, Asc))
    ensures Sorted(Reverse(s), SortKey(field, Desc))
  {
    var down := Reverse(s);
    forall i, j | 0 <= i < j < |down| ensures RowCompare(down[i], down[j], SortKey(field, Desc)) <= 0.0 {
      DescendingSwaps(down[i], down[j], field);
      assert down[i] == s[|s| - 1 - i] && down[j] == s[|s| - 1 - j];
    }
  }

  lemma DescendingSwaps(a: TableRow, b: TableRow, field: SortField)
    ensures RowCompare(a, b, SortKey(field, Desc)) == RowCompare(b, a, SortKey(field, Asc))
  {
  }

  lemma {:induction false} ReverseMultiset<T>(s: seq<T>)
    ensures multiset(Reverse(s)) == multiset(s)
  {
    if s != [] {
      ReverseMultiset(s[1..]);
      assert s == [s[0]] + s[1..];
    }
  }

  /** Among the seed rows exactly 1, 2, 5 and 6 are active. */
  lemma FixtureActive()
    ensures var d := CampaignTableData();
            StatusFiltered(d, OnlyStatus(Active)) == [d[0], d[1], d[4], d[5]]
    ensures Ids(StatusFiltered(CampaignTableData(), OnlyStatus(Active))) == ["1", "2", "5", "6"]
  {
    var d := CampaignTableData();
    ActiveOfSix(d);
    IdsOfFour(d[0], d[1], d[4], d[5]);
  }

  /** Six rows of which the third and fourth are not active. */
  lemma ActiveOfSix(d: seq<TableRow>)
    requires |d| == 6 && d[2].status != Active && d[3].status != Active
    requires d[0].status == Active && d[1].status == Active
    requires d[4].status == Active && d[5].status == Active
    ensures StatusFiltered(d, OnlyStatus(Active)) == [d[0], d[1], d[4], d[5]]
  {
    var p := (r: TableRow) => ShowsStatus(OnlyStatus(Active), r);
    assert Filter(d[5..], p) == [d[5]] by { assert d[5..][1..] == []; }
    assert d[4..][1..] == d[5..];
    assert Filter(d[4..], p) == [d[4], d[5]];
    assert d[3..][1..] == d[4..];
    assert Filter(d[3..], p) == [d[4], d[5]];
    assert d[2..][1..] == d[3..];
    assert Filter(d[2..], p) == [d[4], d[5]];
    assert d[1..][1..] == d[2..];
    assert Filter(d[1..], p) == [d[1], d[4], d[5]];
    assert d[0..] == d;
  }

  /** Sorting the active seed rows by cost, highest first, gives 6, 1, 2, 5. */
  lemma FixtureActiveByCostDescending()
    ensures Ids(SortRows(StatusFiltered(CampaignTableData(), OnlyStatus(Active)), SortKey(Cost, Desc))) == ["6", "1", "2", "5"]
  {
    FixtureActive();
    var d := CampaignTableData();
    SortFourByCostDescending(d[0], d[1], d[4], d[5]);
    IdsOfFour(d[5], d[0], d[1], d[4]);
  }

  lemma IdsOfFour(a: TableRow, b: TableRow, c: TableRow, e: TableRow)
    ensures Ids([a, b, c, e]) == [a.id, b.id, c.id, e.id]
  {
  }

  lemma SortFourByCostDescending(a: TableRow, b: TableRow, c: TableRow, e: TableRow)
    requires e.cost > a.cost > b.cost > c.cost
    ensures SortRows([a, b, c, e], SortKey(Cost, Desc)) == [e, a, b, c]
  {
    SortFour(a, b, c, e, SortKey(Cost, Desc));
  }

  /** Rows given in order, then one that goes before them all. */
  lemma SortFour(a: TableRow, b: TableRow, c: TableRow, e: TableRow, key: SortKey)
    requires RowCompare(b, a, key) >= 0.0 && RowCompare(c, a, key) >= 0.0
    requires RowCompare(c, b, key) >= 0.0 && RowCompare(e, a, key) < 0.0
    ensures SortRows([a, b, c, e], key) == [e, a, b, c]
  {
    SortRowsLast([a, b, c], e, key);
    AppendToThree(a, b, c, e);
    SortThree(a, b, c, key);
    InsertFirst(e, [a, b, c], key);
    PrependThree(e, a, b, c);
  }

  lemma InsertFirst(x: TableRow, s: seq<TableRow>, key: SortKey)
    requires s != [] && RowCompare(x, s[0], key) < 0.0
    ensures Insert(x, s, key) == [x] + s
  {
  }

  lemma PrependThree<T>(x: T, a: T, b: T, c: T)
    ensures [x] + [a, b, c] == [x, a, b, c]
  {
  }

  lemma SortThree(a: TableRow, b: TableRow, c: TableRow, key: SortKey)
    requires RowCompare(b, a, key) >= 0.0 && RowCompare(c, a, key) >= 0.0
    requires RowCompare(c, b, key) >= 0.0
    ensures SortRows([a, b, c], key) == [a, b, c]
  {
    SortRowsLast([a, b], c, key);
    AppendToTwo(a, b, c);
    SortTwo(a, b, key);
    InsertLastOfThree(c, a, b, key);
  }

  lemma SortTwo(a: TableRow, b: TableRow, key: SortKey)
    requires RowCompare(b, a, key) >= 0.0
    ensures SortRows([a, b], key) == [a, b]
  {
    SortRowsLast([a], b, key);
    assert [a] + [b] == [a, b];
    SortRowsLast([], a, key);
    assert [] + [a] == [a];
    InsertLastOfTwo(b, a, key);
  }

  lemma InsertLastOfTwo(x: TableRow, y: TableRow, key: SortKey)
    requires RowCompare(x, y, key) >= 0.0
    ensures Insert(x, [y], key) == [y, x]
  {
    assert [y][1..] == [];
  }

  lemma InsertLastOfThree(x: TableRow, y: TableRow, z: TableRow, key: SortKey)
    requires RowCompare(x, y, key) >= 0.0 && RowCompare(x, z, key) >= 0.0
    ensures Insert(x, [y, z], key) == [y, z, x]
  {
    InsertAfterFirst(x, [y, z], key);
    assert [y, z][1..] == [z];
    InsertLastOfTwo(x, z, key);
    PrependTwo(y, z, x);
  }

  lemma InsertAfterFirst(x: TableRow, s: seq<TableRow>, key: SortKey)
    requires s != [] && RowCompare(x, s[0], key) >= 0.0
    ensures Insert(x, s, key) == [s[0]] + Insert(x, s[1..], key)
  {
  }

  lemma PrependTwo<T>(x: T, a: T, b: T)
    ensures [x] + [a, b] == [x, a, b]
  {
  }

  lemma AppendToThree<T>(a: T, b: T, c: T, x: T)
    ensures [a, b, c] + [x] == [a, b, c, x]
  {
  }

  lemma AppendToTwo<T>(a: T, b: T, x: T)
    ensures [a, b] + [x] == [a, b, x]
  {
  }

  /** Sorting adds the last row to the sorted rows before it. */
  lemma SortRowsLast(init: seq<TableRow>, x: TableRow, key: SortKey)
    ensures SortRows(init + [x], key) == Insert(x, SortRows(init, key), key)
  {
    var s := init + [x];
    assert s[..|s| - 1] == init;
  }

  // --------------------------------------------------------------- pagination

  const ItemsPerPage: nat := 5

  /** `Math.ceil(n / 5)`: the fewest pages of five that hold n rows. */
  function TotalPages(n: nat): (pages: nat)
    ensures pages * ItemsPerPage >= n
    ensures pages > 0 ==> (pages - 1) * ItemsPerPage < n
    ensures pages == 0 <==> n == 0
  {
    (n + ItemsPerPage - 1) / ItemsPerPage
  }

  function StartIndex(page: int): int
  {
    (page - 1) * ItemsPerPage
  }

  /** A `slice` index: negative counts from the end, then clipped to [0, n]. */
  function SliceIndex(i: int, n: nat): (k: nat)
    ensures k <= n
  {
    if i < 0 then (if n + i < 0 then 0 else n + i) else if i > n then n else i
  }

  /** `Array.prototype.slice(start, end)`. */
  function Slice<T>(s: seq<T>, start: int, end: int): seq<T>
  {
    var a, b := SliceIndex(start, |s|), SliceIndex(end, |s|);
    if a < b then s[a..b] else []
  }

  function Min(a: int, b: int): int
  {
    if a < b then a else b
  }

  function Max(a: int, b: int): int
  {
    if a > b then a else b
  }

  /** The rows shown on a page: at most five, all of them rows of the data. */
  function Page(s: seq<TableRow>, page: int): (rows: seq<TableRow>)
    ensures |rows| <= ItemsPerPage
    ensures forall i :: 0 <= i < |rows| ==> rows[i] in s
  {
    Slice(s, StartIndex(page), StartIndex(page) + ItemsPerPage)
  }

  /** Page p (from 1) holds exactly the rows at [(p-1)*5, min(p*5, n)): at
      most five, and at least one when p is at most the page count. */
  lemma PageContents(s: seq<TableRow>, page: int)
    requires page >= 1
    ensures var lo := Min(StartIndex(page), |s|);
            Page(s, page) == s[lo..Min(page * ItemsPerPage, |s|)]
    ensures |Page(s, page)| <= ItemsPerPage
    ensures page <= TotalPages(|s|) ==> |Page(s, page)| > 0
  {
  }

  /** The first k pages together. */
  function Pages(s: seq<TableRow>, k: nat): seq<TableRow>
  {
    if k == 0 then [] else Pages(s, k - 1) + Page(s, k)
  }

  lemma {:induction false} PagesPrefix(s: seq<TableRow>, k: nat)
    ensures Pages(s, k) == s[..Min(k * ItemsPerPage, |s|)]
  {
    if k > 0 {
      PagesPrefix(s, k - 1);
      PageContents(s, k);
      var a, b := Min((k - 1) * ItemsPerPage, |s|), Min(k * ItemsPerPage, |s|);
      assert s[..a] + s[a..b] == s[..b];
    }
  }

  /** Pages 1 to the page count, laid end to end, give back every row. */
  lemma PagesCoverAll(s: seq<TableRow>)
    ensures Pages(s, TotalPages(|s|)) == s
  {
    PagesPrefix(s, TotalPages(|s|));
  }

  /** "Showing X to Y of N": on a page that exists, X..Y numbers exactly the
      rows shown. */
  lemma ShowingBounds(s: seq<TableRow>, page: int)
    requires 1 <= page <= TotalPages(|s|)
    ensures var from, to := StartIndex(page) + 1, Min(StartIndex(page) + ItemsPerPage, |s|);
            1 <= from <= to <= |s| && to - from + 1 == |Page(s, page)|
  {
    PageContents(s, page);
  }

  // ------------------------------------------------------- page buttons

  /** Previous: `Math.max(prev - 1, 1)`. */
  function PreviousPage(current: int): (p: int)
    ensures p >= 1
    ensures current > 1 ==> p == current - 1
    ensures current <= 1 ==> p == 1
  {
    Max(current - 1, 1)
  }

  /** Next as the source writes it: `Math.min(prev + 1, totalPages)`. */
  function NextPageAsWritten(current: int, total: nat): (p: int)
    ensures p <= total
    ensures current < total ==> p == current + 1
    ensures current >= 1 ==> (p < 1 <==> total == 0)
    ensures current >= total ==> p == total
  {
    Min(current + 1, total)
  }

  /** With no rows there are no pages, the Next button is enabled
      (`currentPage === totalPages` is `1 === 0`), and pressing it moves to
      page 0, where the footer reads "Showing -4 to 0 of 0 results". */
  lemma NextPageAsWrittenLeavesRange()
    ensures TotalPages(0) == 0
    ensures NextPageAsWritten(1, TotalPages(0)) == 0
    ensures StartIndex(NextPageAsWritten(1, TotalPages(0))) + 1 == -4
  {
  }

  /** Next, kept at page 1 or later: advances by one up to the last page. */
  function NextPage(current: int, total: nat): (p: int)
    ensures current >= 1 ==> 1 <= p && p <= Max(current, Max(total, 1))
    ensures 1 <= current < total ==> p == current + 1
    ensures 1 <= total <= current ==> p == total
    ensures total == 0 ==> p == 1
  {
    Max(Min(current + 1, total), 1)
  }

  // -------------------------------------------------------------- sort state

  /** `handleSort`: the same column flips the direction, a new column sorts
      ascending by it. */
  function NextSort(key: SortKey, field: SortField): (k: SortKey)
    ensures k.field == field
    ensures field == key.field ==> k.dir != key.dir
    ensures field != key.field ==> k.dir == Asc
  {
    if field == key.field then SortKey(field, if key.dir == Asc then Desc else Asc)
    else SortKey(field, Asc)
  }

  /** Clicking a column twice returns to the sort one started from when it was
      the current column, and to descending order by it otherwise. */
  lemma HandleSortTwice(key: SortKey, field: SortField)
    ensures field == key.field ==> NextSort(NextSort(key, field), field) == key
    ensures field != key.field ==> NextSort(NextSort(key, field), field) == SortKey(field, Desc)
  {
  }

  /** The table's state: the rows handed over by the advanced filters, the
      dropdown value, the sort and the current page. */
  class TableState {
    var filteredData: seq<TableRow>
    var statusFilter: StatusChoice
    var sortKey: SortKey
    var currentPage: int

    ghost predicate Valid()
      reads this
    {
      currentPage >= 1
    }

    constructor (data: seq<TableRow>)
      ensures Valid()
      ensures filteredData == data && statusFilter == AllStatuses
      ensures sortKey == SortKey(Campaign, Asc) && currentPage == 1
    {
      filteredData := data;
      statusFilter := AllStatuses;
      sortKey := SortKey(Campaign, Asc);
      currentPage := 1;
    }

    function StatusFilteredData(): seq<TableRow>
      reads this
    {
      StatusFiltered(filteredData, statusFilter)
    }

    function SortedData(): seq<TableRow>
      reads this
    {
      SortRows(StatusFilteredData(), sortKey)
    }

    function PaginatedData(): seq<TableRow>
      reads this
    {
      Page(SortedData(), currentPage)
    }

    function PageCount(): nat
      reads this
    {
      TotalPages(|SortedData()|)
    }

    /** The export button gets the dropdown's rows in filter order, not the
        sorted order; they are the same rows as the sorted ones. */
    function ExportData(): (rows: seq<TableRow>)
      reads this
      ensures multiset(rows) == multiset(SortedData())
    {
      StatusFilteredData()
    }

    method SetFilteredData(rows: seq<TableRow>)
      modifies this
      ensures filteredData == rows
      ensures statusFilter == old(statusFilter) && sortKey == old(sortKey) && currentPage == old(currentPage)
    {
      filteredData := rows;
    }

    method SetStatusFilter(choice: StatusChoice)
      modifies this
      ensures statusFilter == choice
      ensures filteredData == old(filteredData) && sortKey == old(sortKey) && currentPage == old(currentPage)
    {
      statusFilter := choice;
    }

    method HandleSort(field: SortField)
      modifies this
      ensures sortKey == NextSort(old(sortKey), field)
      ensures filteredData == old(filteredData) && statusFilter == old(statusFilter) && currentPage == old(currentPage)
    {
      if field == sortKey.field {
        sortKey := sortKey.(dir := if sortKey.dir == Asc then Desc else Asc);
      } else {
        sortKey := SortKey(field, Asc);
      }
    }

    /** A numbered page button: the buttons are numbered 1 to the page count. */
    method GoToPage(page: int)
      requires 1 <= page <= PageCount()
      modifies this
      ensures Valid() && currentPage == page
      ensures filteredData == old(filteredData) && statusFilter == old(statusFilter) && sortKey == old(sortKey)
    {
      currentPage := page;
    }

    method Previous()
      modifies this
      ensures Valid() && currentPage == PreviousPage(old(currentPage))
      ensures filteredData == old(filteredData) && statusFilter == old(statusFilter) && sortKey == old(sortKey)
    {
      currentPage := Max(currentPage - 1, 1);
    }

    /** Next, with the page kept at 1 or later (see `NextPageAsWritten`). */
    method Next()
      requires Valid()
      modifies this
      ensures Valid() && currentPage == NextPage(old(currentPage), old(PageCount()))
      ensures currentPage <= Max(old(currentPage), Max(PageCount(), 1))
      ensures filteredData == old(filteredData) && statusFilter == old(statusFilter) && sortKey == old(sortKey)
    {
      currentPage := Max(Min(currentPage + 1, PageCount()), 1);
    }
  }
}
