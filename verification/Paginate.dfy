/** Sorting and paging an immutable snapshot, by offset or by a cursor that names the last row seen. */
module Paginate {
  import opened Base
  import opened Gathering
  import opened Sorting
  import opened Strings

  datatype Row = Row(normalizedText: string, text: string, avgMonthlySearches: Option<real>, competitionIndex: Option<real>,
                     cpcLow: Option<real>, cpcHigh: Option<real>)

  datatype Field = AvgMonthlySearches | CompetitionIndex | CpcLow | CpcHigh | Text

  datatype Dir = Asc | Desc

  /** The cursor's encoding. All the paging relies on is that decoding undoes encoding. */
  datatype Codec = Codec(encode: string -> string, decode: string -> Option<string>)

  ghost predicate RoundTrips(codec: Codec) {
    forall s :: codec.decode(codec.encode(s)) == Some(s)
  }

  function Value(r: Row, field: Field): Option<real>
    requires !field.Text?
  {
    match field
    case AvgMonthlySearches => r.avgMonthlySearches
    case CompetitionIndex => r.competitionIndex
    case CpcLow => r.cpcLow
    case CpcHigh => r.cpcHigh
  }

  /** Negative, zero or positive; a missing value goes last in either direction. */
  function CompareField(a: Row, b: Row, field: Field, dir: Dir): real {
    var sign := if dir.Asc? then 1.0 else -1.0;
    if field.Text? then (if StrLt(a.text, b.text) then -sign else if StrLt(b.text, a.text) then sign else 0.0)
    else
      var av, bv := Value(a, field), Value(b, field);
      if av.None? && bv.None? then 0.0
      else if av.None? then 1.0
      else if bv.None? then -1.0
      else if dir.Asc? then av.value - bv.value else bv.value - av.value
  }

  /** The comparator: ties go by normalised text, and two rows with the same one never compare as equal. */
  function Compare(a: Row, b: Row, field: Field, dir: Dir): real {
    var primary := CompareField(a, b, field, dir);
    if primary != 0.0 then primary
    else if StrLt(a.normalizedText, b.normalizedText) then -1.0 else 1.0
  }

  function NotAfter(field: Field, dir: Dir): (Row, Row) -> bool {
    (a: Row, b: Row) => a == b || Compare(a, b, field, dir) < 0.0
  }

  function SortRows(rows: seq<Row>, field: Field, dir: Dir): (r: seq<Row>)
    ensures multiset(r) == multiset(rows) && |r| == |rows|
  {
    Sort(NotAfter(field, dir), rows)
  }

  datatype At = Cursor(cursor: string) | Page(page: int) | Unspecified

  datatype PageResult = PageResult(rows: seq<Row>, total: nat, page: nat, pageSize: nat, cursor: Option<string>)

  function Max(a: int, b: int): int { if a > b then a else b }

  function PageSize(size: Option<int>): (r: nat)
    ensures r >= 1
  {
    Max(1, if size.Some? then size.value else 50)
  }

  /** The first row with this normalised text, or nothing. */
  function FindIndex(rows: seq<Row>, nt: string): (r: Option<nat>)
    ensures r.Some? ==> r.value < |rows| && rows[r.value].normalizedText == nt
    ensures r.None? ==> forall i :: 0 <= i < |rows| ==> rows[i].normalizedText != nt
  {
    if rows == [] then None
    else if rows[0].normalizedText == nt then Some(0)
    else
      var rest := FindIndex(rows[1..], nt);
      assert forall i :: 1 <= i < |rows| ==> rows[i] == rows[1..][i - 1];
      if rest.Some? then Some(rest.value + 1) else None
  }

  function Slice<T>(s: seq<T>, from: nat, size: nat): seq<T> {
    if from >= |s| then [] else if from + size >= |s| then s[from..] else s[from..from + size]
  }

  /** Where the page after `k` full pages starts. */
  function Offset(k: nat, pageSize: nat): nat {
    k * pageSize
  }

  function PageNumber(start: nat, pageSize: nat): nat
    requires pageSize >= 1
  {
    start / pageSize + 1
  }

  /** The row after the one the cursor names; past the end for a cursor that names none. */
  function CursorStart(sorted: seq<Row>, cursor: string, codec: Codec): (r: nat)
    ensures r <= |sorted|
  {
    var nt := codec.decode(cursor);
    var idx := if nt.Some? then FindIndex(sorted, nt.value) else None;
    if idx.Some? then idx.value + 1 else |sorted|
  }

  function SelectFrom(sorted: seq<Row>, at: At, pageSize: nat, codec: Codec): PageResult
    requires pageSize >= 1
  {
    if at.Cursor? then
      var start := CursorStart(sorted, at.cursor, codec);
      PageFrom(sorted, start, PageNumber(start, pageSize), pageSize, codec)
    else
      var pageNum := Max(1, if at.Page? then at.page else 1);
      PageFrom(sorted, Offset(pageNum - 1, pageSize), pageNum, pageSize, codec)
  }

  function SelectPage(rows: seq<Row>, field: Field, dir: Dir, at: At, size: Option<int>, codec: Codec): PageResult {
    SelectFrom(SortRows(rows, field, dir), at, PageSize(size), codec)
  }

  function PageFrom(sorted: seq<Row>, start: nat, pageNum: nat, pageSize: nat, codec: Codec): PageResult {
    var pageRows := Slice(sorted, start, pageSize);
    PageResult(pageRows, |sorted|, pageNum, pageSize,
               if pageRows != [] && start + |pageRows| < |sorted| then Some(codec.encode(Last(pageRows).normalizedText)) else None)
  }

  // ---------------------------------------------------------------- the order is total

  ghost predicate UniqueTexts(rows: seq<Row>) {
    forall i, j :: 0 <= i < j < |rows| ==> rows[i].normalizedText != rows[j].normalizedText
  }

  lemma CompareFieldOrders(a: Row, b: Row, c: Row, field: Field, dir: Dir)
    ensures CompareField(a, b, field, dir) < 0.0 <==> CompareField(b, a, field, dir) > 0.0
    ensures CompareField(a, b, field, dir) <= 0.0 && CompareField(b, c, field, dir) <= 0.0 ==> CompareField(a, c, field, dir) <= 0.0
    ensures CompareField(a, b, field, dir) <= 0.0 && CompareField(b, c, field, dir) <= 0.0 && CompareField(a, c, field, dir) == 0.0
      ==> CompareField(a, b, field, dir) == 0.0 && CompareField(b, c, field, dir) == 0.0
  {
    if field.Text? {
      StrOrders(a.text, b.text, c.text);
      StrOrders(c.text, b.text, a.text);
    }
  }

  lemma CompareTrans(a: Row, b: Row, c: Row, field: Field, dir: Dir)
    requires Compare(a, b, field, dir) < 0.0 && Compare(b, c, field, dir) < 0.0
    ensures Compare(a, c, field, dir) < 0.0
  {
    CompareFieldOrders(a, b, c, field, dir);
    StrOrders(a.normalizedText, b.normalizedText, c.normalizedText);
  }

  /** On rows with distinct normalised texts the comparator is a total order, in every field and direction. */
  lemma ComparatorIsTotal(rows: seq<Row>, field: Field, dir: Dir)
    requires UniqueTexts(rows)
    ensures OrderOn(NotAfter(field, dir), rows)
  {
    var le := NotAfter(field, dir);
    forall x, y | x in rows && y in rows
      ensures le(x, y) || le(y, x)
      ensures le(x, y) && le(y, x) ==> x == y
    {
      var i :| 0 <= i < |rows| && rows[i] == x;
      var j :| 0 <= j < |rows| && rows[j] == y;
      CompareFieldOrders(x, y, y, field, dir);
      CompareFieldOrders(y, x, x, field, dir);
      StrOrders(x.normalizedText, y.normalizedText, y.normalizedText);
      assert x.normalizedText == y.normalizedText ==> i == j;
    }
    forall x, y, z | x in rows && y in rows && z in rows && le(x, y) && le(y, z) ensures le(x, z) {
      if x != y && y != z { CompareTrans(x, y, z, field, dir); }
    }
  }

  /** Any comparison sort ends in this sequence, from any arrangement of the rows. */
  lemma SortIsCanonical(rows: seq<Row>, shuffled: seq<Row>, field: Field, dir: Dir)
    requires UniqueTexts(rows) && multiset(rows) == multiset(shuffled)
    ensures SortRows(rows, field, dir) == SortRows(shuffled, field, dir)
    ensures Sorted(NotAfter(field, dir), SortRows(rows, field, dir))
    ensures forall t :: Sorted(NotAfter(field, dir), t) && multiset(t) == multiset(rows) ==> t == SortRows(rows, field, dir)
  {
    var le := NotAfter(field, dir);
    ComparatorIsTotal(rows, field, dir);
    SortOrderFree(le, rows, shuffled);
    forall t | Sorted(le, t) && multiset(t) == multiset(rows) ensures t == SortRows(rows, field, dir) {
      var s := SortRows(rows, field, dir);
      SameElements(s, rows);
      SortedUnique(le, s, t);
    }
  }

  /** Two values of a column in the asked direction, missing ones last in either. */
  predicate Before(v: Option<real>, w: Option<real>, dir: Dir) {
    v.Some? && (w.None? || match dir case Asc => v.value < w.value case Desc => v.value > w.value)
  }

  /** What a reader of the page sees: the asked column in the asked direction, ties by normalised text. */
  predicate InOrder(a: Row, b: Row, field: Field, dir: Dir) {
    match field
    case AvgMonthlySearches =>
      Before(a.avgMonthlySearches, b.avgMonthlySearches, dir) || (a.avgMonthlySearches == b.avgMonthlySearches && TextsAscend(a, b))
    case CompetitionIndex =>
      Before(a.competitionIndex, b.competitionIndex, dir) || (a.competitionIndex == b.competitionIndex && TextsAscend(a, b))
    case CpcLow => Before(a.cpcLow, b.cpcLow, dir) || (a.cpcLow == b.cpcLow && TextsAscend(a, b))
    case CpcHigh => Before(a.cpcHigh, b.cpcHigh, dir) || (a.cpcHigh == b.cpcHigh && TextsAscend(a, b))
    case Text =>
      || (match dir case Asc => StrLt(a.text, b.text) case Desc => StrLt(b.text, a.text))
      || (a.text == b.text && TextsAscend(a, b))
  }

  predicate TextsAscend(a: Row, b: Row) {
    StrLt(a.normalizedText, b.normalizedText)
  }

  lemma SortedMeaning(rows: seq<Row>, field: Field, dir: Dir, i: nat, j: nat)
    requires UniqueTexts(rows) && i < j < |rows|
    ensures InOrder(SortRows(rows, field, dir)[i], SortRows(rows, field, dir)[j], field, dir)
  {
    var sorted := SortRows(rows, field, dir);
    SortIsCanonical(rows, rows, field, dir);
    UniqueSorted(rows, sorted);
    assert NotAfter(field, dir)(sorted[i], sorted[j]) && sorted[i].normalizedText != sorted[j].normalizedText;
    BeforeMeans(sorted[i], sorted[j], field, dir);
  }

  lemma BeforeMeans(a: Row, b: Row, field: Field, dir: Dir)
    requires Compare(a, b, field, dir) < 0.0
    ensures InOrder(a, b, field, dir)
  {
    StrOrders(a.text, b.text, b.text);
  }

  // ---------------------------------------------------------------- what a page shows

  /** `size` rows from row number `start` on, as far as there are any, and a cursor for the last of them if more follow. */
  ghost predicate Shows(p: PageResult, sorted: seq<Row>, start: nat, size: nat, codec: Codec) {
    && p.total == |sorted| && p.pageSize == size
    && |p.rows| == (if start >= |sorted| then 0 else if size <= |sorted| - start then size else |sorted| - start)
    && (forall i :: 0 <= i < |p.rows| ==> p.rows[i] == sorted[start + i])
    && p.cursor == if p.rows != [] && start + |p.rows| < |sorted|
                   then Some(codec.encode(sorted[start + |p.rows| - 1].normalizedText)) else None
  }

  lemma PageFromShows(sorted: seq<Row>, start: nat, pageNum: nat, pageSize: nat, codec: Codec)
    requires pageSize >= 1
    ensures Shows(PageFrom(sorted, start, pageNum, pageSize, codec), sorted, start, pageSize, codec)
  {
  }

  /** The asked size, 50 when none is asked, never less than one. */
  lemma PageSizeIs(size: Option<int>)
    ensures PageSize(size) == if size.None? then 50 else if size.value < 1 then 1 else size.value
  {
  }

  /** By number: page `n` starts behind the `n - 1` pages before it; without a number, or with one below 1, it is the first page. */
  lemma PageByNumber(rows: seq<Row>, field: Field, dir: Dir, at: At, size: Option<int>, n: nat, codec: Codec)
    requires !at.Cursor? && n == (if at.Page? && at.page >= 1 then at.page else 1)
    ensures var p := SelectPage(rows, field, dir, at, size, codec);
      p.page == n && Shows(p, SortRows(rows, field, dir), (n - 1) * p.pageSize, PageSize(size), codec)
  {
    var sorted := SortRows(rows, field, dir);
    PageFromShows(sorted, Offset(n - 1, PageSize(size)), n, PageSize(size), codec);
  }

  /** By cursor: the page starts behind the first row of that normalised text, and is numbered by where it starts. */
  lemma PageByCursor(rows: seq<Row>, field: Field, dir: Dir, cursor: string, size: Option<int>, codec: Codec, i: nat)
    requires i < |rows| && codec.decode(cursor) == Some(SortRows(rows, field, dir)[i].normalizedText)
    requires forall k :: 0 <= k < i ==> SortRows(rows, field, dir)[k].normalizedText != SortRows(rows, field, dir)[i].normalizedText
    ensures var p := SelectPage(rows, field, dir, Cursor(cursor), size, codec);
      && Shows(p, SortRows(rows, field, dir), i + 1, PageSize(size), codec)
      && OnPage(i + 1, p.page, p.pageSize)
  {
    CursorPage(SortRows(rows, field, dir), cursor, PageSize(size), codec, i);
  }

  lemma CursorPage(sorted: seq<Row>, cursor: string, pageSize: nat, codec: Codec, i: nat)
    requires pageSize >= 1 && i < |sorted| && codec.decode(cursor) == Some(sorted[i].normalizedText)
    requires forall k :: 0 <= k < i ==> sorted[k].normalizedText != sorted[i].normalizedText
    ensures var p := SelectFrom(sorted, Cursor(cursor), pageSize, codec);
      Shows(p, sorted, i + 1, pageSize, codec) && OnPage(i + 1, p.page, p.pageSize)
  {
    FoundFirst(sorted, i);
    PageFromShows(sorted, i + 1, PageNumber(i + 1, pageSize), pageSize, codec);
    NumberIsPage(i + 1, pageSize);
  }

  /** Row number `start` lies on page `page`. */
  ghost predicate OnPage(start: nat, page: nat, pageSize: nat) {
    (page - 1) * pageSize <= start < page * pageSize
  }

  lemma NumberIsPage(start: nat, pageSize: nat)
    requires pageSize >= 1
    ensures OnPage(start, PageNumber(start, pageSize), pageSize)
  {
    var q := start / pageSize;
    assert q * pageSize + start % pageSize == start;
    assert (q + 1) * pageSize == q * pageSize + pageSize;
  }

  lemma {:induction false} FoundFirst(rows: seq<Row>, i: nat)
    requires i < |rows| && forall k :: 0 <= k < i ==> rows[k].normalizedText != rows[i].normalizedText
    ensures FindIndex(rows, rows[i].normalizedText) == Some(i)
  {
    if i > 0 {
      assert forall k :: 0 <= k < i - 1 ==> rows[1..][k] == rows[k + 1];
      FoundFirst(rows[1..], i - 1);
    }
  }

  /** The sort as asked: by monthly searches and descending unless asked otherwise. */
  datatype SortSpec = SortSpec(field: Option<Field>, dir: Option<Dir>)

  function Select(rows: seq<Row>, sort: SortSpec, at: At, size: Option<int>, codec: Codec): PageResult {
    SelectPage(rows, if sort.field.Some? then sort.field.value else AvgMonthlySearches, if sort.dir.Some? then sort.dir.value else Desc,
               at, size, codec)
  }

  /** A page of rows no sort was asked for: most searched first, rows without a number last. */
  lemma DefaultOrder(rows: seq<Row>, sort: SortSpec, at: At, size: Option<int>, codec: Codec, i: nat, j: nat)
    requires UniqueTexts(rows) && sort == SortSpec(None, None)
    requires i < j < |Select(rows, sort, at, size, codec).rows|
    ensures var a, b := Select(rows, sort, at, size, codec).rows[i], Select(rows, sort, at, size, codec).rows[j];
      var v, w := a.avgMonthlySearches, b.avgMonthlySearches;
      (v.Some? && (w.None? || v.value > w.value)) || (v == w && StrLt(a.normalizedText, b.normalizedText))
  {
    PageRowsInOrder(rows, AvgMonthlySearches, Desc, at, size, codec, i, j);
  }

  /** Any page, however it is asked for, shows its rows in the asked order. */
  lemma PageRowsInOrder(rows: seq<Row>, field: Field, dir: Dir, at: At, size: Option<int>, codec: Codec, i: nat, j: nat)
    requires UniqueTexts(rows) && i < j < |SelectPage(rows, field, dir, at, size, codec).rows|
    ensures var p := SelectPage(rows, field, dir, at, size, codec); InOrder(p.rows[i], p.rows[j], field, dir)
  {
    var start := SomePage(SortRows(rows, field, dir), at, PageSize(size), codec);
    ShownInOrder(SelectPage(rows, field, dir, at, size, codec), rows, field, dir, start, PageSize(size), codec, i, j);
  }

  lemma SomePage(sorted: seq<Row>, at: At, pageSize: nat, codec: Codec) returns (start: nat)
    requires pageSize >= 1
    ensures Shows(SelectFrom(sorted, at, pageSize, codec), sorted, start, pageSize, codec)
  {
    start := if at.Cursor? then CursorStart(sorted, at.cursor, codec) else Offset(Max(1, if at.Page? then at.page else 1) - 1, pageSize);
    PageFromShows(sorted, start, SelectFrom(sorted, at, pageSize, codec).page, pageSize, codec);
  }

  lemma ShownInOrder(p: PageResult, rows: seq<Row>, field: Field, dir: Dir, start: nat, size: nat, codec: Codec, i: nat, j: nat)
    requires UniqueTexts(rows) && Shows(p, SortRows(rows, field, dir), start, size, codec) && i < j < |p.rows|
    ensures InOrder(p.rows[i], p.rows[j], field, dir)
  {
    SortedMeaning(rows, field, dir, start + i, start + j);
  }

  /** Pages do not depend on the order the rows were stored in. */
  lemma PageIgnoresInputOrder(rows: seq<Row>, shuffled: seq<Row>, field: Field, dir: Dir, at: At, size: Option<int>, codec: Codec)
    requires UniqueTexts(rows) && multiset(rows) == multiset(shuffled)
    ensures SelectPage(rows, field, dir, at, size, codec) == SelectPage(shuffled, field, dir, at, size, codec)
  {
    SortIsCanonical(rows, shuffled, field, dir);
  }

  // ---------------------------------------------------------------- following cursors

  lemma UniqueSorted(rows: seq<Row>, sorted: seq<Row>)
    requires UniqueTexts(rows) && multiset(sorted) == multiset(rows)
    ensures UniqueTexts(sorted)
  {
    var key := (r: Row) => r.normalizedText;
    assert DistinctBy(key, rows);
    DistinctByPermutes(key, rows, sorted);
    forall i, j | 0 <= i < j < |sorted| ensures sorted[i].normalizedText != sorted[j].normalizedText {
      assert key(sorted[i]) != key(sorted[j]);
    }
  }

  lemma {:induction false} FoundWhere(rows: seq<Row>, i: nat)
    requires UniqueTexts(rows) && i < |rows|
    ensures FindIndex(rows, rows[i].normalizedText) == Some(i)
  {
    if i > 0 {
      assert rows[0].normalizedText != rows[i].normalizedText;
      FoundWhere(rows[1..], i - 1);
    }
  }

  /** The cursor of any row resumes exactly behind that row. */
  lemma CursorResumes(sorted: seq<Row>, pageSize: nat, codec: Codec, i: nat)
    requires pageSize >= 1 && UniqueTexts(sorted) && RoundTrips(codec) && i < |sorted|
    ensures SelectFrom(sorted, Cursor(codec.encode(sorted[i].normalizedText)), pageSize, codec)
         == PageFrom(sorted, i + 1, PageNumber(i + 1, pageSize), pageSize, codec)
  {
    FoundWhere(sorted, i);
  }

  /** A cursor that decodes to no row, or to nothing, is an empty page at the end. */
  lemma UnknownCursorEndsEmpty(rows: seq<Row>, field: Field, dir: Dir, cursor: string, size: Option<int>, codec: Codec)
    requires codec.decode(cursor).Some? ==> forall r :: r in rows ==> r.normalizedText != codec.decode(cursor).value
    ensures var p := SelectPage(rows, field, dir, Cursor(cursor), size, codec); p.rows == [] && p.cursor.None? && p.total == |rows|
  {
    SameElements(rows, SortRows(rows, field, dir));
  }

  /** Page number `k` of a walk that starts without a cursor and follows the cursors it is given. */
  function WalkPage(sorted: seq<Row>, pageSize: nat, codec: Codec, k: nat): Option<PageResult>
    requires pageSize >= 1
    decreases k
  {
    if k == 0 then Some(SelectFrom(sorted, Unspecified, pageSize, codec))
    else
      var before := WalkPage(sorted, pageSize, codec, k - 1);
      if before.Some? && before.value.cursor.Some?
      then Some(SelectFrom(sorted, Cursor(before.value.cursor.value), pageSize, codec))
      else None
  }

  function PageCount(total: nat, pageSize: nat): (n: nat)
    requires pageSize >= 1
    ensures n >= 1
  {
    Max(1, CeilDiv(total, pageSize))
  }

  lemma PageBounds(total: nat, pageSize: nat, k: nat)
    requires pageSize >= 1
    ensures k < PageCount(total, pageSize) <==> HasPage(total, pageSize, k)
  {
    var n := CeilDiv(total, pageSize);
    if k >= n { TimesMonotone(n, k, pageSize); }
    if k < n { TimesMonotone(k, n - 1, pageSize); }
    if n == 0 { assert n * pageSize == 0; }
  }

  lemma DivExact(k: nat, d: nat)
    requires d >= 1
    ensures k * d / d == k && k * d % d == 0
  {
    var q, m := k * d / d, k * d % d;
    assert q * d + m == k * d;
    assert (q - k) * d == -m;
    if q < k { TimesMonotone(q - k, -1, d); }
    if q > k { TimesMonotone(1, q - k, d); }
  }

  /** The page that starts at row k·pageSize. */
  function KthPage(sorted: seq<Row>, k: nat, pageSize: nat, codec: Codec): PageResult {
    PageFrom(sorted, Offset(k, pageSize), k + 1, pageSize, codec)
  }

  /** Whether the walk gets as far as page `k`. */
  predicate HasPage(total: nat, pageSize: nat, k: nat) {
    k == 0 || Offset(k, pageSize) < total
  }

  lemma NextOffset(k: nat, pageSize: nat)
    ensures Offset(k + 1, pageSize) == Offset(k, pageSize) + pageSize
  {
  }

  lemma EarlierPage(total: nat, pageSize: nat, k: nat)
    requires HasPage(total, pageSize, k + 1)
    ensures HasPage(total, pageSize, k)
  {
    NextOffset(k, pageSize);
  }

  /** A cursor is handed out exactly while there are rows left, and it names the row before the next page. */
  lemma KthPageCursor(sorted: seq<Row>, k: nat, pageSize: nat, codec: Codec)
    requires pageSize >= 1 && HasPage(|sorted|, pageSize, k)
    ensures KthPage(sorted, k, pageSize, codec).cursor.Some? <==> HasPage(|sorted|, pageSize, k + 1)
    ensures HasPage(|sorted|, pageSize, k + 1) ==>
      0 < Offset(k + 1, pageSize) < |sorted|
      && KthPage(sorted, k, pageSize, codec).cursor.value == codec.encode(sorted[Offset(k + 1, pageSize) - 1].normalizedText)
  {
    NextOffset(k, pageSize);
    CursorOf(sorted, Offset(k, pageSize), k + 1, pageSize, codec);
  }

  lemma CursorOf(sorted: seq<Row>, start: nat, pageNum: nat, pageSize: nat, codec: Codec)
    requires pageSize >= 1 && (start == 0 || start < |sorted|)
    ensures PageFrom(sorted, start, pageNum, pageSize, codec).cursor
         == if start + pageSize < |sorted| then Some(codec.encode(sorted[start + pageSize - 1].normalizedText)) else None
  {
  }

  lemma ResumedPage(sorted: seq<Row>, pageSize: nat, codec: Codec, k: nat)
    requires pageSize >= 1 && UniqueTexts(sorted) && RoundTrips(codec) && 0 < Offset(k, pageSize) < |sorted|
    ensures SelectFrom(sorted, Cursor(codec.encode(sorted[Offset(k, pageSize) - 1].normalizedText)), pageSize, codec)
         == KthPage(sorted, k, pageSize, codec)
  {
    CursorResumes(sorted, pageSize, codec, Offset(k, pageSize) - 1);
    DivExact(k, pageSize);
  }

  /** What page `k` of the walk is: the page at its offset, or nothing beyond the last. */
  ghost predicate IsKthPage(p: Option<PageResult>, sorted: seq<Row>, pageSize: nat, codec: Codec, k: nat) {
    p == if HasPage(|sorted|, pageSize, k) then Some(KthPage(sorted, k, pageSize, codec)) else None
  }

  lemma NextPage(sorted: seq<Row>, pageSize: nat, codec: Codec, k: nat)
    requires pageSize >= 1 && UniqueTexts(sorted) && RoundTrips(codec)
    requires IsKthPage(WalkPage(sorted, pageSize, codec, k), sorted, pageSize, codec, k)
    ensures IsKthPage(WalkPage(sorted, pageSize, codec, k + 1), sorted, pageSize, codec, k + 1)
  {
    if HasPage(|sorted|, pageSize, k) {
      KthPageCursor(sorted, k, pageSize, codec);
      if HasPage(|sorted|, pageSize, k + 1) { ResumedPage(sorted, pageSize, codec, k + 1); }
    } else if HasPage(|sorted|, pageSize, k + 1) {
      EarlierPage(|sorted|, pageSize, k);
    }
  }

  lemma {:induction false} WalkIsKthPages(sorted: seq<Row>, pageSize: nat, codec: Codec, k: nat)
    requires pageSize >= 1 && UniqueTexts(sorted) && RoundTrips(codec)
    ensures IsKthPage(WalkPage(sorted, pageSize, codec, k), sorted, pageSize, codec, k)
    decreases k
  {
    if k > 0 {
      WalkIsKthPages(sorted, pageSize, codec, k - 1);
      NextPage(sorted, pageSize, codec, k - 1);
    }
  }

  lemma WalkOnSorted(sorted: seq<Row>, pageSize: nat, codec: Codec, k: nat)
    requires pageSize >= 1 && UniqueTexts(sorted) && RoundTrips(codec)
    ensures var p := WalkPage(sorted, pageSize, codec, k);
      && (p.Some? <==> HasPage(|sorted|, pageSize, k))
      && (p.Some? ==> p.value == SelectFrom(sorted, Page(k + 1), pageSize, codec) && p.value.page == k + 1)
      && (p.Some? ==> (p.value.cursor.None? <==> !HasPage(|sorted|, pageSize, k + 1)))
  {
    WalkIsKthPages(sorted, pageSize, codec, k);
    if HasPage(|sorted|, pageSize, k) {
      KthPageCursor(sorted, k, pageSize, codec);
      OffsetPage(sorted, k, pageSize, codec);
    }
  }

  /**
   * Page k of the walk is page k of the paging by offset, with the same number and the same cursor; the walk has
   * max(1, ceil(total / pageSize)) pages and its last cursor is null.
   */
  lemma WalkIsOffsetPaging(rows: seq<Row>, field: Field, dir: Dir, size: Option<int>, codec: Codec, k: nat, n: nat)
    requires UniqueTexts(rows) && RoundTrips(codec) && n == PageCount(|rows|, PageSize(size))
    ensures var p := WalkPage(SortRows(rows, field, dir), PageSize(size), codec, k);
      && (p.Some? <==> k < n)
      && (k < n ==>
            && p.value == SelectPage(rows, field, dir, Page(k + 1), size, codec)
            && p.value.page == k + 1
            && (p.value.cursor.None? <==> k == n - 1))
  {
    var sorted, pageSize := SortRows(rows, field, dir), PageSize(size);
    UniqueSorted(rows, sorted);
    LastPage(|rows|, pageSize, k, n);
    WalkOnSorted(sorted, pageSize, codec, k);
    assert SelectPage(rows, field, dir, Page(k + 1), size, codec) == SelectFrom(sorted, Page(k + 1), pageSize, codec);
  }

  lemma LastPage(total: nat, pageSize: nat, k: nat, n: nat)
    requires pageSize >= 1 && n == PageCount(total, pageSize)
    ensures k < n <==> HasPage(total, pageSize, k)
    ensures k + 1 < n <==> HasPage(total, pageSize, k + 1)
  {
    PageBounds(total, pageSize, k);
    PageBounds(total, pageSize, k + 1);
  }

  lemma OffsetPage(sorted: seq<Row>, k: nat, pageSize: nat, codec: Codec)
    requires pageSize >= 1
    ensures SelectFrom(sorted, Page(k + 1), pageSize, codec) == KthPage(sorted, k, pageSize, codec)
    ensures KthPage(sorted, k, pageSize, codec).page == k + 1
  {
  }

  function WalkRows(sorted: seq<Row>, pageSize: nat, codec: Codec, k: nat): seq<Row>
    requires pageSize >= 1
    decreases k
  {
    if k == 0 then []
    else
      var p := WalkPage(sorted, pageSize, codec, k - 1);
      WalkRows(sorted, pageSize, codec, k - 1) + (if p.Some? then p.value.rows else [])
  }

  lemma KthPageExtends(sorted: seq<Row>, k: nat, pageSize: nat, codec: Codec)
    requires HasPage(|sorted|, pageSize, k)
    ensures Slice(sorted, 0, Offset(k, pageSize)) + KthPage(sorted, k, pageSize, codec).rows == Slice(sorted, 0, Offset(k + 1, pageSize))
  {
    NextOffset(k, pageSize);
    SliceExtends(sorted, Offset(k, pageSize), pageSize);
  }

  lemma MoreRows(sorted: seq<Row>, pageSize: nat, codec: Codec, k: nat)
    requires pageSize >= 1 && UniqueTexts(sorted) && RoundTrips(codec) && HasPage(|sorted|, pageSize, k)
    requires WalkRows(sorted, pageSize, codec, k) == Slice(sorted, 0, Offset(k, pageSize))
    ensures WalkRows(sorted, pageSize, codec, k + 1) == Slice(sorted, 0, Offset(k + 1, pageSize))
  {
    WalkIsKthPages(sorted, pageSize, codec, k);
    KthPageExtends(sorted, k, pageSize, codec);
  }

  lemma {:induction false} WalkRowsPrefix(sorted: seq<Row>, pageSize: nat, codec: Codec, k: nat)
    requires pageSize >= 1 && UniqueTexts(sorted) && RoundTrips(codec) && (k > 0 ==> HasPage(|sorted|, pageSize, k - 1))
    ensures WalkRows(sorted, pageSize, codec, k) == Slice(sorted, 0, Offset(k, pageSize))
    decreases k
  {
    if k > 0 {
      if k > 1 { EarlierPage(|sorted|, pageSize, k - 2); }
      WalkRowsPrefix(sorted, pageSize, codec, k - 1);
      MoreRows(sorted, pageSize, codec, k - 1);
    }
  }

  lemma SliceExtends<T>(s: seq<T>, m: nat, n: nat)
    requires m <= |s|
    ensures Slice(s, 0, m) + Slice(s, m, n) == Slice(s, 0, m + n)
  {
    assert m > 0 ==> Slice(s, 0, m) == s[..m];
  }

  /** Following the cursors to the end visits every row exactly once, in sorted order. */
  lemma WalkVisitsEveryRowOnce(rows: seq<Row>, field: Field, dir: Dir, size: Option<int>, codec: Codec)
    requires UniqueTexts(rows) && RoundTrips(codec)
    ensures var visited := WalkRows(SortRows(rows, field, dir), PageSize(size), codec, PageCount(|rows|, PageSize(size)));
      && visited == SortRows(rows, field, dir)
      && multiset(visited) == multiset(rows) && UniqueTexts(visited) && Sorted(NotAfter(field, dir), visited)
  {
    var sorted, n, pageSize := SortRows(rows, field, dir), PageCount(|rows|, PageSize(size)), PageSize(size);
    SortIsCanonical(rows, rows, field, dir);
    UniqueSorted(rows, sorted);
    PageBounds(|rows|, pageSize, n);
    PageBounds(|rows|, pageSize, n - 1);
    WalkRowsPrefix(sorted, pageSize, codec, n);
  }
}
