/** What a chart result says, told from the rows: which keys a row has, what a measure is, what is shown and what is refused. */
module AggregateMeaning {
  import opened Base
  import opened Gathering
  import opened Sorting
  import opened Strings
  import opened Aggregate
  import opened AggregateLaws

  // ---------------------------------------------------------------- the keys of a row

  function ScalarCount(items: seq<Option<Value>>): nat {
    if items == [] then 0 else ScalarCount(items[..|items| - 1]) + if Last(items).Some? then 1 else 0
  }

  /** The scalars of a list, in its order and as often as they occur. */
  ghost predicate ScalarsOf(values: seq<Value>, items: seq<Option<Value>>) {
    && |values| == ScalarCount(items)
    && forall i :: 0 <= i < |items| && items[i].Some? ==>
         ScalarCount(items[..i]) < |values| && values[ScalarCount(items[..i])] == items[i].value
  }

  /** What a row offers in a dimension; only a scalar, a list or a number offers anything, according to the dimension's kind. */
  ghost predicate Offers(row: Row, dim: Dimension, values: seq<Value>) {
    match dim
    case ByValue(_, field) => values == if field in row && row[field].One? then [row[field].v] else []
    case Explode(_, field) => if field in row && row[field].Many? then ScalarsOf(values, row[field].items) else values == []
    case Bucket(_, field, width) =>
      if field in row && row[field].One? && row[field].v.Num? then
        |values| == 1 && values[0].Num? && values[0].n <= row[field].v.n < values[0].n + width
        && exists k :: values[0].n == Times(k, width)
      else values == []
  }

  lemma {:induction false} SomesAre(items: seq<Option<Value>>)
    ensures ScalarsOf(Somes(items), items)
    decreases |items|
  {
    if items != [] {
      var front, last := items[..|items| - 1], Last(items);
      assert items == front + [last];
      SomesAre(front);
      SomesSnoc(front, last);
      forall i | 0 <= i < |items| && items[i].Some?
        ensures ScalarCount(items[..i]) < |Somes(items)| && Somes(items)[ScalarCount(items[..i])] == items[i].value
      {
        assert items[..i] == front[..i];
        if i == |front| { assert front[..i] == front; }
      }
    }
  }

  lemma {:induction false} SomesSnoc(items: seq<Option<Value>>, last: Option<Value>)
    ensures Somes(items + [last]) == Somes(items) + if last.Some? then [last.value] else []
  {
    if items == [] {
      assert items + [last] == [last] && [last][1..] == [];
    } else {
      assert (items + [last])[1..] == items[1..] + [last];
      SomesSnoc(items[1..], last);
      var one: seq<Value> := if last.Some? then [last.value] else [];
      var head: seq<Value> := if items[0].Some? then [items[0].value] else [];
      assert Somes(items + [last]) == head + Somes(items[1..] + [last]);
      assert Somes(items) == head + Somes(items[1..]);
      assert head + (Somes(items[1..]) + one) == (head + Somes(items[1..])) + one;
    }
  }

  /** A row's values in a dimension, number by number and text by text. */
  lemma DimensionOffers(row: Row, dim: Dimension)
    requires dim.Bucket? ==> dim.width > 0.0
    ensures Offers(row, dim, DimensionValues(row, dim))
  {
    if dim.field in row && row[dim.field].Many? { SomesAre(row[dim.field].items); }
  }

  lemma OneExtends(row: Row, d: Dimension)
    ensures Partials(row, [d]) == Extend(map[], d.name, DimensionValues(row, d))
  {
    var v := DimensionValues(row, d);
    assert [d][..0] == [] && Partials(row, []) == [map[]];
    assert Cross([map[]], d.name, v) == Extend(map[], d.name, v) + Cross([map[]][1..], d.name, v);
  }

  /** With one dimension a row has a key for each value it offers, in order. */
  lemma KeysOfOne(row: Row, d: Dimension)
    requires d.Bucket? ==> d.width > 0.0
    ensures exists v :: Offers(row, d, v) && |Partials(row, [d])| == |v|
                        && forall a :: 0 <= a < |v| ==> Partials(row, [d])[a] == map[d.name := v[a]]
  {
    var v := DimensionValues(row, d);
    DimensionOffers(row, d);
    OneExtends(row, d);
  }

  lemma {:induction false} CrossAt(keys: seq<Key>, name: string, values: seq<Value>, a: nat, b: nat)
    requires a < |keys| && b < |values|
    ensures a * |values| + b < |Cross(keys, name, values)| && Cross(keys, name, values)[a * |values| + b] == keys[a][name := values[b]]
  {
    if a > 0 {
      CrossAt(keys[1..], name, values, a - 1, b);
      assert a * |values| == |values| + (a - 1) * |values|;
    }
  }

  /** With two dimensions a row has a key for each pair, the first dimension's values in the outer order. */
  lemma KeysOfTwo(row: Row, d: Dimension, e: Dimension)
    requires (d.Bucket? ==> d.width > 0.0) && (e.Bucket? ==> e.width > 0.0)
    ensures exists v, w :: Offers(row, d, v) && Offers(row, e, w) && KeysAre(Partials(row, [d, e]), d, e, v, w)
  {
    var v, w := DimensionValues(row, d), DimensionValues(row, e);
    DimensionOffers(row, d);
    DimensionOffers(row, e);
    OneExtends(row, d);
    assert [d, e][..1] == [d];
    CrossPairs(Partials(row, [d]), d, e, v, w);
  }

  lemma CrossPairs(keys: seq<Key>, d: Dimension, e: Dimension, v: seq<Value>, w: seq<Value>)
    requires |keys| == |v| && forall a :: 0 <= a < |v| ==> keys[a] == map[d.name := v[a]]
    ensures KeysAre(Cross(keys, e.name, w), d, e, v, w)
  {
    CrossSize(keys, e.name, w);
    forall a, b | 0 <= a < |v| && 0 <= b < |w| ensures PairAt(Cross(keys, e.name, w), d, e, v, w, a, b) {
      CrossAt(keys, e.name, w, a, b);
    }
  }

  ghost predicate PairAt(keys: seq<Key>, d: Dimension, e: Dimension, v: seq<Value>, w: seq<Value>, a: nat, b: nat)
    requires a < |v| && b < |w|
  {
    a * |w| + b < |keys| && keys[a * |w| + b] == map[d.name := v[a]][e.name := w[b]]
  }

  ghost predicate KeysAre(keys: seq<Key>, d: Dimension, e: Dimension, v: seq<Value>, w: seq<Value>) {
    |keys| == |v| * |w| && forall a, b :: 0 <= a < |v| && 0 <= b < |w| ==> PairAt(keys, d, e, v, w, a, b)
  }

  /** The rows' units follow one another, a unit for each key of its row. */
  ghost predicate UnitsFollow(before: seq<Unit>, all: seq<Unit>, keys: seq<Key>, row: Row) {
    && |all| == |before| + |keys| && all[..|before|] == before
    && forall i :: 0 <= i < |keys| ==> all[|before| + i] == Unit(keys[i], row)
  }

  lemma UnitsSnoc(rows: seq<Row>, row: Row, dims: seq<Dimension>)
    ensures Units([], dims) == []
    ensures UnitsFollow(Units(rows, dims), Units(rows + [row], dims), Partials(row, dims), row)
  {
    GatherSnoc(UnitsFn(dims), rows, row);
    UnitsOfRow(Units(rows, dims), Partials(row, dims), row, UnitsFn(dims)(row));
  }

  lemma UnitsOfRow(before: seq<Unit>, keys: seq<Key>, row: Row, more: seq<Unit>)
    requires |more| == |keys| && forall i :: 0 <= i < |keys| ==> more[i] == Unit(keys[i], row)
    ensures UnitsFollow(before, before + more, keys, row)
  {
  }

  // ---------------------------------------------------------------- the rows of a group

  /** The text a key is grouped by: the JSON of its values in dimension order. */
  lemma KeyTextIs(key: Key, dims: seq<Dimension>, js: Js, values: seq<Option<Value>>)
    requires |values| == |dims|
    requires forall i :: 0 <= i < |dims| ==> values[i] == if dims[i].name in key then Some(key[dims[i].name]) else None
    ensures KeyText(key, dims, js) == js.json(values)
  {
    assert Tuple(key, dims) == values;
  }

  /** The rows of the units with one key text, in unit order. */
  ghost function RowsUnder(units: seq<Unit>, text: string, dims: seq<Dimension>, js: Js): seq<Row> {
    if units == [] then []
    else RowsUnder(units[..|units| - 1], text, dims, js) + if KeyText(Last(units).key, dims, js) == text then [Last(units).row] else []
  }

  ghost predicate SameRows(members: seq<Unit>, rows: seq<Row>) {
    |members| == |rows| && forall i :: 0 <= i < |rows| ==> members[i].row == rows[i]
  }

  lemma {:induction false} MembersRows(units: seq<Unit>, text: string, dims: seq<Dimension>, js: Js)
    ensures SameRows(Members(units, text, dims, js), RowsUnder(units, text, dims, js))
    decreases |units|
  {
    if units != [] {
      var front := units[..|units| - 1];
      assert units == front + [Last(units)];
      MembersRows(front, text, dims, js);
      GatherSnoc(MemberFn(text, dims, js), front, Last(units));
    }
  }

  // ---------------------------------------------------------------- what a measure is

  /** The numbers a field holds, in row order; anything else is passed over. */
  ghost function NumbersIn(rows: seq<Row>, field: string): seq<real> {
    if rows == [] then []
    else
      var last := Last(rows);
      NumbersIn(rows[..|rows| - 1], field) + if field in last && last[field].One? && last[field].v.Num? then [last[field].v.n] else []
  }

  ghost function SumOf(numbers: seq<real>): real {
    if numbers == [] then 0.0 else numbers[0] + SumOf(numbers[1..])
  }

  ghost predicate Ascending(s: seq<real>) {
    forall i, j :: 0 <= i < j < |s| ==> s[i] <= s[j]
  }

  /** The middle one, or the mean of the two middle ones. */
  ghost predicate Middle(m: real, s: seq<real>) {
    s != [] && m == if |s| % 2 == 1 then s[|s| / 2] else (s[|s| / 2 - 1] + s[|s| / 2]) / 2.0
  }

  ghost predicate NumberMeans(value: Option<real>, fn: Fn, numbers: seq<real>) {
    if fn.Sum? then value == Some(SumOf(numbers))
    else if numbers == [] then value.None?
    else value.Some? && match fn
      case Avg => value.value * |numbers| as real == SumOf(numbers)
      case Min => value.value in numbers && forall n :: n in numbers ==> value.value <= n
      case Max => value.value in numbers && forall n :: n in numbers ==> n <= value.value
      case Median => exists s :: multiset(s) == multiset(numbers) && Ascending(s) && Middle(value.value, s)
      case _ => false
  }

  /** The texts a field is written as over the rows, each once. */
  ghost predicate TextsOf(texts: set<string>, rows: seq<Row>, field: string, js: Js) {
    forall s :: s in texts <==> exists i :: 0 <= i < |rows| && s == js.show(if field in rows[i] then Some(rows[i][field]) else None)
  }

  ghost predicate DistinctIs(value: Option<real>, rows: seq<Row>, field: string, js: Js) {
    exists texts :: TextsOf(texts, rows, field, js) && value == Some(|texts| as real)
  }

  /** A measure of a group, over the group's rows. */
  ghost predicate Means(value: Option<real>, m: Measure, rows: seq<Row>, js: Js) {
    if m.fn.Count? then value == Some(|rows| as real)
    else if m.fn.CountDistinct? then DistinctIs(value, rows, if m.field.Some? then m.field.value else "normalizedText", js)
    else m.field.Some? && NumberMeans(value, m.fn, NumbersIn(rows, m.field.value))
  }

  lemma {:induction false} ValuesAre(members: seq<Unit>, rows: seq<Row>, field: string)
    requires SameRows(members, rows)
    ensures Values(members, field) == NumbersIn(rows, field)
    decreases |members|
  {
    if members != [] {
      var front := members[..|members| - 1];
      assert members == front + [Last(members)];
      ValuesAre(front, rows[..|rows| - 1], field);
      GatherSnoc(NumberFn(field), front, Last(members));
    }
  }

  lemma {:induction false} TotalIsSum(numbers: seq<real>)
    ensures Total(numbers) == SumOf(numbers)
    decreases |numbers|
  {
    if numbers != [] {
      assert numbers == [numbers[0]] + numbers[1..];
      TotalConcat([numbers[0]], numbers[1..]);
      assert [numbers[0]][..0] == [] && Total([numbers[0]]) == Total([]) + numbers[0];
      TotalIsSum(numbers[1..]);
    }
  }

  lemma MedianIsMiddle(numbers: seq<real>)
    requires numbers != []
    ensures exists s :: multiset(s) == multiset(numbers) && Ascending(s) && Middle(MedianOf(numbers), s)
  {
    var s := Sort(RealLe(), numbers);
    RealsOrdered(numbers);
    SortSorted(RealLe(), numbers);
    forall i, j | 0 <= i < j < |s| ensures s[i] <= s[j] { assert RealLe()(s[i], s[j]); }
    assert multiset(s) == multiset(numbers) && Ascending(s) && Middle(MedianOf(numbers), s);
  }

  lemma ReduceMeans(fn: Fn, numbers: seq<real>)
    requires !fn.Count? && !fn.CountDistinct?
    ensures NumberMeans(Reduce(fn, numbers), fn, numbers)
  {
    TotalIsSum(numbers);
    if numbers != [] {
      if fn.Median? { MedianIsMiddle(numbers); }
      if fn.Avg? { assert Total(numbers) / |numbers| as real * |numbers| as real == Total(numbers); }
    }
  }

  lemma DistinctMeans(members: seq<Unit>, rows: seq<Row>, field: string, js: Js)
    requires SameRows(members, rows)
    ensures DistinctIs(Some(|set u | u in members :: js.show(FieldOf(u.row, field))| as real), rows, field, js)
  {
    var texts := set u | u in members :: js.show(FieldOf(u.row, field));
    forall s ensures s in texts <==> exists i :: 0 <= i < |rows| && s == js.show(if field in rows[i] then Some(rows[i][field]) else None) {
      if s in texts {
        var u :| u in members && s == js.show(FieldOf(u.row, field));
        var i :| 0 <= i < |members| && members[i] == u;
        assert rows[i] == u.row;
      }
      if i :| 0 <= i < |rows| && s == js.show(if field in rows[i] then Some(rows[i][field]) else None) {
        assert members[i] in members && members[i].row == rows[i];
      }
    }
    assert TextsOf(texts, rows, field, js);
  }

  /**
   * count is the number of rows, countDistinct that of the texts the field is written as; sum, avg, min, max and median
   * are those of the numbers the field holds, the last four missing exactly when it holds none.
   */
  lemma MeasureMeaning(members: seq<Unit>, rows: seq<Row>, m: Measure, js: Js)
    requires SameRows(members, rows) && (m.field.None? ==> m.fn.Count? || m.fn.CountDistinct?)
    ensures Means(Compute(members, m, js), m, rows, js)
  {
    if m.fn.CountDistinct? {
      DistinctMeans(members, rows, if m.field.Some? then m.field.value else "normalizedText", js);
    } else if !m.fn.Count? {
      ValuesAre(members, rows, m.field.value);
      ReduceMeans(m.fn, NumbersIn(rows, m.field.value));
    }
  }

  // ---------------------------------------------------------------- what a group is

  /** The last measure of a name is the one shown under it. */
  ghost predicate Shown(measures: seq<Measure>, k: nat)
    requires k < |measures|
  {
    forall l :: k < l < |measures| ==> measures[l].name != measures[k].name
  }

  /** A group: the first key with its text, and every measure over the rows with that text. */
  ghost predicate GroupMeans(g: Group, units: seq<Unit>, spec: Spec, js: Js) {
    var text := KeyText(g.key, spec.dims, js);
    && (exists i :: 0 <= i < |units| && units[i].key == g.key
                    && forall k :: 0 <= k < i ==> KeyText(units[k].key, spec.dims, js) != text)
    && (forall name :: name in g.measures <==> exists k :: 0 <= k < |spec.measures| && spec.measures[k].name == name)
    && (forall k :: 0 <= k < |spec.measures| && Shown(spec.measures, k) ==>
          Means(g.measures[spec.measures[k].name], spec.measures[k], RowsUnder(units, text, spec.dims, js), js))
  }

  lemma {:induction false} FirstMember(units: seq<Unit>, text: string, dims: seq<Dimension>, js: Js) returns (i: nat)
    requires Members(units, text, dims, js) != []
    ensures i < |units| && units[i] == Members(units, text, dims, js)[0] && KeyText(units[i].key, dims, js) == text
    ensures forall k :: 0 <= k < i ==> KeyText(units[k].key, dims, js) != text
  {
    if KeyText(units[0].key, dims, js) == text {
      i := 0;
    } else {
      assert Members(units, text, dims, js) == Members(units[1..], text, dims, js);
      i := FirstMember(units[1..], text, dims, js);
      i := i + 1;
    }
  }

  lemma {:induction false} LastNamedIs(measures: seq<Measure>, name: string)
    ensures LastNamed(measures, name).Some? <==> exists k :: 0 <= k < |measures| && measures[k].name == name
    ensures forall k :: 0 <= k < |measures| && Shown(measures, k) && measures[k].name == name ==> LastNamed(measures, name) == Some(measures[k])
    decreases |measures|
  {
    if measures != [] {
      var front := measures[..|measures| - 1];
      LastNamedIs(front, name);
      forall k | 0 <= k < |measures| && Shown(measures, k) && measures[k].name == name
        ensures LastNamed(measures, name) == Some(measures[k])
      {
        if k < |front| { assert Shown(front, k) && front[k] == measures[k]; }
      }
      if k :| 0 <= k < |front| && front[k].name == name { assert measures[k].name == name; }
      if k :| 0 <= k < |measures| && measures[k].name == name && k < |front| { assert front[k].name == name; }
    }
  }

  ghost predicate FieldsGiven(measures: seq<Measure>) {
    forall k :: 0 <= k < |measures| && measures[k].field.None? ==> measures[k].fn.Count? || measures[k].fn.CountDistinct?
  }

  lemma MeasuresMean(g: Group, members: seq<Unit>, rows: seq<Row>, measures: seq<Measure>, js: Js)
    requires FieldsGiven(measures) && SameRows(members, rows) && g.measures == MeasureMap(members, measures, js)
    ensures forall name :: name in g.measures <==> exists k :: 0 <= k < |measures| && measures[k].name == name
    ensures forall k :: 0 <= k < |measures| && Shown(measures, k) ==> Means(g.measures[measures[k].name], measures[k], rows, js)
  {
    forall name ensures name in g.measures <==> exists k :: 0 <= k < |measures| && measures[k].name == name {
      MeasureNamed(members, measures, js, name);
      LastNamedIs(measures, name);
    }
    forall k | 0 <= k < |measures| && Shown(measures, k) ensures Means(g.measures[measures[k].name], measures[k], rows, js) {
      MeasureNamed(members, measures, js, measures[k].name);
      LastNamedIs(measures, measures[k].name);
      MeasureMeaning(members, rows, measures[k], js);
    }
  }

  lemma GroupMeaning(units: seq<Unit>, spec: Spec, js: Js, i: nat)
    requires FieldsGiven(spec.measures) && i < |Groups(units, spec, js)|
    ensures GroupMeans(Groups(units, spec, js)[i], units, spec, js)
  {
    GroupCount(units, spec, js);
    GroupAt(units, spec, js, i);
    var text := Order(units, spec.dims, js)[i];
    var members := Members(units, text, spec.dims, js);
    OtherMembers(units, text, spec.dims, js);
    var first := FirstMember(units, text, spec.dims, js);
    MembersRows(units, text, spec.dims, js);
    MeasuresMean(Groups(units, spec, js)[i], members, RowsUnder(units, text, spec.dims, js), spec.measures, js);
  }

  // ---------------------------------------------------------------- what a result is

  /** How many groups may be shown. */
  function LimitOf(spec: Spec, limits: Limits): int {
    if spec.limit.Some? then spec.limit.value else limits.maxGroups
  }

  /** The key texts that occur, each once. */
  ghost predicate TextsOnce(texts: seq<string>, units: seq<Unit>, dims: seq<Dimension>, js: Js) {
    Distinct(texts) && forall t :: t in texts <==> exists u :: u in units && KeyText(u.key, dims, js) == t
  }

  /** `total` counts the key texts, `truncated` says whether they exceed the limit; a negative limit is counted from the back. */
  ghost predicate CountsAre(shown: nat, total: nat, truncated: bool, limit: int) {
    && (truncated <==> total > limit)
    && shown == if total <= limit then total else if limit >= 0 then limit else if total + limit >= 0 then total + limit else 0
  }

  /** A result's groups are groups in the sense above, no two with one key text, and the counts are right. */
  lemma ResultMeaning(rows: seq<Row>, spec: Spec, limits: Limits, js: Js)
    requires AggregateRows(rows, spec, limits, js).Done?
    ensures var r := AggregateRows(rows, spec, limits, js);
      && (forall g :: g in r.groups ==> GroupMeans(g, Units(rows, spec.dims), spec, js))
      && DistinctTexts(r.groups, spec.dims, js)
      && CountsAre(|r.groups|, r.total, r.truncated, LimitOf(spec, limits))
      && exists texts :: |texts| == r.total && TextsOnce(texts, Units(rows, spec.dims), spec.dims, js)
  {
    var units := Units(rows, spec.dims);
    var r, groups, order := AggregateRows(rows, spec, limits, js), Groups(units, spec, js), Order(units, spec.dims, js);
    var all := Arranged(groups, spec, js);
    SpecAcceptedIff(spec, limits);
    GroupCount(units, spec, js);
    FirstNPrefix(all, EffectiveLimit(spec, limits));
    SameElements(all, groups);
    AllGroupsMean(units, spec, js);
    ArrangedTexts(units, spec, js);
    forall g | g in r.groups ensures GroupMeans(g, units, spec, js) {
      var i :| 0 <= i < |r.groups| && r.groups[i] == g;
      assert all[i] == g && g in all;
    }
    OrderOnce(units, spec.dims, js);
    assert |order| == r.total;
  }

  lemma FirstNPrefix<T>(s: seq<T>, n: int)
    ensures FirstN(s, n) <= s
    ensures n < |s| ==> |FirstN(s, n)| == if n >= 0 then n else if |s| + n >= 0 then |s| + n else 0
  {
  }

  lemma OrderOnce(units: seq<Unit>, dims: seq<Dimension>, js: Js)
    ensures TextsOnce(Order(units, dims, js), units, dims, js)
  {
    UniqueFacts(Texts(units, dims, js));
    forall t ensures t in Order(units, dims, js) <==> exists u :: u in units && KeyText(u.key, dims, js) == t {
      OrderHas(units, dims, js, t);
    }
  }

  lemma AllGroupsMean(units: seq<Unit>, spec: Spec, js: Js)
    requires forall m :: m in spec.measures && m.field.None? ==> m.fn.Count? || m.fn.CountDistinct?
    ensures forall g :: g in Groups(units, spec, js) ==> GroupMeans(g, units, spec, js)
  {
    assert FieldsGiven(spec.measures);
    forall g | g in Groups(units, spec, js) ensures GroupMeans(g, units, spec, js) {
      var i :| 0 <= i < |Groups(units, spec, js)| && Groups(units, spec, js)[i] == g;
      GroupMeaning(units, spec, js, i);
    }
  }

  lemma ArrangedTexts(units: seq<Unit>, spec: Spec, js: Js)
    ensures DistinctTexts(Arranged(Groups(units, spec, js), spec, js), spec.dims, js)
  {
    var groups := Groups(units, spec, js);
    var text := (g: Group) => KeyText(g.key, spec.dims, js);
    forall a, b | 0 <= a < b < |groups| ensures text(groups[a]) != text(groups[b]) { GroupKeysDistinct(units, spec, js, a, b); }
    assert DistinctBy(text, groups);
    DistinctByPermutes(text, groups, Arranged(groups, spec, js));
    var sorted := Arranged(groups, spec, js);
    forall i, j | 0 <= i < j < |sorted| ensures KeyText(sorted[i].key, spec.dims, js) != KeyText(sorted[j].key, spec.dims, js) {
      assert text(sorted[i]) != text(sorted[j]);
    }
  }

  /** Without a sort the groups stand in the order in which their key texts are first met. */
  lemma UnsortedResult(rows: seq<Row>, spec: Spec, limits: Limits, js: Js, i: nat, j: nat) returns (at: nat)
    requires spec.sort.None? && AggregateRows(rows, spec, limits, js).Done?
    requires i < j < |AggregateRows(rows, spec, limits, js).groups|
    ensures var r, units := AggregateRows(rows, spec, limits, js), Units(rows, spec.dims);
      && at < |units| && KeyText(units[at].key, spec.dims, js) == KeyText(r.groups[i].key, spec.dims, js)
      && forall k :: 0 <= k <= at ==> KeyText(units[k].key, spec.dims, js) != KeyText(r.groups[j].key, spec.dims, js)
  {
    var units := Units(rows, spec.dims);
    var groups := Groups(units, spec, js);
    FirstNPrefix(groups, EffectiveLimit(spec, limits));
    at := GroupFirstSeen(units, spec, js, i, j);
    assert AggregateRows(rows, spec, limits, js).groups <= groups;
  }

  lemma GroupFirstSeen(units: seq<Unit>, spec: Spec, js: Js, i: nat, j: nat) returns (at: nat)
    requires i < j < |Groups(units, spec, js)|
    ensures at < |units| && KeyText(units[at].key, spec.dims, js) == KeyText(Groups(units, spec, js)[i].key, spec.dims, js)
    ensures forall k :: 0 <= k <= at ==> KeyText(units[k].key, spec.dims, js) != KeyText(Groups(units, spec, js)[j].key, spec.dims, js)
  {
    GroupCount(units, spec, js);
    GroupAt(units, spec, js, i);
    GroupAt(units, spec, js, j);
    at := TextFirstSeen(units, spec.dims, js, i, j);
  }

  lemma TextFirstSeen(units: seq<Unit>, dims: seq<Dimension>, js: Js, i: nat, j: nat) returns (at: nat)
    requires i < j < |Order(units, dims, js)|
    ensures at < |units| && KeyText(units[at].key, dims, js) == Order(units, dims, js)[i]
    ensures forall k :: 0 <= k <= at ==> KeyText(units[k].key, dims, js) != Order(units, dims, js)[j]
  {
    var texts := Texts(units, dims, js);
    at := UniqueFirstSeen(texts, i, j);
    forall k | 0 <= k <= at ensures KeyText(units[k].key, dims, js) != Order(units, dims, js)[j] {
      assert texts[k] == texts[..at + 1][k];
    }
  }

  ghost predicate AllInOrder(groups: seq<Group>, spec: Spec, js: Js)
    requires spec.sort.Some?
  {
    forall i, j :: 0 <= i < j < |groups| ==> InOrder(groups[i], groups[j], spec.dims, spec.sort.value, js)
  }

  /** With a sort the groups shown and those left out stand in the asked order together: what is left out comes after all that is shown. */
  lemma SortedResult(rows: seq<Row>, spec: Spec, limits: Limits, js: Js) returns (hidden: seq<Group>)
    requires spec.sort.Some? && OneTypePerDimension(rows, spec.dims) && AggregateRows(rows, spec, limits, js).Done?
    ensures var r := AggregateRows(rows, spec, limits, js);
      && AllInOrder(r.groups + hidden, spec, js) && |r.groups| + |hidden| == r.total
      && (forall g :: g in hidden ==> GroupMeans(g, Units(rows, spec.dims), spec, js))
      && DistinctTexts(r.groups + hidden, spec.dims, js)
  {
    var units := Units(rows, spec.dims);
    var r, groups := AggregateRows(rows, spec, limits, js), Groups(units, spec, js);
    var sorted := Arranged(groups, spec, js);
    FirstNPrefix(sorted, EffectiveLimit(spec, limits));
    hidden := sorted[|r.groups|..];
    assert r.groups + hidden == sorted;
    SpecAcceptedIff(spec, limits);
    AllGroupsMean(units, spec, js);
    ArrangedTexts(units, spec, js);
    SameElements(sorted, groups);
    forall i: nat, j: nat | i < j < |sorted| ensures InOrder(sorted[i], sorted[j], spec.dims, spec.sort.value, js) {
      SortedMeaning(rows, spec, js, i, j);
    }
  }

  // ---------------------------------------------------------------- what is refused

  ghost predicate BadBucket(d: Dimension) {
    d.Bucket? && d.width <= 0.0
  }

  ghost predicate BadField(m: Measure) {
    m.field.None? && (m.fn.Sum? || m.fn.Avg? || m.fn.Min? || m.fn.Max? || m.fn.Median?)
  }

  /** The bounds a bucket dimension comes to over the units, each once. */
  ghost predicate BoundsOf(bounds: set<Option<Value>>, units: seq<Unit>, name: string) {
    forall b :: b in bounds <==> exists i :: 0 <= i < |units| && b == if name in units[i].key then Some(units[i].key[name]) else None
  }

  ghost predicate BucketCount(units: seq<Unit>, d: Dimension, count: nat) {
    d.Bucket? && exists bounds :: BoundsOf(bounds, units, d.name) && |bounds| == count
  }

  /** The first offence there is, in this order: dimension count, widths, fields, limit, number of buckets. */
  ghost predicate Offence(e: BoundsError, rows: seq<Row>, spec: Spec, limits: Limits) {
    var dims, measures := spec.dims, spec.measures;
    match e
    case DimensionCount => |dims| != 1 && |dims| != 2
    case BucketWidth(name) =>
      (|dims| == 1 || |dims| == 2)
      && exists i :: 0 <= i < |dims| && BadBucket(dims[i]) && dims[i].name == name && forall k :: 0 <= k < i ==> !BadBucket(dims[k])
    case MissingField(name) =>
      (|dims| == 1 || |dims| == 2) && (forall k :: 0 <= k < |dims| ==> !BadBucket(dims[k]))
      && exists i :: 0 <= i < |measures| && BadField(measures[i]) && measures[i].name == name
                     && forall k :: 0 <= k < i ==> !BadField(measures[k])
    case LimitTooLarge(limit) =>
      (|dims| == 1 || |dims| == 2) && (forall k :: 0 <= k < |dims| ==> !BadBucket(dims[k]))
      && (forall k :: 0 <= k < |measures| ==> !BadField(measures[k])) && spec.limit == Some(limit) && limit > limits.maxGroups
    case TooManyBuckets(name, count) =>
      Sound(spec, limits) && count > limits.maxBuckets
      && exists i :: 0 <= i < |dims| && BucketCount(Units(rows, dims), dims[i], count) && dims[i].name == name
                     && forall k :: 0 <= k < i ==> FewBuckets(Units(rows, dims), dims[k], limits.maxBuckets)
  }

  ghost predicate FewBuckets(units: seq<Unit>, d: Dimension, max: nat) {
    d.Bucket? ==> exists count: nat :: BucketCount(units, d, count) && count <= max
  }

  ghost predicate Sound(spec: Spec, limits: Limits) {
    && (|spec.dims| == 1 || |spec.dims| == 2) && (forall k :: 0 <= k < |spec.dims| ==> !BadBucket(spec.dims[k]))
    && (forall k :: 0 <= k < |spec.measures| ==> !BadField(spec.measures[k]))
    && (spec.limit.Some? ==> spec.limit.value <= limits.maxGroups)
  }

  lemma {:induction false} WidthIs(dims: seq<Dimension>)
    ensures BadWidth(dims).None? ==> forall k :: 0 <= k < |dims| ==> !BadBucket(dims[k])
    ensures BadWidth(dims).Some? ==>
      BadWidth(dims).value.BucketWidth?
      && exists i :: 0 <= i < |dims| && BadBucket(dims[i]) && dims[i].name == BadWidth(dims).value.dim && forall k :: 0 <= k < i ==> !BadBucket(dims[k])
  {
    if dims != [] {
      WidthIs(dims[1..]);
      if !BadBucket(dims[0]) && BadWidth(dims).Some? {
        var rest := dims[1..];
        var i :| 0 <= i < |rest| && BadBucket(rest[i]) && rest[i].name == BadWidth(dims).value.dim && forall k :: 0 <= k < i ==> !BadBucket(rest[k]);
        assert BadBucket(dims[i + 1]) && dims[i + 1].name == rest[i].name;
        assert forall k :: 0 < k < i + 1 ==> dims[k] == rest[k - 1];
      }
    }
  }

  lemma {:induction false} FieldIs(measures: seq<Measure>)
    ensures BadMeasure(measures).None? ==> forall k :: 0 <= k < |measures| ==> !BadField(measures[k])
    ensures BadMeasure(measures).Some? ==>
      BadMeasure(measures).value.MissingField?
      && exists i :: 0 <= i < |measures| && BadField(measures[i]) && measures[i].name == BadMeasure(measures).value.measure
                     && forall k :: 0 <= k < i ==> !BadField(measures[k])
  {
    if measures != [] {
      FieldIs(measures[1..]);
      if !BadField(measures[0]) && BadMeasure(measures).Some? {
        var rest := measures[1..];
        var i :| 0 <= i < |rest| && BadField(rest[i]) && rest[i].name == BadMeasure(measures).value.measure
                 && forall k :: 0 <= k < i ==> !BadField(rest[k]);
        assert BadField(measures[i + 1]) && measures[i + 1].name == rest[i].name;
        assert forall k :: 0 < k < i + 1 ==> measures[k] == rest[k - 1];
      }
    }
  }

  lemma BucketsAre(units: seq<Unit>, d: Dimension)
    requires d.Bucket?
    ensures BucketCount(units, d, |Buckets(units, d.name)|)
  {
    var bounds := Buckets(units, d.name);
    forall b ensures b in bounds <==> exists i :: 0 <= i < |units| && b == if d.name in units[i].key then Some(units[i].key[d.name]) else None {
      if b in bounds {
        var u :| u in units && b == Lookup(u.key, d.name);
        var i :| 0 <= i < |units| && units[i] == u;
      }
      if i :| 0 <= i < |units| && b == if d.name in units[i].key then Some(units[i].key[d.name]) else None {
        assert units[i] in units && b == Lookup(units[i].key, d.name);
      }
    }
    assert BoundsOf(bounds, units, d.name);
  }

  lemma {:induction false} BucketsChecked(units: seq<Unit>, dims: seq<Dimension>, limits: Limits)
    ensures CheckBuckets(units, dims, limits).None? ==> forall k :: 0 <= k < |dims| ==> FewBuckets(units, dims[k], limits.maxBuckets)
    ensures CheckBuckets(units, dims, limits).Some? ==>
      var e := CheckBuckets(units, dims, limits).value;
      && e.TooManyBuckets? && e.count > limits.maxBuckets
      && exists i :: 0 <= i < |dims| && BucketCount(units, dims[i], e.count) && dims[i].name == e.dim
                     && forall k :: 0 <= k < i ==> FewBuckets(units, dims[k], limits.maxBuckets)
    decreases |dims|
  {
    if dims != [] {
      if dims[0].Bucket? { BucketsAre(units, dims[0]); }
      if dims[0].Bucket? && |Buckets(units, dims[0].name)| > limits.maxBuckets {
      } else {
        assert FewBuckets(units, dims[0], limits.maxBuckets);
        var rest := dims[1..];
        BucketsChecked(units, rest, limits);
        if CheckBuckets(units, dims, limits).Some? {
          var e := CheckBuckets(units, dims, limits).value;
          var i :| 0 <= i < |rest| && BucketCount(units, rest[i], e.count) && rest[i].name == e.dim
                   && forall k :: 0 <= k < i ==> FewBuckets(units, rest[k], limits.maxBuckets);
          assert BucketCount(units, dims[i + 1], e.count) && dims[i + 1].name == e.dim;
          assert forall k :: 0 < k < i + 1 ==> dims[k] == rest[k - 1];
        }
      }
    }
  }

  /** A refusal names the first offence; without any, and only then, there is a result. */
  lemma RefusalMeaning(rows: seq<Row>, spec: Spec, limits: Limits, js: Js)
    ensures var r := AggregateRows(rows, spec, limits, js);
      && (r.Failed? ==> Offence(r.error, rows, spec, limits))
      && (r.Done? ==> Sound(spec, limits)
                      && forall k :: 0 <= k < |spec.dims| ==> FewBuckets(Units(rows, spec.dims), spec.dims[k], limits.maxBuckets))
  {
    WidthIs(spec.dims);
    FieldIs(spec.measures);
    BucketsChecked(Units(rows, spec.dims), spec.dims, limits);
  }
}
