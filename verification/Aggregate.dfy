/** The chart engine: rows are exploded into units, grouped by key, measured, sorted and cut off. */
module Aggregate {
  import opened Base
  import opened Gathering
  import opened Sorting
  import opened Strings

  datatype Value = Num(n: real) | Str(s: string)

  /** What a field may hold: a scalar, a list with scalar and other items, or anything else (null, object, boolean). */
  datatype Raw = One(v: Value) | Many(items: seq<Option<Value>>) | Other

  type Row = map<string, Raw>

  type Key = map<string, Value>

  datatype Dimension =
    | ByValue(name: string, field: string)
    | Explode(name: string, field: string)
    | Bucket(name: string, field: string, width: real)

  datatype Fn = Count | CountDistinct | Sum | Avg | Min | Max | Median

  datatype Measure = Measure(name: string, fn: Fn, field: Option<string>)

  datatype Dir = Asc | Desc

  datatype SortBy = SortBy(column: string, dir: Dir)

  datatype Spec = Spec(dims: seq<Dimension>, measures: seq<Measure>, sort: Option<SortBy>, limit: Option<int>)

  datatype Limits = Limits(maxBuckets: nat, maxGroups: nat)

  /** How JavaScript writes things: a field as text, a list of key values as JSON, a number as text. */
  datatype Js = Js(show: Option<Raw> -> string, json: seq<Option<Value>> -> string, number: real -> string)

  datatype Unit = Unit(key: Key, row: Row)

  datatype Group = Group(key: Key, measures: map<string, Option<real>>)

  datatype BoundsError =
    | DimensionCount
    | BucketWidth(dim: string)
    | MissingField(measure: string)
    | LimitTooLarge(limit: int)
    | TooManyBuckets(dim: string, count: nat)

  datatype Result = Failed(error: BoundsError) | Done(groups: seq<Group>, total: nat, truncated: bool)

  // ---------------------------------------------------------------- units

  function Somes(items: seq<Option<Value>>): seq<Value> {
    if items == [] then [] else (if items[0].Some? then [items[0].value] else []) + Somes(items[1..])
  }

  lemma RealTimes(a: real, b: real)
    requires a >= 0.0 && b > 0.0
    ensures a * b >= 0.0 && (a > 0.0 ==> a * b > 0.0)
  {
  }

  function Times(k: int, width: real): real {
    k as real * width
  }

  /** Lower bound of the half-open bucket a number falls in, in exact arithmetic: the one multiple of the width that fits. */
  function BucketFloor(x: real, width: real): (r: real)
    requires width > 0.0
    ensures r <= x < r + width
    ensures exists k :: r == Times(k, width)
  {
    var q := x / width;
    var k := q.Floor;
    assert q * width == x;
    RealTimes(q - k as real, width);
    RealTimes(k as real + 1.0 - q, width);
    assert (q - k as real) * width == q * width - k as real * width;
    assert (k as real + 1.0 - q) * width == (k as real + 1.0) * width - q * width;
    assert (k as real + 1.0) * width == k as real * width + width;
    Times(k, width)
  }

  /** The values a row has in a dimension; none means the row is in no group. A bucket's width is checked beforehand. */
  function DimensionValues(row: Row, dim: Dimension): seq<Value> {
    if dim.field !in row then []
    else
      var raw := row[dim.field];
      match dim
      case Explode(_, _) => if raw.Many? then Somes(raw.items) else []
      case Bucket(_, _, width) => if raw.One? && raw.v.Num? && width > 0.0 then [Num(BucketFloor(raw.v.n, width))] else []
      case ByValue(_, _) => if raw.One? then [raw.v] else []
  }

  function Extend(key: Key, name: string, values: seq<Value>): (r: seq<Key>)
    ensures |r| == |values|
  {
    seq(|values|, i requires 0 <= i < |values| => key[name := values[i]])
  }

  function Cross(keys: seq<Key>, name: string, values: seq<Value>): seq<Key> {
    if keys == [] then [] else Extend(keys[0], name, values) + Cross(keys[1..], name, values)
  }

  /** One key for every choice of a value in every dimension. */
  function Partials(row: Row, dims: seq<Dimension>): seq<Key> {
    if dims == [] then [map[]]
    else Cross(Partials(row, dims[..|dims| - 1]), Last(dims).name, DimensionValues(row, Last(dims)))
  }

  function UnitsFn(dims: seq<Dimension>): Row -> seq<Unit> {
    (row: Row) => seq(|Partials(row, dims)|, i requires 0 <= i < |Partials(row, dims)| => Unit(Partials(row, dims)[i], row))
  }

  function Units(rows: seq<Row>, dims: seq<Dimension>): seq<Unit> {
    Gather(UnitsFn(dims), rows)
  }

  // ---------------------------------------------------------------- groups

  function Lookup(key: Key, name: string): Option<Value> {
    if name in key then Some(key[name]) else None
  }

  function Tuple(key: Key, dims: seq<Dimension>): (r: seq<Option<Value>>)
    ensures |r| == |dims|
  {
    seq(|dims|, i requires 0 <= i < |dims| => Lookup(key, dims[i].name))
  }

  function KeyText(key: Key, dims: seq<Dimension>, js: Js): string {
    js.json(Tuple(key, dims))
  }

  function Texts(units: seq<Unit>, dims: seq<Dimension>, js: Js): (r: seq<string>)
    ensures |r| == |units|
  {
    seq(|units|, i requires 0 <= i < |units| => KeyText(units[i].key, dims, js))
  }

  function MemberFn(t: string, dims: seq<Dimension>, js: Js): Unit -> seq<Unit> {
    (u: Unit) => if KeyText(u.key, dims, js) == t then [u] else []
  }

  function Members(units: seq<Unit>, t: string, dims: seq<Dimension>, js: Js): seq<Unit> {
    Gather(MemberFn(t, dims, js), units)
  }

  /** The key texts in first-seen order. */
  function Order(units: seq<Unit>, dims: seq<Dimension>, js: Js): seq<string> {
    Unique(Texts(units, dims, js))
  }

  function FieldOf(row: Row, field: string): Option<Raw> {
    if field in row then Some(row[field]) else None
  }

  function NumberFn(field: string): Unit -> seq<real> {
    (u: Unit) => if field in u.row && u.row[field].One? && u.row[field].v.Num? then [u.row[field].v.n] else []
  }

  /** The numbers a field holds; anything else is skipped. */
  function Values(members: seq<Unit>, field: string): seq<real> {
    Gather(NumberFn(field), members)
  }

  function Least(values: seq<real>): (m: real)
    requires values != []
    ensures m in values && forall v :: v in values ==> m <= v
  {
    assert values == values[..|values| - 1] + [Last(values)];
    if |values| == 1 then values[0]
    else
      var m := Least(values[..|values| - 1]);
      if Last(values) < m then Last(values) else m
  }

  function Greatest(values: seq<real>): (m: real)
    requires values != []
    ensures m in values && forall v :: v in values ==> v <= m
  {
    assert values == values[..|values| - 1] + [Last(values)];
    if |values| == 1 then values[0]
    else
      var m := Greatest(values[..|values| - 1]);
      if Last(values) > m then Last(values) else m
  }

  function RealLe(): (real, real) -> bool {
    (a: real, b: real) => a <= b
  }

  function MedianOf(values: seq<real>): real
    requires values != []
  {
    var sorted := Sort(RealLe(), values);
    var mid := |sorted| / 2;
    if |sorted| % 2 == 0 then (sorted[mid - 1] + sorted[mid]) / 2.0 else sorted[mid]
  }

  function FieldOr(m: Measure, default: string): string {
    if m.field.Some? then m.field.value else default
  }

  /** A measure over numbers: an empty group sums to zero and has no average, extreme or median. */
  function Reduce(fn: Fn, values: seq<real>): Option<real> {
    if fn.Sum? then Some(Total(values))
    else if values == [] then None
    else match fn
      case Avg => Some(Total(values) / |values| as real)
      case Min => Some(Least(values))
      case Max => Some(Greatest(values))
      case _ => Some(MedianOf(values))
  }

  function Compute(members: seq<Unit>, m: Measure, js: Js): Option<real> {
    if m.fn.Count? then Some(|members| as real)
    else if m.fn.CountDistinct? then
      Some(|set u | u in members :: js.show(FieldOf(u.row, FieldOr(m, "normalizedText")))| as real)
    else Reduce(m.fn, Values(members, FieldOr(m, "")))
  }

  function MeasureMap(members: seq<Unit>, measures: seq<Measure>, js: Js): map<string, Option<real>> {
    if measures == [] then map[]
    else MeasureMap(members, measures[..|measures| - 1], js)[Last(measures).name := Compute(members, Last(measures), js)]
  }

  function GroupOf(members: seq<Unit>, measures: seq<Measure>, js: Js): Group {
    Group(if members == [] then map[] else members[0].key, MeasureMap(members, measures, js))
  }

  function GroupFn(units: seq<Unit>, spec: Spec, js: Js): string -> seq<Group> {
    (t: string) => [GroupOf(Members(units, t, spec.dims, js), spec.measures, js)]
  }

  function Groups(units: seq<Unit>, spec: Spec, js: Js): seq<Group> {
    Gather(GroupFn(units, spec, js), Order(units, spec.dims, js))
  }

  // ---------------------------------------------------------------- sorting

  datatype Ord = NegInf | N(n: real) | S(s: string)

  /** A missing measure counts as minus infinity; a name that is neither a measure nor a dimension as the empty text. */
  function ValueOf(g: Group, column: string): Ord {
    if column in g.measures then (if g.measures[column].Some? then N(g.measures[column].value) else NegInf)
    else if column in g.key then (if g.key[column].Num? then N(g.key[column].n) else S(g.key[column].s))
    else S("")
  }

  function OrdText(o: Ord, js: Js): string {
    match o
    case NegInf => "-Infinity"
    case N(n) => js.number(n)
    case S(s) => s
  }

  function ComparePrimary(av: Ord, bv: Ord, dir: Dir, js: Js): real {
    var factor := if dir.Asc? then 1.0 else -1.0;
    if av == bv then 0.0
    else if av.S? || bv.S? then (if StrLt(OrdText(av, js), OrdText(bv, js)) then -factor else factor)
    else if av.NegInf? then -factor
    else if bv.NegInf? then factor
    else if dir.Asc? then av.n - bv.n else bv.n - av.n
  }

  function Compare(a: Group, b: Group, dims: seq<Dimension>, sort: SortBy, js: Js): real {
    var primary := ComparePrimary(ValueOf(a, sort.column), ValueOf(b, sort.column), sort.dir, js);
    var ak, bk := KeyText(a.key, dims, js), KeyText(b.key, dims, js);
    if primary != 0.0 then primary else if StrLt(ak, bk) then -1.0 else if StrLt(bk, ak) then 1.0 else 0.0
  }

  function NotAfter(dims: seq<Dimension>, sort: SortBy, js: Js): (Group, Group) -> bool {
    (a: Group, b: Group) => a == b || Compare(a, b, dims, sort, js) < 0.0
  }

  function Arranged(groups: seq<Group>, spec: Spec, js: Js): (r: seq<Group>)
    ensures multiset(r) == multiset(groups) && |r| == |groups|
  {
    if spec.sort.Some? then Sort(NotAfter(spec.dims, spec.sort.value, js), groups) else groups
  }

  // ---------------------------------------------------------------- bounds

  function BadWidth(dims: seq<Dimension>): Option<BoundsError> {
    if dims == [] then None
    else if dims[0].Bucket? && !(dims[0].width > 0.0) then Some(BucketWidth(dims[0].name))
    else BadWidth(dims[1..])
  }

  predicate NeedsField(fn: Fn) {
    !fn.Count? && !fn.CountDistinct?
  }

  function BadMeasure(measures: seq<Measure>): Option<BoundsError> {
    if measures == [] then None
    else if NeedsField(measures[0].fn) && measures[0].field.None? then Some(MissingField(measures[0].name))
    else BadMeasure(measures[1..])
  }

  function CheckSpec(spec: Spec, limits: Limits): Option<BoundsError> {
    if |spec.dims| < 1 || |spec.dims| > 2 then Some(DimensionCount)
    else if BadWidth(spec.dims).Some? then BadWidth(spec.dims)
    else if BadMeasure(spec.measures).Some? then BadMeasure(spec.measures)
    else if spec.limit.Some? && spec.limit.value > limits.maxGroups then Some(LimitTooLarge(spec.limit.value))
    else None
  }

  function Buckets(units: seq<Unit>, name: string): set<Option<Value>> {
    set u | u in units :: Lookup(u.key, name)
  }

  function CheckBuckets(units: seq<Unit>, dims: seq<Dimension>, limits: Limits): Option<BoundsError> {
    if dims == [] then None
    else if dims[0].Bucket? && |Buckets(units, dims[0].name)| > limits.maxBuckets
      then Some(TooManyBuckets(dims[0].name, |Buckets(units, dims[0].name)|))
    else CheckBuckets(units, dims[1..], limits)
  }

  // ---------------------------------------------------------------- the engine

  function EffectiveLimit(spec: Spec, limits: Limits): int {
    if spec.limit.Some? && spec.limit.value < limits.maxGroups then spec.limit.value else limits.maxGroups
  }

  /** `slice(0, n)`: a negative end counts from the back. */
  function FirstN<T>(s: seq<T>, n: int): seq<T> {
    if n >= |s| then s else if n >= 0 then s[..n] else if |s| + n > 0 then s[..|s| + n] else []
  }

  function CutOff(groups: seq<Group>, spec: Spec, limits: Limits): Result {
    var limit := EffectiveLimit(spec, limits);
    Done(if |groups| > limit then FirstN(groups, limit) else groups, |groups|, |groups| > limit)
  }

  function AggregateRows(rows: seq<Row>, spec: Spec, limits: Limits, js: Js): Result {
    if CheckSpec(spec, limits).Some? then Failed(CheckSpec(spec, limits).value)
    else
      var units := Units(rows, spec.dims);
      if CheckBuckets(units, spec.dims, limits).Some? then Failed(CheckBuckets(units, spec.dims, limits).value)
      else CutOff(Arranged(Groups(units, spec, js), spec, js), spec, limits)
  }

  lemma {:induction false} CrossSplit(keys: seq<Key>, more: seq<Key>, name: string, values: seq<Value>)
    ensures Cross(keys + more, name, values) == Cross(keys, name, values) + Cross(more, name, values)
  {
    if keys == [] {
      assert keys + more == more;
    } else {
      assert (keys + more)[1..] == keys[1..] + more;
      CrossSplit(keys[1..], more, name, values);
    }
  }

  /** Every choice of values for one row. */
  method ExplodeRow(row: Row, dims: seq<Dimension>) returns (partials: seq<Key>)
    ensures partials == Partials(row, dims)
  {
    partials := [map[]];
    for d := 0 to |dims|
      invariant partials == Partials(row, dims[..d])
    {
      assert dims[..d + 1][..d] == dims[..d];
      var values := DimensionValues(row, dims[d]);
      var next: seq<Key> := [];
      for p := 0 to |partials|
        invariant next == Cross(partials[..p], dims[d].name, values)
      {
        assert partials[..p + 1] == partials[..p] + [partials[p]];
        CrossSplit(partials[..p], [partials[p]], dims[d].name, values);
        next := next + Extend(partials[p], dims[d].name, values);
      }
      assert partials[..|partials|] == partials;
      partials := next;
    }
    assert dims[..|dims|] == dims;
  }

  /** The units by key text, and the texts in the order they were first seen. */
  ghost predicate Grouped(byKey: map<string, seq<Unit>>, order: seq<string>, units: seq<Unit>, dims: seq<Dimension>, js: Js) {
    && order == Order(units, dims, js)
    && (forall t :: t in byKey <==> t in order)
    && (forall t :: t in byKey ==> byKey[t] == Members(units, t, dims, js))
  }

  lemma {:induction false} OtherMembers(units: seq<Unit>, t: string, dims: seq<Dimension>, js: Js)
    ensures Members(units, t, dims, js) == [] <==> t !in Order(units, dims, js)
  {
    UniqueFacts(Texts(units, dims, js));
    if units != [] {
      OtherMembers(units[1..], t, dims, js);
      UniqueFacts(Texts(units[1..], dims, js));
      assert Texts(units, dims, js) == [KeyText(units[0].key, dims, js)] + Texts(units[1..], dims, js);
    }
  }

  lemma GroupedStep(byKey: map<string, seq<Unit>>, order: seq<string>, units: seq<Unit>, u: Unit, dims: seq<Dimension>, js: Js)
    requires Grouped(byKey, order, units, dims, js)
    ensures var t := KeyText(u.key, dims, js);
      Grouped(byKey[t := (if t in byKey then byKey[t] else []) + [u]], if t in byKey then order else order + [t], units + [u], dims, js)
  {
    var t := KeyText(u.key, dims, js);
    assert Texts(units + [u], dims, js) == Texts(units, dims, js) + [t];
    assert Texts(units + [u], dims, js)[..|units|] == Texts(units, dims, js);
    forall s ensures Members(units + [u], s, dims, js) == Members(units, s, dims, js) + (if s == t then [u] else []) {
      GatherSnoc(MemberFn(s, dims, js), units, u);
    }
    OtherMembers(units, t, dims, js);
  }

  method GroupUnits(units: seq<Unit>, dims: seq<Dimension>, js: Js) returns (byKey: map<string, seq<Unit>>, order: seq<string>)
    ensures Grouped(byKey, order, units, dims, js)
  {
    byKey, order := map[], [];
    for i := 0 to |units|
      invariant Grouped(byKey, order, units[..i], dims, js)
    {
      assert units[..i + 1] == units[..i] + [units[i]];
      GroupedStep(byKey, order, units[..i], units[i], dims, js);
      var t := KeyText(units[i].key, dims, js);
      if t in byKey {
        byKey := byKey[t := byKey[t] + [units[i]]];
      } else {
        byKey, order := byKey[t := [units[i]]], order + [t];
        assert [] + [units[i]] == [units[i]];
      }
    }
    assert units[..|units|] == units;
  }

  method CollectUnits(rows: seq<Row>, dims: seq<Dimension>) returns (units: seq<Unit>)
    ensures units == Units(rows, dims)
  {
    units := [];
    for i := 0 to |rows|
      invariant units == Units(rows[..i], dims)
    {
      assert rows[..i + 1] == rows[..i] + [rows[i]];
      GatherSnoc(UnitsFn(dims), rows[..i], rows[i]);
      var partials := ExplodeRow(rows[i], dims);
      units := units + seq(|partials|, j requires 0 <= j < |partials| => Unit(partials[j], rows[i]));
    }
    assert rows[..|rows|] == rows;
  }

  /** One group per key text, in that order. */
  method MeasureGroups(byKey: map<string, seq<Unit>>, order: seq<string>, spec: Spec, js: Js, ghost each: string -> seq<Group>)
      returns (groups: seq<Group>)
    requires forall t :: t in order ==> t in byKey && each(t) == [GroupOf(byKey[t], spec.measures, js)]
    ensures groups == Gather(each, order)
  {
    groups := [];
    for i := 0 to |order|
      invariant groups == Gather(each, order[..i])
    {
      assert order[..i + 1] == order[..i] + [order[i]];
      GatherSnoc(each, order[..i], order[i]);
      groups := groups + [GroupOf(byKey[order[i]], spec.measures, js)];
    }
    assert order[..|order|] == order;
  }

  /** The whole engine: check, explode, check the buckets, group and measure, sort, cut off. */
  method Evaluate(rows: seq<Row>, spec: Spec, limits: Limits, js: Js) returns (r: Result)
    ensures r == AggregateRows(rows, spec, limits, js)
  {
    if CheckSpec(spec, limits).Some? { return Failed(CheckSpec(spec, limits).value); }
    var units := CollectUnits(rows, spec.dims);
    if CheckBuckets(units, spec.dims, limits).Some? { return Failed(CheckBuckets(units, spec.dims, limits).value); }
    var byKey, order := GroupUnits(units, spec.dims, js);
    var groups := MeasureGroups(byKey, order, spec, js, GroupFn(units, spec, js));
    r := CutOff(Arranged(groups, spec, js), spec, limits);
  }
}
