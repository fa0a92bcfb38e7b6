/** What the chart engine guarantees: independence of the row order, distinct keys, conservation of counts. */
module AggregateLaws {
  import opened Base
  import opened Gathering
  import opened Sorting
  import opened Strings
  import opened Aggregate

  /** The key text tells the keys of these units apart. */
  ghost predicate TellsApart(units: seq<Unit>, dims: seq<Dimension>, js: Js) {
    forall u, v :: u in units && v in units && KeyText(u.key, dims, js) == KeyText(v.key, dims, js) ==> u.key == v.key
  }

  // ---------------------------------------------------------------- keys of units

  function Names(dims: seq<Dimension>): set<string> {
    set d | d in dims :: d.name
  }

  /** The values a name can take: those of the last dimension that carries it. */
  function NamedValues(row: Row, dims: seq<Dimension>, name: string): seq<Value> {
    if dims == [] then []
    else if Last(dims).name == name then DimensionValues(row, Last(dims))
    else NamedValues(row, dims[..|dims| - 1], name)
  }

  lemma {:induction false} CrossHas(keys: seq<Key>, name: string, values: seq<Value>, k: Key) returns (from: Key, v: Value)
    requires k in Cross(keys, name, values)
    ensures from in keys && v in values && k == from[name := v]
  {
    if k in Extend(keys[0], name, values) {
      var i :| 0 <= i < |values| && Extend(keys[0], name, values)[i] == k;
      from, v := keys[0], values[i];
    } else {
      from, v := CrossHas(keys[1..], name, values, k);
    }
  }

  lemma {:induction false} PartialNames(row: Row, dims: seq<Dimension>, k: Key)
    requires k in Partials(row, dims)
    ensures k.Keys == Names(dims)
  {
    if dims == [] {
      assert k == map[];
    } else {
      var before, last := dims[..|dims| - 1], Last(dims);
      var from, v := CrossHas(Partials(row, before), last.name, DimensionValues(row, last), k);
      PartialNames(row, before, from);
      KeysExtend(from, last.name, v);
      NamesSnoc(dims);
    }
  }

  lemma KeysExtend(from: Key, name: string, v: Value)
    ensures from[name := v].Keys == from.Keys + {name}
  {
  }

  lemma NamesSnoc(dims: seq<Dimension>)
    requires dims != []
    ensures Names(dims) == Names(dims[..|dims| - 1]) + {Last(dims).name}
  {
    var before := dims[..|dims| - 1];
    assert forall d :: d in dims <==> d in before || d == Last(dims) by { assert dims == before + [Last(dims)]; }
  }

  lemma {:induction false} PartialValues(row: Row, dims: seq<Dimension>, k: Key, name: string)
    requires k in Partials(row, dims) && name in k
    ensures k[name] in NamedValues(row, dims, name)
  {
    if dims != [] {
      var before := dims[..|dims| - 1];
      var from, v := CrossHas(Partials(row, before), Last(dims).name, DimensionValues(row, Last(dims)), k);
      if name != Last(dims).name { PartialValues(row, before, from, name); }
    }
  }

  /** Every unit's key has exactly the dimensions' names. */
  ghost predicate KeyedBy(units: seq<Unit>, dims: seq<Dimension>) {
    forall u :: u in units ==> u.key.Keys == Names(dims)
  }

  lemma UnitFrom(rows: seq<Row>, dims: seq<Dimension>, u: Unit)
    requires u in Units(rows, dims)
    ensures u.row in rows && u.key in Partials(u.row, dims)
  {
    GatherHas(UnitsFn(dims), rows, u);
    var row :| row in rows && u in UnitsFn(dims)(row);
    var i :| 0 <= i < |UnitsFn(dims)(row)| && UnitsFn(dims)(row)[i] == u;
    assert u == Unit(Partials(row, dims)[i], row);
  }

  lemma UnitsKeyed(rows: seq<Row>, dims: seq<Dimension>)
    ensures KeyedBy(Units(rows, dims), dims)
  {
    forall u | u in Units(rows, dims) ensures u.key.Keys == Names(dims) {
      UnitFrom(rows, dims, u);
      PartialNames(u.row, dims, u.key);
    }
  }

  lemma MembersHave(units: seq<Unit>, t: string, dims: seq<Dimension>, js: Js, u: Unit)
    ensures u in Members(units, t, dims, js) <==> u in units && KeyText(u.key, dims, js) == t
  {
    var f := MemberFn(t, dims, js);
    GatherHas(f, units, u);
    forall x | x in units && u in f(x) ensures x == u && KeyText(u.key, dims, js) == t {}
    if u in units && KeyText(u.key, dims, js) == t { assert u in f(u); }
  }

  // ---------------------------------------------------------------- measures

  lemma RealsOrdered(s: seq<real>)
    ensures OrderOn(RealLe(), s)
  {
  }

  lemma ExtremesPermute(v1: seq<real>, v2: seq<real>)
    requires v1 != [] && v2 != [] && multiset(v1) == multiset(v2)
    ensures Least(v1) == Least(v2) && Greatest(v1) == Greatest(v2)
  {
    SameElements(v1, v2);
    assert Least(v1) in v2 && Least(v2) in v1;
    assert Greatest(v1) in v2 && Greatest(v2) in v1;
  }

  lemma MedianPermutes(v1: seq<real>, v2: seq<real>)
    requires v1 != [] && v2 != [] && multiset(v1) == multiset(v2)
    ensures MedianOf(v1) == MedianOf(v2)
  {
    RealsOrdered(v1);
    SortOrderFree(RealLe(), v1, v2);
  }

  lemma DistinctPermutes(m1: seq<Unit>, m2: seq<Unit>, field: string, js: Js)
    requires multiset(m1) == multiset(m2)
    ensures (set u | u in m1 :: js.show(FieldOf(u.row, field))) == (set u | u in m2 :: js.show(FieldOf(u.row, field)))
  {
    SameElements(m1, m2);
  }

  lemma ReducePermutes(fn: Fn, v1: seq<real>, v2: seq<real>)
    requires multiset(v1) == multiset(v2)
    ensures Reduce(fn, v1) == Reduce(fn, v2)
  {
    SameSize(v1, v2);
    TotalPermutes(v1, v2);
    if v1 != [] {
      ExtremesPermute(v1, v2);
      MedianPermutes(v1, v2);
    }
  }

  lemma SameSize<T>(a: seq<T>, b: seq<T>)
    requires multiset(a) == multiset(b)
    ensures |a| == |b|
  {
    SameElements(a, b);
  }

  /** A measure does not depend on the order of the group's units. */
  lemma ComputePermutes(m1: seq<Unit>, m2: seq<Unit>, m: Measure, js: Js)
    requires multiset(m1) == multiset(m2)
    ensures Compute(m1, m, js) == Compute(m2, m, js)
  {
    if m.fn.Count? {
      SameElements(m1, m2);
    } else if m.fn.CountDistinct? {
      DistinctPermutes(m1, m2, FieldOr(m, "normalizedText"), js);
    } else {
      GatherPermutes(NumberFn(FieldOr(m, "")), m1, m2);
      ReducePermutes(m.fn, Values(m1, FieldOr(m, "")), Values(m2, FieldOr(m, "")));
    }
  }

  lemma {:induction false} MeasureMapPermutes(m1: seq<Unit>, m2: seq<Unit>, measures: seq<Measure>, js: Js)
    requires multiset(m1) == multiset(m2)
    ensures MeasureMap(m1, measures, js) == MeasureMap(m2, measures, js)
  {
    if measures != [] {
      MeasureMapPermutes(m1, m2, measures[..|measures| - 1], js);
      ComputePermutes(m1, m2, Last(measures), js);
    }
  }

  /** The measure of a name is the last one declared with it. */
  function LastNamed(measures: seq<Measure>, name: string): Option<Measure> {
    if measures == [] then None
    else if Last(measures).name == name then Some(Last(measures))
    else LastNamed(measures[..|measures| - 1], name)
  }

  lemma {:induction false} MeasureNamed(members: seq<Unit>, measures: seq<Measure>, js: Js, name: string)
    ensures name in MeasureMap(members, measures, js) <==> LastNamed(measures, name).Some?
    ensures LastNamed(measures, name).Some? ==>
      MeasureMap(members, measures, js)[name] == Compute(members, LastNamed(measures, name).value, js)
  {
    if measures != [] { MeasureNamed(members, measures[..|measures| - 1], js, name); }
  }

  // ---------------------------------------------------------------- groups do not see the order of the units

  lemma GroupPermutes(u1: seq<Unit>, u2: seq<Unit>, t: string, spec: Spec, js: Js)
    requires multiset(u1) == multiset(u2) && TellsApart(u1, spec.dims, js)
    ensures GroupFn(u1, spec, js)(t) == GroupFn(u2, spec, js)(t)
  {
    var m1, m2 := Members(u1, t, spec.dims, js), Members(u2, t, spec.dims, js);
    GatherPermutes(MemberFn(t, spec.dims, js), u1, u2);
    MeasureMapPermutes(m1, m2, spec.measures, js);
    SameElements(m1, m2);
    SameElements(u1, u2);
    if m1 != [] {
      MembersHave(u1, t, spec.dims, js, m1[0]);
      MembersHave(u2, t, spec.dims, js, m2[0]);
      assert m1[0] in u1 && m2[0] in u1;
    }
  }

  lemma {:induction false} GatherSame<A, B>(f: A -> seq<B>, g: A -> seq<B>, xs: seq<A>)
    requires forall x :: x in xs ==> f(x) == g(x)
    ensures Gather(f, xs) == Gather(g, xs)
  {
    if xs != [] { GatherSame(f, g, xs[1..]); }
  }

  lemma OrderHas(units: seq<Unit>, dims: seq<Dimension>, js: Js, t: string)
    ensures t in Order(units, dims, js) <==> exists u :: u in units && KeyText(u.key, dims, js) == t
  {
    var texts := Texts(units, dims, js);
    UniqueFacts(texts);
    if t in texts {
      var i :| 0 <= i < |texts| && texts[i] == t;
      assert units[i] in units && KeyText(units[i].key, dims, js) == t;
    }
    if u :| u in units && KeyText(u.key, dims, js) == t {
      var i :| 0 <= i < |units| && units[i] == u;
      assert texts[i] == t;
    }
  }

  lemma OrderPermutes(u1: seq<Unit>, u2: seq<Unit>, dims: seq<Dimension>, js: Js)
    requires multiset(u1) == multiset(u2)
    ensures multiset(Order(u1, dims, js)) == multiset(Order(u2, dims, js))
  {
    SameElements(u1, u2);
    UniqueFacts(Texts(u1, dims, js));
    UniqueFacts(Texts(u2, dims, js));
    forall t ensures t in Order(u1, dims, js) <==> t in Order(u2, dims, js) {
      OrderHas(u1, dims, js, t);
      OrderHas(u2, dims, js, t);
    }
    DistinctSameElements(Order(u1, dims, js), Order(u2, dims, js));
  }

  lemma GroupsPermute(u1: seq<Unit>, u2: seq<Unit>, spec: Spec, js: Js)
    requires multiset(u1) == multiset(u2) && TellsApart(u1, spec.dims, js)
    ensures multiset(Groups(u1, spec, js)) == multiset(Groups(u2, spec, js))
  {
    var o1, o2 := Order(u1, spec.dims, js), Order(u2, spec.dims, js);
    OrderPermutes(u1, u2, spec.dims, js);
    GatherPermutes(GroupFn(u1, spec, js), o1, o2);
    forall t | t in o2 ensures GroupFn(u1, spec, js)(t) == GroupFn(u2, spec, js)(t) { GroupPermutes(u1, u2, t, spec, js); }
    GatherSame(GroupFn(u1, spec, js), GroupFn(u2, spec, js), o2);
  }

  // ---------------------------------------------------------------- distinct keys

  lemma {:induction false} GatherSingles<A, B>(f: A -> seq<B>, xs: seq<A>)
    requires forall x :: x in xs ==> |f(x)| == 1
    ensures |Gather(f, xs)| == |xs| && forall i :: 0 <= i < |xs| ==> Gather(f, xs)[i] == f(xs[i])[0]
  {
    if xs != [] {
      assert forall x :: x in xs[1..] ==> x in xs;
      GatherSingles(f, xs[1..]);
    }
  }

  /** Group number `i` is the group of key text number `i`. */
  lemma GroupAt(units: seq<Unit>, spec: Spec, js: Js, i: nat)
    requires i < |Order(units, spec.dims, js)|
    ensures |Groups(units, spec, js)| == |Order(units, spec.dims, js)|
    ensures Groups(units, spec, js)[i] == GroupOf(Members(units, Order(units, spec.dims, js)[i], spec.dims, js), spec.measures, js)
    ensures exists u :: u in units && u.key == Groups(units, spec, js)[i].key
    ensures KeyText(Groups(units, spec, js)[i].key, spec.dims, js) == Order(units, spec.dims, js)[i]
  {
    var order := Order(units, spec.dims, js);
    GatherSingles(GroupFn(units, spec, js), order);
    var members := Members(units, order[i], spec.dims, js);
    OtherMembers(units, order[i], spec.dims, js);
    MembersHave(units, order[i], spec.dims, js, members[0]);
  }

  lemma GroupCount(units: seq<Unit>, spec: Spec, js: Js)
    ensures |Groups(units, spec, js)| == |Order(units, spec.dims, js)|
  {
    GatherSingles(GroupFn(units, spec, js), Order(units, spec.dims, js));
  }

  /** No two groups share a key. */
  lemma GroupKeysDistinct(units: seq<Unit>, spec: Spec, js: Js, i: nat, j: nat)
    requires i < j < |Groups(units, spec, js)|
    ensures Groups(units, spec, js)[i].key != Groups(units, spec, js)[j].key
    ensures KeyText(Groups(units, spec, js)[i].key, spec.dims, js) != KeyText(Groups(units, spec, js)[j].key, spec.dims, js)
  {
    GroupCount(units, spec, js);
    GroupAt(units, spec, js, i);
    GroupAt(units, spec, js, j);
    UniqueFacts(Texts(units, spec.dims, js));
  }

  // ---------------------------------------------------------------- counts are conserved

  function Choices(row: Row, dims: seq<Dimension>): nat {
    if dims == [] then 1 else Choices(row, dims[..|dims| - 1]) * |DimensionValues(row, Last(dims))|
  }

  /** How many units the rows come to: per row, the product of its value counts. */
  function UnitCount(rows: seq<Row>, dims: seq<Dimension>): nat {
    if rows == [] then 0 else Choices(rows[0], dims) + UnitCount(rows[1..], dims)
  }

  lemma {:induction false} CrossSize(keys: seq<Key>, name: string, values: seq<Value>)
    ensures |Cross(keys, name, values)| == |keys| * |values|
  {
    if keys == [] {
      assert 0 * |values| == 0;
    } else {
      CrossSize(keys[1..], name, values);
      assert |keys| * |values| == (|keys| - 1) * |values| + |values|;
    }
  }

  lemma {:induction false} PartialsSize(row: Row, dims: seq<Dimension>)
    ensures |Partials(row, dims)| == Choices(row, dims)
  {
    if dims != [] {
      PartialsSize(row, dims[..|dims| - 1]);
      CrossSize(Partials(row, dims[..|dims| - 1]), Last(dims).name, DimensionValues(row, Last(dims)));
    }
  }

  lemma {:induction false} UnitsSize(rows: seq<Row>, dims: seq<Dimension>)
    ensures |Units(rows, dims)| == UnitCount(rows, dims)
  {
    if rows != [] {
      PartialsSize(rows[0], dims);
      UnitsSize(rows[1..], dims);
    }
  }

  function MemberTotal(units: seq<Unit>, order: seq<string>, dims: seq<Dimension>, js: Js): nat {
    if order == [] then 0 else MemberTotal(units, order[..|order| - 1], dims, js) + |Members(units, Last(order), dims, js)|
  }

  lemma {:induction false} MemberTotalSnoc(units: seq<Unit>, u: Unit, order: seq<string>, dims: seq<Dimension>, js: Js)
    requires Distinct(order)
    ensures MemberTotal(units + [u], order, dims, js)
         == MemberTotal(units, order, dims, js) + (if KeyText(u.key, dims, js) in order then 1 else 0)
  {
    if order != [] {
      var before := order[..|order| - 1];
      assert order == before + [Last(order)];
      MemberTotalSnoc(units, u, before, dims, js);
      GatherSnoc(MemberFn(Last(order), dims, js), units, u);
    }
  }

  lemma {:induction false} MemberTotalIsAll(units: seq<Unit>, dims: seq<Dimension>, js: Js)
    ensures MemberTotal(units, Order(units, dims, js), dims, js) == |units|
  {
    if units != [] {
      var before, u := units[..|units| - 1], Last(units);
      assert units == before + [u];
      MemberTotalIsAll(before, dims, js);
      assert Texts(units, dims, js)[..|before|] == Texts(before, dims, js);
      var order, t := Order(before, dims, js), KeyText(u.key, dims, js);
      UniqueFacts(Texts(before, dims, js));
      MemberTotalSnoc(before, u, order, dims, js);
      if t !in order {
        assert (order + [t])[..|order|] == order;
        OtherMembers(before, t, dims, js);
        GatherSnoc(MemberFn(t, dims, js), before, u);
      }
    }
  }

  /** The values of one measure, summed over the groups. */
  function MeasureSum(groups: seq<Group>, name: string): real {
    if groups == [] then 0.0
    else
      var g := Last(groups);
      MeasureSum(groups[..|groups| - 1], name) + (if name in g.measures && g.measures[name].Some? then g.measures[name].value else 0.0)
  }

  /** Each group's measure `name` is the number of units with its key text. */
  ghost predicate Counts(groups: seq<Group>, units: seq<Unit>, order: seq<string>, dims: seq<Dimension>, js: Js, name: string) {
    |groups| == |order| && forall i :: 0 <= i < |groups| ==>
      name in groups[i].measures && groups[i].measures[name] == Some(|Members(units, order[i], dims, js)| as real)
  }

  lemma {:induction false} CountSum(groups: seq<Group>, units: seq<Unit>, order: seq<string>, dims: seq<Dimension>, js: Js, name: string)
    requires Counts(groups, units, order, dims, js, name)
    ensures MeasureSum(groups, name) == MemberTotal(units, order, dims, js) as real
    decreases |groups|
  {
    if groups != [] {
      CountSum(groups[..|groups| - 1], units, order[..|order| - 1], dims, js, name);
    }
  }

  /** A count measure reads off the size of its group. */
  lemma CountOf(units: seq<Unit>, spec: Spec, js: Js, name: string, i: nat)
    requires LastNamed(spec.measures, name).Some? && LastNamed(spec.measures, name).value.fn.Count?
    requires i < |Order(units, spec.dims, js)| == |Groups(units, spec, js)|
    ensures var g := Groups(units, spec, js)[i];
      name in g.measures && g.measures[name] == Some(|Members(units, Order(units, spec.dims, js)[i], spec.dims, js)| as real)
  {
    GroupAt(units, spec, js, i);
    MeasureNamed(Members(units, Order(units, spec.dims, js)[i], spec.dims, js), spec.measures, js, name);
  }

  /** Before any cut-off the counts add up to the sum, over the rows, of the product of their value counts. */
  lemma CountsConserved(rows: seq<Row>, spec: Spec, js: Js, name: string)
    requires LastNamed(spec.measures, name).Some? && LastNamed(spec.measures, name).value.fn.Count?
    ensures MeasureSum(Groups(Units(rows, spec.dims), spec, js), name) == UnitCount(rows, spec.dims) as real
  {
    var units := Units(rows, spec.dims);
    var groups, order := Groups(units, spec, js), Order(units, spec.dims, js);
    GroupCount(units, spec, js);
    forall i: nat | i < |groups|
      ensures name in groups[i].measures && groups[i].measures[name] == Some(|Members(units, order[i], spec.dims, js)| as real)
    {
      CountOf(units, spec, js, name, i);
    }
    CountSum(groups, units, order, spec.dims, js, name);
    MemberTotalIsAll(units, spec.dims, js);
    UnitsSize(rows, spec.dims);
  }

  // ---------------------------------------------------------------- the sorted order is unique

  /** A dimension yields only numbers, or only texts. */
  ghost predicate OneType(rows: seq<Row>, dim: Dimension) {
    forall r, s, v, w :: r in rows && s in rows && v in DimensionValues(r, dim) && w in DimensionValues(s, dim) ==> (v.Num? <==> w.Num?)
  }

  ghost predicate OneTypePerDimension(rows: seq<Row>, dims: seq<Dimension>) {
    forall d :: d in dims ==> OneType(rows, d)
  }

  /** The sort column holds only numbers (or nothing), or only texts. */
  ghost predicate Comparable(groups: seq<Group>, column: string) {
    forall g, h :: g in groups && h in groups ==> (ValueOf(g, column).S? <==> ValueOf(h, column).S?)
  }

  lemma {:induction false} NamedOneType(rows: seq<Row>, dims: seq<Dimension>, name: string, r: Row, s: Row, v: Value, w: Value)
    requires OneTypePerDimension(rows, dims) && r in rows && s in rows
    requires v in NamedValues(r, dims, name) && w in NamedValues(s, dims, name)
    ensures v.Num? <==> w.Num?
  {
    assert Last(dims) in dims && OneType(rows, Last(dims));
    if Last(dims).name != name {
      assert forall d :: d in dims[..|dims| - 1] ==> d in dims;
      NamedOneType(rows, dims[..|dims| - 1], name, r, s, v, w);
    }
  }

  /** The rest of a group's value in a column: a measure is a number, a key value comes from some row. */
  lemma GroupValue(rows: seq<Row>, spec: Spec, js: Js, column: string, g: Group)
    requires g in Groups(Units(rows, spec.dims), spec, js)
    ensures column in g.measures <==> LastNamed(spec.measures, column).Some?
    ensures g.key.Keys == Names(spec.dims)
    ensures column in g.key ==> exists r :: r in rows && g.key[column] in NamedValues(r, spec.dims, column)
  {
    var units := Units(rows, spec.dims);
    var groups, order := Groups(units, spec, js), Order(units, spec.dims, js);
    GroupCount(units, spec, js);
    var i :| 0 <= i < |groups| && groups[i] == g;
    GroupAt(units, spec, js, i);
    MeasureNamed(Members(units, order[i], spec.dims, js), spec.measures, js, column);
    var u :| u in units && u.key == g.key;
    UnitFrom(rows, spec.dims, u);
    PartialNames(u.row, spec.dims, u.key);
    if column in u.key { PartialValues(u.row, spec.dims, u.key, column); }
  }

  lemma GroupsComparable(rows: seq<Row>, spec: Spec, js: Js, column: string)
    requires OneTypePerDimension(rows, spec.dims)
    ensures Comparable(Groups(Units(rows, spec.dims), spec, js), column)
  {
    var groups := Groups(Units(rows, spec.dims), spec, js);
    forall g, h | g in groups && h in groups ensures ValueOf(g, column).S? <==> ValueOf(h, column).S? {
      GroupValue(rows, spec, js, column, g);
      GroupValue(rows, spec, js, column, h);
      if column !in g.measures && column in g.key {
        var r :| r in rows && g.key[column] in NamedValues(r, spec.dims, column);
        var s :| s in rows && h.key[column] in NamedValues(s, spec.dims, column);
        NamedOneType(rows, spec.dims, column, r, s, g.key[column], h.key[column]);
      }
    }
  }

  lemma PrimaryOrders(a: Ord, b: Ord, c: Ord, dir: Dir, js: Js)
    requires a.S? == b.S? == c.S?
    ensures ComparePrimary(a, b, dir, js) < 0.0 <==> ComparePrimary(b, a, dir, js) > 0.0
    ensures ComparePrimary(a, b, dir, js) == 0.0 <==> a == b
    ensures ComparePrimary(a, b, dir, js) < 0.0 && ComparePrimary(b, c, dir, js) < 0.0 ==> ComparePrimary(a, c, dir, js) < 0.0
  {
    if a.S? {
      StrOrders(a.s, b.s, c.s);
      StrOrders(c.s, b.s, a.s);
    }
  }

  lemma CompareTrans(a: Group, b: Group, c: Group, dims: seq<Dimension>, sort: SortBy, js: Js)
    requires ValueOf(a, sort.column).S? == ValueOf(b, sort.column).S? == ValueOf(c, sort.column).S?
    requires Compare(a, b, dims, sort, js) < 0.0 && Compare(b, c, dims, sort, js) < 0.0
    ensures Compare(a, c, dims, sort, js) < 0.0
  {
    var av, bv, cv := ValueOf(a, sort.column), ValueOf(b, sort.column), ValueOf(c, sort.column);
    PrimaryOrders(av, bv, cv, sort.dir, js);
    PrimaryOrders(av, cv, bv, sort.dir, js);
    StrOrders(KeyText(a.key, dims, js), KeyText(b.key, dims, js), KeyText(c.key, dims, js));
  }

  ghost predicate DistinctTexts(groups: seq<Group>, dims: seq<Dimension>, js: Js) {
    forall i, j :: 0 <= i < j < |groups| ==> KeyText(groups[i].key, dims, js) != KeyText(groups[j].key, dims, js)
  }

  /** With comparable values and distinct keys the comparator is a total order. */
  lemma ComparatorIsTotal(groups: seq<Group>, dims: seq<Dimension>, sort: SortBy, js: Js)
    requires DistinctTexts(groups, dims, js) && Comparable(groups, sort.column)
    ensures OrderOn(NotAfter(dims, sort, js), groups)
  {
    var le := NotAfter(dims, sort, js);
    forall x, y | x in groups && y in groups
      ensures le(x, y) || le(y, x)
      ensures le(x, y) && le(y, x) ==> x == y
    {
      if x != y { PairOrdered(groups, dims, sort, js, x, y); }
    }
    forall x, y, z | x in groups && y in groups && z in groups && le(x, y) && le(y, z) ensures le(x, z) {
      if x != y && y != z { CompareTrans(x, y, z, dims, sort, js); }
    }
  }

  lemma PairOrdered(groups: seq<Group>, dims: seq<Dimension>, sort: SortBy, js: Js, x: Group, y: Group)
    requires DistinctTexts(groups, dims, js) && Comparable(groups, sort.column) && x in groups && y in groups && x != y
    ensures Compare(x, y, dims, sort, js) < 0.0 <==> !(Compare(y, x, dims, sort, js) < 0.0)
  {
    var i :| 0 <= i < |groups| && groups[i] == x;
    var j :| 0 <= j < |groups| && groups[j] == y;
    assert KeyText(x.key, dims, js) != KeyText(y.key, dims, js);
    PrimaryOrders(ValueOf(x, sort.column), ValueOf(y, sort.column), ValueOf(y, sort.column), sort.dir, js);
    StrOrders(KeyText(x.key, dims, js), KeyText(y.key, dims, js), KeyText(y.key, dims, js));
  }

  lemma GroupsOrdered(rows: seq<Row>, spec: Spec, js: Js)
    requires spec.sort.Some? && OneTypePerDimension(rows, spec.dims)
    ensures OrderOn(NotAfter(spec.dims, spec.sort.value, js), Groups(Units(rows, spec.dims), spec, js))
  {
    var units := Units(rows, spec.dims);
    var groups := Groups(units, spec, js);
    forall i, j | 0 <= i < j < |groups|
      ensures KeyText(groups[i].key, spec.dims, js) != KeyText(groups[j].key, spec.dims, js)
    {
      GroupKeysDistinct(units, spec, js, i, j);
    }
    GroupsComparable(rows, spec, js, spec.sort.value.column);
    ComparatorIsTotal(groups, spec.dims, spec.sort.value, js);
  }

  lemma BucketsPermute(u1: seq<Unit>, u2: seq<Unit>, dims: seq<Dimension>, limits: Limits)
    requires multiset(u1) == multiset(u2)
    ensures CheckBuckets(u1, dims, limits) == CheckBuckets(u2, dims, limits)
  {
    SameElements(u1, u2);
    if dims != [] {
      assert Buckets(u1, dims[0].name) == Buckets(u2, dims[0].name);
      BucketsPermute(u1, u2, dims[1..], limits);
    }
  }

  /** With a sort, the whole result (groups, order, cut-off, errors) is the same for every order of the rows. */
  lemma RowOrderIrrelevant(rows: seq<Row>, shuffled: seq<Row>, spec: Spec, limits: Limits, js: Js)
    requires multiset(rows) == multiset(shuffled)
    requires spec.sort.Some? && OneTypePerDimension(rows, spec.dims)
    requires TellsApart(Units(rows, spec.dims), spec.dims, js)
    ensures AggregateRows(rows, spec, limits, js) == AggregateRows(shuffled, spec, limits, js)
  {
    var u1, u2 := Units(rows, spec.dims), Units(shuffled, spec.dims);
    GatherPermutes(UnitsFn(spec.dims), rows, shuffled);
    BucketsPermute(u1, u2, spec.dims, limits);
    GroupsPermute(u1, u2, spec, js);
    GroupsOrdered(rows, spec, js);
    SortOrderFree(NotAfter(spec.dims, spec.sort.value, js), Groups(u1, spec, js), Groups(u2, spec, js));
  }

  /**
   * A successful result shows the first groups of the one sorted arrangement there is; `total` counts all groups and
   * `truncated` says whether some were left out.
   */
  lemma TopOfUniqueOrder(rows: seq<Row>, spec: Spec, limits: Limits, js: Js, sorted: seq<Group>)
    requires spec.sort.Some? && OneTypePerDimension(rows, spec.dims)
    requires AggregateRows(rows, spec, limits, js).Done?
    requires Sorted(NotAfter(spec.dims, spec.sort.value, js), sorted)
    requires multiset(sorted) == multiset(Groups(Units(rows, spec.dims), spec, js))
    ensures var r := AggregateRows(rows, spec, limits, js);
      && r.total == |sorted| && (r.truncated <==> |sorted| > EffectiveLimit(spec, limits))
      && r.groups <= sorted && (!r.truncated ==> r.groups == sorted)
      && (EffectiveLimit(spec, limits) >= 0 ==> |r.groups| == if r.truncated then EffectiveLimit(spec, limits) else |sorted|)
  {
    var groups := Groups(Units(rows, spec.dims), spec, js);
    var le := NotAfter(spec.dims, spec.sort.value, js);
    GroupsOrdered(rows, spec, js);
    SortSorted(le, groups);
    SameElements(groups, sorted);
    assert OrderOn(le, sorted);
    SortedUnique(le, sorted, Sort(le, groups));
  }

  /**
   * In a column `a` lies below `b`: a missing measure below every number, numbers by size, a dimension's texts as texts.
   * A column that is a measure's name shows the measure even if a dimension has that name too.
   */
  predicate BelowIn(a: Group, b: Group, column: string) {
    if column in a.measures && column in b.measures then
      b.measures[column].Some? && (a.measures[column].None? || a.measures[column].value < b.measures[column].value)
    else if column in a.measures || column in b.measures then false
    else if column in a.key && column in b.key then
      match (a.key[column], b.key[column])
      case (Num(m), Num(n)) => m < n
      case (Str(s), Str(t)) => StrLt(s, t)
      case _ => false
    else false
  }

  /** The column does not tell them apart; a name that is neither a measure nor a dimension tells nobody apart. */
  predicate LevelIn(a: Group, b: Group, column: string) {
    if column in a.measures && column in b.measures then a.measures[column] == b.measures[column]
    else if column in a.measures || column in b.measures then false
    else if column in a.key && column in b.key then a.key[column] == b.key[column]
    else column !in a.key && column !in b.key
  }

  /** What the sort promises of two groups in this order: the column in the asked direction, ties by key text. */
  predicate InOrder(a: Group, b: Group, dims: seq<Dimension>, sort: SortBy, js: Js) {
    || (match sort.dir case Asc => BelowIn(a, b, sort.column) case Desc => BelowIn(b, a, sort.column))
    || (LevelIn(a, b, sort.column) && StrLt(KeyText(a.key, dims, js), KeyText(b.key, dims, js)))
  }

  lemma SortedMeaning(rows: seq<Row>, spec: Spec, js: Js, i: nat, j: nat)
    requires spec.sort.Some? && OneTypePerDimension(rows, spec.dims)
    requires i < j < |Groups(Units(rows, spec.dims), spec, js)|
    ensures var sorted := Arranged(Groups(Units(rows, spec.dims), spec, js), spec, js);
      InOrder(sorted[i], sorted[j], spec.dims, spec.sort.value, js)
  {
    var groups := Groups(Units(rows, spec.dims), spec, js);
    var sort, sorted := spec.sort.value, Arranged(groups, spec, js);
    GroupsOrdered(rows, spec, js);
    SortSorted(NotAfter(spec.dims, sort, js), groups);
    SortedTexts(rows, spec, js, i, j);
    GroupsComparable(rows, spec, js, sort.column);
    SameElements(groups, sorted);
    assert sorted[i] in groups && sorted[j] in groups;
    assert NotAfter(spec.dims, sort, js)(sorted[i], sorted[j]);
    GroupValue(rows, spec, js, sort.column, sorted[i]);
    GroupValue(rows, spec, js, sort.column, sorted[j]);
    BeforeMeans(sorted[i], sorted[j], spec.dims, sort, js);
  }

  /** Sorting keeps the key texts distinct. */
  lemma SortedTexts(rows: seq<Row>, spec: Spec, js: Js, i: nat, j: nat)
    requires i < j < |Groups(Units(rows, spec.dims), spec, js)|
    ensures var sorted := Arranged(Groups(Units(rows, spec.dims), spec, js), spec, js);
      KeyText(sorted[i].key, spec.dims, js) != KeyText(sorted[j].key, spec.dims, js)
  {
    var groups := Groups(Units(rows, spec.dims), spec, js);
    var text := (g: Group) => KeyText(g.key, spec.dims, js);
    forall a, b | 0 <= a < b < |groups| ensures text(groups[a]) != text(groups[b]) {
      GroupKeysDistinct(Units(rows, spec.dims), spec, js, a, b);
    }
    assert DistinctBy(text, groups);
    var sorted := Arranged(groups, spec, js);
    DistinctByPermutes(text, groups, sorted);
    assert text(sorted[i]) != text(sorted[j]);
  }

  lemma BeforeMeans(a: Group, b: Group, dims: seq<Dimension>, sort: SortBy, js: Js)
    requires Compare(a, b, dims, sort, js) < 0.0
    requires ValueOf(a, sort.column).S? <==> ValueOf(b, sort.column).S?
    requires (sort.column in a.measures <==> sort.column in b.measures) && (sort.column in a.key <==> sort.column in b.key)
    ensures InOrder(a, b, dims, sort, js)
  {
    var v, w := ValueOf(a, sort.column), ValueOf(b, sort.column);
    if v.S? { StrOrders(v.s, w.s, w.s); }
  }

  // ---------------------------------------------------------------- the median

  function AtMost(m: real): real -> seq<real> {
    (x: real) => if x <= m then [x] else []
  }

  function AtLeast(m: real): real -> seq<real> {
    (x: real) => if x >= m then [x] else []
  }

  lemma {:induction false} GatherAll<A>(f: A -> seq<A>, xs: seq<A>)
    requires forall i :: 0 <= i < |xs| ==> f(xs[i]) == [xs[i]]
    ensures Gather(f, xs) == xs
  {
    if xs != [] {
      GatherAll(f, xs[1..]);
      assert xs == [xs[0]] + xs[1..];
    }
  }

  lemma GatherPart<A>(f: A -> seq<A>, xs: seq<A>, lo: nat, hi: nat)
    requires lo <= hi <= |xs| && forall i :: lo <= i < hi ==> f(xs[i]) == [xs[i]]
    ensures |Gather(f, xs)| >= hi - lo
  {
    assert xs == xs[..lo] + (xs[lo..hi] + xs[hi..]);
    GatherConcat(f, xs[..lo], xs[lo..hi] + xs[hi..]);
    GatherConcat(f, xs[lo..hi], xs[hi..]);
    GatherAll(f, xs[lo..hi]);
  }

  /** At least half of the values lie at or below the median, and at least half at or above it. */
  lemma MedianSplits(values: seq<real>)
    requires values != []
    ensures 2 * |Gather(AtMost(MedianOf(values)), values)| >= |values|
    ensures 2 * |Gather(AtLeast(MedianOf(values)), values)| >= |values|
  {
    var s, m := Sort(RealLe(), values), MedianOf(values);
    RealsOrdered(values);
    SortSorted(RealLe(), values);
    var mid := |s| / 2;
    MedianBetween(values, s, m);
    GatherPart(AtMost(m), s, 0, if |s| % 2 == 0 then mid else mid + 1);
    GatherPart(AtLeast(m), s, mid, |s|);
    GatherPermutes(AtMost(m), s, values);
    GatherPermutes(AtLeast(m), s, values);
    SameSize(Gather(AtMost(m), s), Gather(AtMost(m), values));
    SameSize(Gather(AtLeast(m), s), Gather(AtLeast(m), values));
  }

  lemma MedianBetween(values: seq<real>, s: seq<real>, m: real)
    requires values != [] && s == Sort(RealLe(), values) && m == MedianOf(values) && Sorted(RealLe(), s)
    ensures forall i :: 0 <= i < (if |s| % 2 == 0 then |s| / 2 else |s| / 2 + 1) ==> s[i] <= m
    ensures forall i :: |s| / 2 <= i < |s| ==> s[i] >= m
  {
    var mid := |s| / 2;
    forall i | 0 <= i < (if |s| % 2 == 0 then mid else mid + 1) ensures s[i] <= m {
      if |s| % 2 == 0 { assert RealLe()(s[i], s[mid - 1]) && RealLe()(s[mid - 1], s[mid]); }
      else { assert RealLe()(s[i], s[mid]); }
    }
    forall i | mid <= i < |s| ensures s[i] >= m {
      assert RealLe()(s[mid], s[i]);
      if |s| % 2 == 0 { assert RealLe()(s[mid - 1], s[mid]); }
    }
  }

  /** Mixing numbers and texts in one sort column makes the comparator cyclic, so no order exists. */
  lemma MixedTypesCycle(js: Js, name: string)
    requires js.number(9.0) == "9" && js.number(10.0) == "10"
    ensures var ten, text, nine := Group(map[name := Num(10.0)], map[]), Group(map[name := Str("2x")], map[]), Group(map[name := Num(9.0)], map[]);
      var sort := SortBy(name, Asc);
      && Compare(ten, text, [], sort, js) < 0.0 && Compare(text, nine, [], sort, js) < 0.0 && Compare(nine, ten, [], sort, js) < 0.0
  {
    assert StrLe("10", "2x") && StrLe("2x", "9");
  }

  /** A request passes the static checks exactly when it stays within the closed grammar. */
  lemma SpecAcceptedIff(spec: Spec, limits: Limits)
    ensures CheckSpec(spec, limits).None? <==>
      && 1 <= |spec.dims| <= 2
      && (forall d :: d in spec.dims && d.Bucket? ==> d.width > 0.0)
      && (forall m :: m in spec.measures && m.field.None? ==> m.fn.Count? || m.fn.CountDistinct?)
      && (spec.limit.Some? ==> spec.limit.value <= limits.maxGroups)
  {
    WidthsOk(spec.dims);
    MeasuresOk(spec.measures);
  }

  lemma {:induction false} WidthsOk(dims: seq<Dimension>)
    ensures BadWidth(dims).None? <==> forall d :: d in dims && d.Bucket? ==> d.width > 0.0
  {
    if dims != [] {
      WidthsOk(dims[1..]);
      assert dims == [dims[0]] + dims[1..];
      assert dims[0] in dims;
    }
  }

  lemma {:induction false} MeasuresOk(measures: seq<Measure>)
    ensures BadMeasure(measures).None? <==> forall m :: m in measures && m.field.None? ==> m.fn.Count? || m.fn.CountDistinct?
  {
    if measures != [] {
      MeasuresOk(measures[1..]);
      assert measures == [measures[0]] + measures[1..];
      assert measures[0] in measures;
    }
  }
}
