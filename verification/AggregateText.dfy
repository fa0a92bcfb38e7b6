/** Key texts are JSON text, as JSON.stringify writes it: they tell keys apart as soon as number texts tell numbers apart. */
module AggregateText {
  import opened Base
  import opened Aggregate
  import opened AggregateLaws
  import JsonText

  type NumberText = real -> string

  function ValueJson(v: Option<Value>, number: NumberText): JsonText.Json {
    if v.None? then JsonText.Null
    else match v.value
      case Num(n) => JsonText.Number(number(n))
      case Str(s) => JsonText.Text(s)
  }

  function TupleJson(tuple: seq<Option<Value>>, number: NumberText): (r: seq<JsonText.Json>)
    ensures |r| == |tuple|
  {
    seq(|tuple|, i requires 0 <= i < |tuple| => ValueJson(tuple[i], number))
  }

  /** JavaScript's own texts, given how it shows a field and how it writes a number. */
  function JsonJs(show: Option<Raw> -> string, number: NumberText): Js {
    Js(show, tuple => JsonText.Print(JsonText.Array(TupleJson(tuple, number))), number)
  }

  predicate Apart(x: Value, y: Value, number: NumberText) {
    x.Num? && y.Num? && number(x.n) == number(y.n) ==> x == y
  }

  /** The numbers among these keys have number texts, and different numbers have different ones. */
  ghost predicate NumbersApart(units: seq<Unit>, number: NumberText) {
    && (forall u, d :: u in units && d in u.key && u.key[d].Num? ==> JsonText.Lexeme(number(u.key[d].n)))
    && (forall u, v, d :: u in units && v in units && d in u.key && d in v.key ==> Apart(u.key[d], v.key[d], number))
  }

  lemma TuplePrintable(units: seq<Unit>, dims: seq<Dimension>, number: NumberText, u: Unit)
    requires NumbersApart(units, number) && u in units
    ensures JsonText.Printable(JsonText.Array(TupleJson(Tuple(u.key, dims), number)))
  {
  }

  lemma SameTextSameKey(units: seq<Unit>, dims: seq<Dimension>, show: Option<Raw> -> string, number: NumberText, u: Unit, v: Unit)
    requires KeyedBy(units, dims) && NumbersApart(units, number) && u in units && v in units
    requires KeyText(u.key, dims, JsonJs(show, number)) == KeyText(v.key, dims, JsonJs(show, number))
    ensures u.key == v.key
  {
    var a, b := TupleJson(Tuple(u.key, dims), number), TupleJson(Tuple(v.key, dims), number);
    TuplePrintable(units, dims, number, u);
    TuplePrintable(units, dims, number, v);
    JsonText.PrintInjective(JsonText.Array(a), JsonText.Array(b));
    forall name | name in u.key ensures u.key[name] == v.key[name] {
      var d :| d in dims && d.name == name;
      var i :| 0 <= i < |dims| && dims[i] == d;
      assert a[i] == b[i] && a[i] == ValueJson(Some(u.key[name]), number) && b[i] == ValueJson(Some(v.key[name]), number);
    }
  }

  /** JSON key texts tell keys apart whenever the number texts tell the keys' numbers apart. */
  lemma JsonTellsApart(units: seq<Unit>, dims: seq<Dimension>, show: Option<Raw> -> string, number: NumberText)
    requires KeyedBy(units, dims) && NumbersApart(units, number)
    ensures TellsApart(units, dims, JsonJs(show, number))
  {
    forall u, v | u in units && v in units && KeyText(u.key, dims, JsonJs(show, number)) == KeyText(v.key, dims, JsonJs(show, number))
      ensures u.key == v.key
    {
      SameTextSameKey(units, dims, show, number, u, v);
    }
  }

  /** Rows in any order give the same result under JavaScript's texts. */
  lemma RowOrderIrrelevantInJson(rows: seq<Row>, shuffled: seq<Row>, spec: Spec, limits: Limits,
                                 show: Option<Raw> -> string, number: NumberText)
    requires multiset(rows) == multiset(shuffled)
    requires spec.sort.Some? && OneTypePerDimension(rows, spec.dims)
    requires NumbersApart(Units(rows, spec.dims), number)
    ensures AggregateRows(rows, spec, limits, JsonJs(show, number)) == AggregateRows(shuffled, spec, limits, JsonJs(show, number))
  {
    UnitsKeyed(rows, spec.dims);
    JsonTellsApart(Units(rows, spec.dims), spec.dims, show, number);
    RowOrderIrrelevant(rows, shuffled, spec, limits, JsonJs(show, number));
  }

  ghost predicate WholeNumbers(units: seq<Unit>) {
    forall u, d :: u in units && d in u.key && u.key[d].Num? ==> u.key[d].n == u.key[d].n.Floor as real
  }

  function WholeText(): NumberText {
    (n: real) => IntText(n.Floor)
  }

  lemma WholeLexeme(n: real)
    ensures JsonText.Lexeme(WholeText()(n))
  {
    DigitsFacts(if n.Floor < 0 then -n.Floor else n.Floor);
  }

  lemma WholeApart(x: Value, y: Value)
    requires x.Num? ==> x.n == x.n.Floor as real
    requires y.Num? ==> y.n == y.n.Floor as real
    ensures Apart(x, y, WholeText())
  {
    if x.Num? && y.Num? && WholeText()(x.n) == WholeText()(y.n) { IntTextInjective(x.n.Floor, y.n.Floor); }
  }

  /** Decimal text is such a number text for whole numbers. */
  lemma WholeNumbersApart(units: seq<Unit>)
    requires WholeNumbers(units)
    ensures NumbersApart(units, WholeText())
  {
    forall u, d | u in units && d in u.key && u.key[d].Num? ensures JsonText.Lexeme(WholeText()(u.key[d].n)) {
      WholeLexeme(u.key[d].n);
    }
    forall u, v, d | u in units && v in units && d in u.key && d in v.key ensures Apart(u.key[d], v.key[d], WholeText()) {
      WholeApart(u.key[d], v.key[d]);
    }
  }
}
