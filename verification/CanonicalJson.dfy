/** The canonical form: object keys sorted at every depth, arrays kept in order. */
module CanonicalJson {
  import opened Base
  import opened Gathering
  import opened JsonText
  import opened Sorting
  import opened Strings

  /** A key that is an array index is enumerated before all other keys, by its number. */
  predicate IndexKey(k: string) {
    k == "0" || (1 <= |k| <= 10 && k[0] != '0' && (forall i :: 0 <= i < |k| ==> Digit(k[i])) && (|k| == 10 ==> StrLe(k, "4294967294")))
  }

  /** The enumeration order of the object that the sorted keys are put into one after the other. */
  function KeyLe(a: string, b: string): bool {
    if IndexKey(a) != IndexKey(b) then IndexKey(a)
    else if IndexKey(a) && |a| != |b| then |a| < |b|
    else StrLe(a, b)
  }

  function FieldLe(): (Field, Field) -> bool {
    (f: Field, g: Field) => KeyLe(f.key, g.key)
  }

  function Canonicalize(v: Json): Json
    decreases v, 1
  {
    match v
    case Array(items) => Array(CanonItems(items))
    case Object(fields) => Object(Sort(FieldLe(), CanonFields(fields)))
    case _ => v
  }

  function CanonItems(items: seq<Json>): (r: seq<Json>)
    ensures |r| == |items|
    decreases items, 0
  {
    seq(|items|, i requires 0 <= i < |items| => Canonicalize(items[i]))
  }

  function CanonFields(fields: seq<Field>): (r: seq<Field>)
    ensures |r| == |fields| && forall i :: 0 <= i < |r| ==> r[i].key == fields[i].key
    decreases fields, 0
  {
    seq(|fields|, i requires 0 <= i < |fields| => Field(fields[i].key, Canonicalize(fields[i].value)))
  }

  function CanonicalString(v: Json): string {
    Print(Canonicalize(v))
  }

  /** No object repeats a key, and all numbers are proper: what parsing or building a value leaves you with. */
  ghost predicate Proper(v: Json)
    decreases v
  {
    match v
    case Number(lexeme) => Lexeme(lexeme)
    case Array(items) => forall i :: 0 <= i < |items| ==> Proper(items[i])
    case Object(fields) => KeysDistinct(fields) && forall i :: 0 <= i < |fields| ==> Proper(fields[i].value)
    case _ => true
  }

  ghost predicate KeysDistinct(fields: seq<Field>) {
    forall i, j :: 0 <= i < j < |fields| ==> fields[i].key != fields[j].key
  }

  /** Equal up to the order of object keys, at every depth. */
  ghost predicate Same(a: Json, b: Json)
    decreases a, 2
  {
    match a
    case Array(xs) => b.Array? && |xs| == |b.items| && forall i :: 0 <= i < |xs| ==> Same(xs[i], b.items[i])
    case Object(fs) => b.Object? && SameFields(fs, b.fields)
    case _ => a == b
  }

  /** Every field of either object has a twin in the other. */
  ghost predicate SameFields(fs: seq<Field>, gs: seq<Field>)
    decreases fs, 1
  {
    && (forall i :: 0 <= i < |fs| ==> TwinAmong(fs[i], gs))
    && (forall j :: 0 <= j < |gs| ==> TwinOf(fs, gs[j]))
  }

  ghost predicate TwinAmong(f: Field, gs: seq<Field>)
    decreases f, 1
  {
    exists j :: 0 <= j < |gs| && Twin(f, gs[j])
  }

  ghost predicate TwinOf(fs: seq<Field>, g: Field)
    decreases fs, 0
  {
    exists i :: 0 <= i < |fs| && Twin(fs[i], g)
  }

  ghost predicate Twin(f: Field, g: Field)
    decreases f, 0
  {
    f.key == g.key && Same(f.value, g.value)
  }

  // ---------------------------------------------------------------- the key order is total

  lemma KeyLeTotal(a: string, b: string)
    ensures KeyLe(a, b) || KeyLe(b, a)
    ensures KeyLe(a, b) && KeyLe(b, a) ==> a == b
  {
    StrLeTotal(a, b);
  }

  lemma KeyLeTrans(a: string, b: string, c: string)
    requires KeyLe(a, b) && KeyLe(b, c)
    ensures KeyLe(a, c)
  {
    if StrLe(a, b) && StrLe(b, c) { StrLeTrans(a, b, c); }
  }

  lemma FieldsOrdered(fields: seq<Field>)
    requires KeysDistinct(fields)
    ensures OrderOn(FieldLe(), fields)
  {
    var le := FieldLe();
    forall f, g | f in fields && g in fields
      ensures le(f, g) || le(g, f)
      ensures le(f, g) && le(g, f) ==> f == g
    {
      KeyLeTotal(f.key, g.key);
      var i :| 0 <= i < |fields| && fields[i] == f;
      var j :| 0 <= j < |fields| && fields[j] == g;
      assert f.key == g.key ==> i == j;
    }
    forall f, g, h | f in fields && g in fields && h in fields && le(f, g) && le(g, h) ensures le(f, h) {
      KeyLeTrans(f.key, g.key, h.key);
    }
  }

  /** Array indices come first, by size; all other keys follow in code unit order. */
  predicate KeyBefore(a: string, b: string) {
    if IndexKey(a) then !IndexKey(b) || |a| < |b| || (|a| == |b| && StrLt(a, b)) else !IndexKey(b) && StrLt(a, b)
  }

  /** A digit is an index, and so is any longer number of up to nine digits; a leading zero or a sign makes it none. */
  lemma IndexKeysAre(k: string)
    ensures |k| == 1 ==> (IndexKey(k) <==> '0' <= k[0] <= '9')
    ensures |k| > 10 || k == "" ==> !IndexKey(k)
    ensures |k| > 1 && !('1' <= k[0] <= '9') ==> !IndexKey(k)
    ensures 1 < |k| < 10 ==> (IndexKey(k) <==> k[0] != '0' && forall i :: 0 <= i < |k| ==> '0' <= k[i] <= '9')
  {
  }

  /** A canonical object has the same fields, each with a canonical value, in ascending key order; a list keeps its order. */
  lemma CanonicalAscends(fields: seq<Field>, items: seq<Json>, i: nat, j: nat)
    requires KeysDistinct(fields)
    ensures var c := Canonicalize(Object(fields));
      && c.Object? && multiset(c.fields) == multiset(CanonFields(fields))
      && (i < j < |fields| ==> KeyBefore(c.fields[i].key, c.fields[j].key))
    ensures var l := Canonicalize(Array(items));
      l.Array? && |l.items| == |items| && (i < |items| ==> l.items[i] == Canonicalize(items[i]))
  {
    var canon := CanonFields(fields);
    var sorted := Sort(FieldLe(), canon);
    FieldsOrdered(canon);
    SortSorted(FieldLe(), canon);
    if i < j < |fields| {
      assert FieldLe()(sorted[i], sorted[j]);
      SortedKeysDiffer(canon, i, j);
    }
  }

  lemma SortedKeysDiffer(fields: seq<Field>, i: nat, j: nat)
    requires KeysDistinct(fields) && i < j < |fields|
    ensures Sort(FieldLe(), fields)[i].key != Sort(FieldLe(), fields)[j].key
  {
    var key, sorted := (f: Field) => f.key, Sort(FieldLe(), fields);
    assert DistinctBy(key, fields);
    DistinctByPermutes(key, fields, sorted);
    assert key(sorted[i]) != key(sorted[j]);
  }

  // ---------------------------------------------------------------- same values have the same canonical form

  /** The canonical forms of the fields of `fs` all occur among those of `gs`. */
  ghost predicate FieldsWithin(fs: seq<Field>, gs: seq<Field>) {
    forall f :: f in CanonFields(fs) ==> f in CanonFields(gs)
  }

  lemma SortedAlike(fs: seq<Field>, gs: seq<Field>)
    requires KeysDistinct(fs) && KeysDistinct(gs) && FieldsWithin(fs, gs) && FieldsWithin(gs, fs)
    ensures Sort(FieldLe(), CanonFields(fs)) == Sort(FieldLe(), CanonFields(gs))
  {
    var cf, cg := CanonFields(fs), CanonFields(gs);
    assert Distinct(cf) by { forall i, j | 0 <= i < j < |cf| ensures cf[i] != cf[j] { assert cf[i].key != cf[j].key; } }
    assert Distinct(cg) by { forall i, j | 0 <= i < j < |cg| ensures cg[i] != cg[j] { assert cg[i].key != cg[j].key; } }
    DistinctSameElements(cf, cg);
    FieldsOrdered(cf);
    SortOrderFree(FieldLe(), cf, cg);
  }

  lemma {:induction false} SameCanonical(a: Json, b: Json)
    requires Proper(a) && Proper(b) && Same(a, b)
    ensures Canonicalize(a) == Canonicalize(b)
    decreases a, 1
  {
    match a
    case Array(xs) =>
      forall i | 0 <= i < |xs| ensures CanonItems(xs)[i] == CanonItems(b.items)[i] { SameCanonical(xs[i], b.items[i]); }
    case Object(fs) =>
      SameCanonicalFields(fs, b.fields);
      SortedAlike(fs, b.fields);
    case _ =>
  }

  lemma {:induction false} SameCanonicalFields(fs: seq<Field>, gs: seq<Field>)
    requires Proper(Object(fs)) && Proper(Object(gs)) && SameFields(fs, gs)
    ensures FieldsWithin(fs, gs) && FieldsWithin(gs, fs)
    decreases fs, 1
  {
    forall i | 0 <= i < |fs| ensures CanonFields(fs)[i] in CanonFields(gs) {
      assert TwinAmong(fs[i], gs);
      var j :| 0 <= j < |gs| && Twin(fs[i], gs[j]);
      TwinCanonical(fs, gs, i, j);
      assert CanonFields(gs)[j] in CanonFields(gs);
    }
    forall j | 0 <= j < |gs| ensures CanonFields(gs)[j] in CanonFields(fs) {
      assert TwinOf(fs, gs[j]);
      var i :| 0 <= i < |fs| && Twin(fs[i], gs[j]);
      TwinCanonical(fs, gs, i, j);
      assert CanonFields(fs)[i] in CanonFields(fs);
    }
  }

  lemma {:induction false} TwinCanonical(fs: seq<Field>, gs: seq<Field>, i: nat, j: nat)
    requires Proper(Object(fs)) && Proper(Object(gs)) && i < |fs| && j < |gs| && Twin(fs[i], gs[j])
    ensures CanonFields(fs)[i] == CanonFields(gs)[j]
    decreases fs, 0
  {
    SameCanonical(fs[i].value, gs[j].value);
  }

  // ---------------------------------------------------------------- the canonical form determines the value

  lemma CanonFieldsAlike(fs: seq<Field>, gs: seq<Field>)
    requires Sort(FieldLe(), CanonFields(fs)) == Sort(FieldLe(), CanonFields(gs))
    ensures FieldsWithin(fs, gs) && FieldsWithin(gs, fs)
  {
    SameElements(CanonFields(fs), CanonFields(gs));
  }

  lemma {:induction false} CanonicalSame(a: Json, b: Json)
    requires Canonicalize(a) == Canonicalize(b)
    ensures Same(a, b)
    decreases a, 1
  {
    match a
    case Array(xs) =>
      forall i | 0 <= i < |xs| ensures Same(xs[i], b.items[i]) {
        assert CanonItems(xs)[i] == CanonItems(b.items)[i];
        CanonicalSame(xs[i], b.items[i]);
      }
    case Object(fs) =>
      CanonFieldsAlike(fs, b.fields);
      CanonicalSameFields(fs, b.fields);
    case _ =>
  }

  lemma {:induction false} CanonicalSameFields(fs: seq<Field>, gs: seq<Field>)
    requires FieldsWithin(fs, gs) && FieldsWithin(gs, fs)
    ensures SameFields(fs, gs)
    decreases fs, 0
  {
    forall i | 0 <= i < |fs| ensures TwinAmong(fs[i], gs) {
      assert CanonFields(fs)[i] in CanonFields(gs);
      var j :| 0 <= j < |gs| && CanonFields(gs)[j] == CanonFields(fs)[i];
      CanonicalSame(fs[i].value, gs[j].value);
      assert Twin(fs[i], gs[j]);
    }
    forall j | 0 <= j < |gs| ensures TwinOf(fs, gs[j]) {
      assert CanonFields(gs)[j] in CanonFields(fs);
      var i :| 0 <= i < |fs| && CanonFields(fs)[i] == CanonFields(gs)[j];
      CanonicalSame(fs[i].value, gs[j].value);
      assert Twin(fs[i], gs[j]);
    }
  }

  lemma {:induction false} CanonicalPrintable(v: Json)
    requires Proper(v)
    ensures Printable(Canonicalize(v))
    decreases v
  {
    match v
    case Array(items) =>
      forall i | 0 <= i < |items| ensures Printable(CanonItems(items)[i]) { CanonicalPrintable(items[i]); }
    case Object(fields) =>
      var canon := CanonFields(fields);
      forall f | f in canon ensures Printable(f.value) {
        var i :| 0 <= i < |fields| && canon[i] == f;
        CanonicalPrintable(fields[i].value);
      }
      var sorted := Sort(FieldLe(), canon);
      SameElements(canon, sorted);
      forall i | 0 <= i < |sorted| ensures Printable(sorted[i].value) { assert sorted[i] in canon; }
    case _ =>
  }

  /** Two values have one canonical string exactly when they are equal up to object key order at every depth. */
  lemma CanonicalStringIffSame(a: Json, b: Json)
    requires Proper(a) && Proper(b)
    ensures CanonicalString(a) == CanonicalString(b) <==> Same(a, b)
  {
    CanonicalPrintable(a);
    CanonicalPrintable(b);
    PrintInjective(Canonicalize(a), Canonicalize(b));
    if Same(a, b) { SameCanonical(a, b); }
    if Canonicalize(a) == Canonicalize(b) { CanonicalSame(a, b); }
  }

  lemma SameAsItself(v: Json)
    ensures Same(v, v)
  {
    CanonicalSame(v, v);
  }
}
