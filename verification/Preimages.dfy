/** What the content hashes are taken of. SHA-256 itself is not modelled: two hashes agree when their preimages do. */
module Preimages {
  import opened Base
  import opened CanonicalJson
  import opened Gathering
  import opened JsonText
  import opened Sorting
  import opened Strings

  // ---------------------------------------------------------------- idempotency key

  function OwnerJson(owner: Option<string>): Json {
    if owner.Some? then Text(owner.value) else Null
  }

  /** The distinct normalised seeds, sorted. */
  function SeedList(seeds: seq<string>, norm: Norm): seq<string> {
    Sort(StrLe, Unique(NormalizeAll(seeds, norm)))
  }

  function TextItems(texts: seq<string>): (r: seq<Json>)
    ensures |r| == |texts|
  {
    seq(|texts|, i requires 0 <= i < |texts| => Text(texts[i]))
  }

  function IdempotencyPreimage(seeds: seq<string>, params: Json, owner: Option<string>, norm: Norm): string {
    Print(RequestJson(owner, SeedList(seeds, norm), Canonicalize(params)))
  }

  function RequestJson(owner: Option<string>, seedList: seq<string>, params: Json): Json {
    Object([Field("owner", OwnerJson(owner)), Field("seeds", Array(TextItems(seedList))), Field("params", params)])
  }

  lemma StringsOrdered(s: seq<string>)
    ensures OrderOn(StrLe, s)
  {
    forall a, b ensures StrLe(a, b) || StrLe(b, a) ensures StrLe(a, b) && StrLe(b, a) ==> a == b { StrLeTotal(a, b); }
    forall a, b, c | StrLe(a, b) && StrLe(b, c) ensures StrLe(a, c) { StrLeTrans(a, b, c); }
  }

  /** The seed list is a function of the set of normalised seeds, and determines it. */
  lemma SeedListIffSameSet(seeds: seq<string>, others: seq<string>, norm: Norm)
    ensures SeedList(seeds, norm) == SeedList(others, norm)
       <==> (forall k :: k in NormalizeAll(seeds, norm) <==> k in NormalizeAll(others, norm))
  {
    var a, b := Unique(NormalizeAll(seeds, norm)), Unique(NormalizeAll(others, norm));
    UniqueFacts(NormalizeAll(seeds, norm));
    UniqueFacts(NormalizeAll(others, norm));
    SameElements(a, SeedList(seeds, norm));
    SameElements(b, SeedList(others, norm));
    if forall k :: k in a <==> k in b {
      DistinctSameElements(a, b);
      StringsOrdered(a);
      SortOrderFree(StrLe, a, b);
    }
  }

  /** The seed list: every normalised seed once, in code unit order. */
  lemma SeedListIs(seeds: seq<string>, norm: Norm)
    ensures var list := SeedList(seeds, norm);
      && (forall k :: k in list <==> exists i :: 0 <= i < |seeds| && norm(seeds[i]) == k)
      && (forall i, j :: 0 <= i < j < |list| ==> StrLt(list[i], list[j]))
  {
    var keys := NormalizeAll(seeds, norm);
    var once, list := Unique(keys), SeedList(seeds, norm);
    UniqueFacts(keys);
    SameElements(once, list);
    StringsOrdered(once);
    SortSorted(StrLe, once);
    forall k ensures k in list <==> exists i :: 0 <= i < |seeds| && norm(seeds[i]) == k {
      if k in keys { var i :| 0 <= i < |keys| && keys[i] == k; assert norm(seeds[i]) == k; }
      if i :| 0 <= i < |seeds| && norm(seeds[i]) == k { assert keys[i] == k; }
    }
    forall i, j | 0 <= i < j < |list| ensures StrLt(list[i], list[j]) {
      assert StrLe(list[i], list[j]);
      DistinctCounts(once, list[i]);
      if list[i] == list[j] { CountTwice(list, i, j); }
    }
  }

  lemma TextItemsInjective(a: seq<string>, b: seq<string>)
    ensures TextItems(a) == TextItems(b) <==> a == b
  {
    if TextItems(a) == TextItems(b) {
      forall i | 0 <= i < |a| ensures |a| == |b| && a[i] == b[i] { assert TextItems(a)[i] == TextItems(b)[i]; }
      assert |a| == |TextItems(a)| == |b|;
    }
  }

  lemma RequestJsonInjective(owner: Option<string>, list: seq<string>, params: Json,
                             owner': Option<string>, list': seq<string>, params': Json)
    requires Printable(params) && Printable(params')
    ensures Print(RequestJson(owner, list, params)) == Print(RequestJson(owner', list', params'))
       <==> owner == owner' && list == list' && params == params'
  {
    var a, b := RequestJson(owner, list, params), RequestJson(owner', list', params');
    PrintInjective(a, b);
    if a == b {
      assert a.fields[0] == b.fields[0] && a.fields[1] == b.fields[1] && a.fields[2] == b.fields[2];
      TextItemsInjective(list, list');
    }
  }

  lemma CanonicalIffSame(a: Json, b: Json)
    requires Proper(a) && Proper(b)
    ensures Canonicalize(a) == Canonicalize(b) <==> Same(a, b)
  {
    if Same(a, b) { SameCanonical(a, b); }
    if Canonicalize(a) == Canonicalize(b) { CanonicalSame(a, b); }
  }

  predicate PlainKey(key: string) {
    forall i :: 0 <= i < |key| ==> key[i] as int >= 0x20 && key[i] != '"' && key[i] != '\\'
  }

  function NamedText(key: string, value: string): string { "\"" + key + "\"" + ":" + value }

  lemma NamedField(key: string, value: Json)
    requires PlainKey(key)
    ensures PrintField(Field(key, value)) == NamedText(key, Print(value))
  {
    PlainQuoted(key);
  }

  lemma ThreeFields(f: Field, g: Field, h: Field)
    ensures Print(Object([f, g, h])) == "{" + PrintField(f) + ("," + PrintField(g) + ("," + PrintField(h) + "}"))
  {
    assert [f, g, h][1..] == [g, h] && [g, h][1..] == [h] && [h][1..] == [];
    assert PrintFields([h]) == "," + PrintField(h) + PrintFields([]);
    assert PrintFields([g, h]) == "," + PrintField(g) + PrintFields([h]);
  }

  lemma ThreeNamed(f: Field, g: Field, h: Field)
    requires PlainKey(f.key) && PlainKey(g.key) && PlainKey(h.key)
    ensures Print(Object([f, g, h]))
         == "{" + NamedText(f.key, Print(f.value)) + ("," + NamedText(g.key, Print(g.value)) + ("," + NamedText(h.key, Print(h.value)) + "}"))
  {
    ThreeFields(f, g, h);
    NamedField(f.key, f.value);
    NamedField(g.key, g.value);
    NamedField(h.key, h.value);
  }

  lemma PlainNames()
    ensures PlainKey("owner") && PlainKey("seeds") && PlainKey("params")
  {}

  /** The text that is hashed: owner, seeds and canonical parameters under these names, in this order. */
  lemma IdempotencyText(seeds: seq<string>, params: Json, owner: Option<string>, norm: Norm, who: Json, list: Json)
    requires who == if owner.Some? then Text(owner.value) else Null
    requires list.Array? && |list.items| == |SeedList(seeds, norm)|
    requires forall i :: 0 <= i < |list.items| ==> list.items[i] == Text(SeedList(seeds, norm)[i])
    ensures IdempotencyPreimage(seeds, params, owner, norm)
         == "{" + NamedText("owner", Print(who)) + ("," + NamedText("seeds", Print(list)) + ("," + NamedText("params", CanonicalString(params)) + "}"))
  {
    PlainNames();
    assert list.items == TextItems(SeedList(seeds, norm));
    ThreeNamed(Field("owner", who), Field("seeds", list), Field("params", Canonicalize(params)));
  }

  /** Two requests share an idempotency key exactly when owner, set of normalised seeds and parameters agree. */
  lemma IdempotencyPreimageIff(seeds: seq<string>, params: Json, owner: Option<string>,
                               seeds': seq<string>, params': Json, owner': Option<string>, norm: Norm)
    requires Proper(params) && Proper(params')
    ensures IdempotencyPreimage(seeds, params, owner, norm) == IdempotencyPreimage(seeds', params', owner', norm)
       <==> && owner == owner'
            && (forall k :: k in NormalizeAll(seeds, norm) <==> k in NormalizeAll(seeds', norm))
            && Same(params, params')
  {
    CanonicalPrintable(params);
    CanonicalPrintable(params');
    RequestJsonInjective(owner, SeedList(seeds, norm), Canonicalize(params), owner', SeedList(seeds', norm), Canonicalize(params'));
    SeedListIffSameSet(seeds, seeds', norm);
    CanonicalIffSame(params, params');
  }

  /** Naming the same seeds again, in another order or more often, is the same request. */
  lemma SeedOrderAndRepeatsIrrelevant(seeds: seq<string>, again: seq<string>, params: Json, owner: Option<string>, norm: Norm)
    requires Proper(params)
    requires forall s :: s in seeds <==> s in again
    ensures IdempotencyPreimage(seeds, params, owner, norm) == IdempotencyPreimage(again, params, owner, norm)
  {
    SameAsItself(params);
    NormalizeMember(seeds, again, norm);
    NormalizeMember(again, seeds, norm);
    IdempotencyPreimageIff(seeds, params, owner, again, params, owner, norm);
  }

  lemma NormalizeMember(a: seq<string>, b: seq<string>, norm: Norm)
    requires forall s :: s in a ==> s in b
    ensures forall k :: k in NormalizeAll(a, norm) ==> k in NormalizeAll(b, norm)
  {
    forall k | k in NormalizeAll(a, norm) ensures k in NormalizeAll(b, norm) {
      var i :| 0 <= i < |a| && NormalizeAll(a, norm)[i] == k;
      assert a[i] in b;
      var j :| 0 <= j < |b| && b[j] == a[i];
      assert NormalizeAll(b, norm)[j] == k;
    }
  }

  // ---------------------------------------------------------------- capture content hash

  function CapturePreimage(owner: Option<string>, source: string, version: string, item: Json): string {
    CanonicalString(CaptureJson(owner, source, version, item))
  }

  function CaptureJson(owner: Option<string>, source: string, version: string, item: Json): Json {
    Object([Field("owner", OwnerJson(owner)), Field("source", Text(source)), Field("schemaVersion", Text(version)), Field("item", item)])
  }

  lemma SameLeaf(a: Json, b: Json)
    requires !a.Array? && !a.Object?
    ensures Same(a, b) <==> a == b
  {
  }

  lemma CaptureKeys(owner: Option<string>, source: string, version: string, item: Json)
    ensures var fs := CaptureJson(owner, source, version, item).fields;
      && |fs| == 4 && KeysDistinct(fs)
      && fs[0] == Field("owner", OwnerJson(owner)) && fs[1] == Field("source", Text(source))
      && fs[2] == Field("schemaVersion", Text(version)) && fs[3] == Field("item", item)
  {
    assert |"owner"| == 5 && |"source"| == 6 && |"schemaVersion"| == 13 && |"item"| == 4;
  }

  lemma FourFields(fs: seq<Field>, gs: seq<Field>)
    requires |fs| == |gs| == 4 && forall i :: 0 <= i < 4 ==> fs[i].key == gs[i].key
    ensures (forall i :: 0 <= i < 4 ==> Twin(fs[i], gs[i]))
       <==> Same(fs[0].value, gs[0].value) && Same(fs[1].value, gs[1].value) && Same(fs[2].value, gs[2].value) && Same(fs[3].value, gs[3].value)
  {
    assert Twin(fs[0], gs[0]) <==> Same(fs[0].value, gs[0].value);
    assert Twin(fs[1], gs[1]) <==> Same(fs[1].value, gs[1].value);
    assert Twin(fs[2], gs[2]) <==> Same(fs[2].value, gs[2].value);
    assert Twin(fs[3], gs[3]) <==> Same(fs[3].value, gs[3].value);
  }

  /** With the same distinct keys in the same places, twins are found by position. */
  lemma TwinsByPosition(fs: seq<Field>, gs: seq<Field>)
    requires |fs| == |gs| && KeysDistinct(fs) && forall i :: 0 <= i < |fs| ==> fs[i].key == gs[i].key
    ensures SameFields(fs, gs) <==> forall i :: 0 <= i < |fs| ==> Twin(fs[i], gs[i])
  {
    if SameFields(fs, gs) {
      forall i | 0 <= i < |fs| ensures Twin(fs[i], gs[i]) {
        assert TwinAmong(fs[i], gs);
        var j :| 0 <= j < |gs| && Twin(fs[i], gs[j]);
        assert fs[j].key == gs[j].key == fs[i].key;
      }
    }
    if forall i :: 0 <= i < |fs| ==> Twin(fs[i], gs[i]) {
      forall i | 0 <= i < |fs| ensures TwinAmong(fs[i], gs) && TwinOf(fs, gs[i]) { assert Twin(fs[i], gs[i]); }
    }
  }

  lemma SameObject(fs: seq<Field>, gs: seq<Field>)
    ensures Same(Object(fs), Object(gs)) <==> SameFields(fs, gs)
  {
  }

  lemma FourTwins(fs: seq<Field>, gs: seq<Field>)
    requires |fs| == |gs| == 4 && KeysDistinct(fs) && forall i :: 0 <= i < 4 ==> fs[i].key == gs[i].key
    ensures Same(Object(fs), Object(gs))
       <==> Same(fs[0].value, gs[0].value) && Same(fs[1].value, gs[1].value) && Same(fs[2].value, gs[2].value) && Same(fs[3].value, gs[3].value)
  {
    SameObject(fs, gs);
    TwinsByPosition(fs, gs);
    FourFields(fs, gs);
  }

  lemma CaptureSameIff(owner: Option<string>, source: string, version: string, item: Json,
                       owner': Option<string>, source': string, version': string, item': Json)
    ensures Same(CaptureJson(owner, source, version, item), CaptureJson(owner', source', version', item'))
       <==> owner == owner' && source == source' && version == version' && Same(item, item')
  {
    CaptureKeys(owner, source, version, item);
    CaptureKeys(owner', source', version', item');
    FourTwins(CaptureJson(owner, source, version, item).fields, CaptureJson(owner', source', version', item').fields);
    SameLeaf(OwnerJson(owner), OwnerJson(owner'));
    SameLeaf(Text(source), Text(source'));
    SameLeaf(Text(version), Text(version'));
  }

  /** Two captures share a content hash exactly when owner, source, schema version and content agree. */
  lemma CapturePreimageIff(owner: Option<string>, source: string, version: string, item: Json,
                           owner': Option<string>, source': string, version': string, item': Json)
    requires Proper(item) && Proper(item')
    ensures CapturePreimage(owner, source, version, item) == CapturePreimage(owner', source', version', item')
       <==> owner == owner' && source == source' && version == version' && Same(item, item')
  {
    var a, b := CaptureJson(owner, source, version, item), CaptureJson(owner', source', version', item');
    CanonicalStringIffSame(a, b);
    CaptureSameIff(owner, source, version, item, owner', source', version', item');
  }

  // ---------------------------------------------------------------- snapshot checksum

  function TextOf(v: Json): string {
    if v.Text? then v.s else ""
  }

  function FieldText(fields: seq<Field>, key: string): string {
    if fields == [] then "" else if fields[0].key == key then TextOf(fields[0].value) else FieldText(fields[1..], key)
  }

  /** A row's normalised text. */
  function NormalizedTextOf(row: Json): string {
    if row.Object? then FieldText(row.fields, "normalizedText") else ""
  }

  function RowLe(): (Json, Json) -> bool {
    (a: Json, b: Json) => StrLe(NormalizedTextOf(a), NormalizedTextOf(b))
  }

  function ChecksumPreimage(rows: seq<Json>): string {
    Print(Array(CanonItems(Sort(RowLe(), rows))))
  }

  lemma {:induction false} FieldTextIs(fields: seq<Field>, i: nat)
    requires KeysDistinct(fields) && i < |fields|
    ensures FieldText(fields, fields[i].key) == TextOf(fields[i].value)
  {
    if i > 0 { FieldTextIs(fields[1..], i - 1); }
  }

  lemma {:induction false} FieldTextAbsent(fields: seq<Field>, key: string)
    requires forall i :: 0 <= i < |fields| ==> fields[i].key != key
    ensures FieldText(fields, key) == ""
  {
    if fields != [] { FieldTextAbsent(fields[1..], key); }
  }

  lemma SortedKeysDistinct(fields: seq<Field>)
    requires KeysDistinct(fields)
    ensures KeysDistinct(Sort(FieldLe(), fields))
  {
    var key, sorted := (f: Field) => f.key, Sort(FieldLe(), fields);
    assert DistinctBy(key, fields);
    DistinctByPermutes(key, fields, sorted);
    forall i, j | 0 <= i < j < |sorted| ensures sorted[i].key != sorted[j].key { assert key(sorted[i]) != key(sorted[j]); }
  }

  lemma SortKeepsText(fields: seq<Field>, key: string)
    requires KeysDistinct(fields)
    ensures FieldText(Sort(FieldLe(), fields), key) == FieldText(fields, key)
  {
    var sorted := Sort(FieldLe(), fields);
    SameElements(fields, sorted);
    SortedKeysDistinct(fields);
    if i :| 0 <= i < |fields| && fields[i].key == key {
      FieldTextIs(fields, i);
      assert fields[i] in sorted;
      var j :| 0 <= j < |sorted| && sorted[j] == fields[i];
      FieldTextIs(sorted, j);
    } else {
      FieldTextAbsent(fields, key);
      forall j | 0 <= j < |sorted| ensures sorted[j].key != key { assert sorted[j] in fields; }
      FieldTextAbsent(sorted, key);
    }
  }

  lemma {:induction false} CanonFieldsKeepText(fields: seq<Field>, key: string)
    ensures FieldText(CanonFields(fields), key) == FieldText(fields, key)
  {
    if fields != [] {
      assert CanonFields(fields)[1..] == CanonFields(fields[1..]);
      CanonFieldsKeepText(fields[1..], key);
    }
  }

  /** Canonicalising a row keeps its normalised text. */
  lemma CanonicalKeepsText(row: Json)
    requires Proper(row)
    ensures NormalizedTextOf(Canonicalize(row)) == NormalizedTextOf(row)
  {
    if row.Object? {
      CanonFieldsKeepText(row.fields, "normalizedText");
      SortKeepsText(CanonFields(row.fields), "normalizedText");
    }
  }

  ghost predicate AllProper(rows: seq<Json>) {
    forall i :: 0 <= i < |rows| ==> Proper(rows[i])
  }

  ghost predicate UniqueTexts(rows: seq<Json>) {
    forall i, j :: 0 <= i < j < |rows| ==> NormalizedTextOf(rows[i]) != NormalizedTextOf(rows[j])
  }

  lemma CanonItemsCons(x: Json, s: seq<Json>)
    ensures CanonItems([x] + s) == [Canonicalize(x)] + CanonItems(s)
  {
  }

  /** Sorting and canonicalising the rows commute. */
  lemma {:induction false} InsertCommutes(x: Json, s: seq<Json>)
    requires Proper(x) && AllProper(s)
    ensures CanonItems(Insert(RowLe(), x, s)) == Insert(RowLe(), Canonicalize(x), CanonItems(s))
  {
    if s != [] {
      CanonicalKeepsText(x);
      CanonicalKeepsText(s[0]);
      assert CanonItems(s)[0] == Canonicalize(s[0]) && CanonItems(s)[1..] == CanonItems(s[1..]);
      if RowLe()(x, s[0]) {
        CanonItemsCons(x, s);
      } else {
        InsertCommutes(x, s[1..]);
        CanonItemsCons(s[0], Insert(RowLe(), x, s[1..]));
      }
    }
  }

  lemma {:induction false} SortCommutes(rows: seq<Json>)
    requires AllProper(rows)
    ensures CanonItems(Sort(RowLe(), rows)) == Sort(RowLe(), CanonItems(rows))
  {
    if rows != [] {
      SortCommutes(rows[1..]);
      SortedProper(rows[1..]);
      InsertCommutes(rows[0], Sort(RowLe(), rows[1..]));
      CanonSortStep(rows);
    }
  }

  lemma CanonSortStep(rows: seq<Json>)
    requires rows != []
    ensures Sort(RowLe(), CanonItems(rows)) == Insert(RowLe(), Canonicalize(rows[0]), Sort(RowLe(), CanonItems(rows[1..])))
  {
    assert CanonItems(rows)[0] == Canonicalize(rows[0]) && CanonItems(rows)[1..] == CanonItems(rows[1..]);
  }

  lemma SortedProper(rows: seq<Json>)
    requires AllProper(rows)
    ensures AllProper(Sort(RowLe(), rows))
  {
    var sorted := Sort(RowLe(), rows);
    SameElements(rows, sorted);
    forall i | 0 <= i < |sorted| ensures Proper(sorted[i]) { assert sorted[i] in rows; }
  }

  /** Every row of either list has an equal row, up to key order, in the other. */
  ghost predicate SameRows(rows: seq<Json>, others: seq<Json>) {
    && (forall i :: 0 <= i < |rows| ==> RowAmong(rows[i], others))
    && (forall j :: 0 <= j < |others| ==> RowOf(rows, others[j]))
  }

  ghost predicate RowAmong(row: Json, others: seq<Json>) {
    exists j :: 0 <= j < |others| && Same(row, others[j])
  }

  ghost predicate RowOf(rows: seq<Json>, other: Json) {
    exists i :: 0 <= i < |rows| && Same(rows[i], other)
  }

  lemma CanonicalRowsUnique(rows: seq<Json>)
    requires AllProper(rows) && UniqueTexts(rows)
    ensures UniqueTexts(CanonItems(rows)) && Distinct(CanonItems(rows)) && OrderOn(RowLe(), CanonItems(rows))
  {
    var canon := CanonItems(rows);
    forall i | 0 <= i < |rows| ensures NormalizedTextOf(canon[i]) == NormalizedTextOf(rows[i]) { CanonicalKeepsText(rows[i]); }
    RowsOrdered(canon);
  }

  lemma RowsOrdered(rows: seq<Json>)
    requires UniqueTexts(rows)
    ensures OrderOn(RowLe(), rows)
  {
    var le := RowLe();
    forall x, y | x in rows && y in rows
      ensures le(x, y) || le(y, x)
      ensures le(x, y) && le(y, x) ==> x == y
    {
      StrLeTotal(NormalizedTextOf(x), NormalizedTextOf(y));
      var i :| 0 <= i < |rows| && rows[i] == x;
      var j :| 0 <= j < |rows| && rows[j] == y;
      assert NormalizedTextOf(x) == NormalizedTextOf(y) ==> i == j;
    }
    forall x, y, z | x in rows && y in rows && z in rows && le(x, y) && le(y, z) ensures le(x, z) {
      StrLeTrans(NormalizedTextOf(x), NormalizedTextOf(y), NormalizedTextOf(z));
    }
  }

  ghost predicate SameElementsIn(a: seq<Json>, b: seq<Json>) {
    forall c :: c in a <==> c in b
  }

  lemma SameRowsSameCanonical(rows: seq<Json>, others: seq<Json>)
    requires AllProper(rows) && AllProper(others) && SameRows(rows, others)
    ensures SameElementsIn(CanonItems(rows), CanonItems(others))
  {
    var a, b := CanonItems(rows), CanonItems(others);
    forall i | 0 <= i < |a| ensures a[i] in b {
      assert RowAmong(rows[i], others);
      var j :| 0 <= j < |others| && Same(rows[i], others[j]);
      SameCanonical(rows[i], others[j]);
      assert b[j] == a[i];
    }
    forall j | 0 <= j < |b| ensures b[j] in a {
      assert RowOf(rows, others[j]);
      var i :| 0 <= i < |rows| && Same(rows[i], others[j]);
      SameCanonical(rows[i], others[j]);
      assert a[i] == b[j];
    }
  }

  lemma SameCanonicalSameRows(rows: seq<Json>, others: seq<Json>)
    requires SameElementsIn(CanonItems(rows), CanonItems(others))
    ensures SameRows(rows, others)
  {
    var a, b := CanonItems(rows), CanonItems(others);
    forall i | 0 <= i < |rows| ensures RowAmong(rows[i], others) {
      assert a[i] in b;
      var j :| 0 <= j < |b| && b[j] == a[i];
      CanonicalSame(rows[i], others[j]);
    }
    forall j | 0 <= j < |others| ensures RowOf(rows, others[j]) {
      assert b[j] in a;
      var i :| 0 <= i < |a| && a[i] == b[j];
      CanonicalSame(rows[i], others[j]);
    }
  }

  /**
   * Snapshots with distinct normalised texts share a checksum exactly when they hold the same rows: the order of the
   * rows and of the keys does not matter, any other difference does.
   */
  lemma ChecksumPreimageIff(rows: seq<Json>, others: seq<Json>)
    requires AllProper(rows) && AllProper(others) && UniqueTexts(rows) && UniqueTexts(others)
    ensures ChecksumPreimage(rows) == ChecksumPreimage(others) <==> SameRows(rows, others)
  {
    var a, b := CanonItems(rows), CanonItems(others);
    SortCommutes(rows);
    SortCommutes(others);
    CanonicalRowsUnique(rows);
    CanonicalRowsUnique(others);
    SameElements(a, Sort(RowLe(), a));
    SameElements(b, Sort(RowLe(), b));
    ItemsPrintable(rows, a);
    ItemsPrintable(others, b);
    PrintInjective(Array(Sort(RowLe(), a)), Array(Sort(RowLe(), b)));
    if SameRows(rows, others) {
      SameRowsSameCanonical(rows, others);
      DistinctSameElements(a, b);
      SortOrderFree(RowLe(), a, b);
    }
    if Sort(RowLe(), a) == Sort(RowLe(), b) {
      assert SameElementsIn(a, b);
      SameCanonicalSameRows(rows, others);
    }
  }

  lemma ItemsPrintable(rows: seq<Json>, canon: seq<Json>)
    requires AllProper(rows) && canon == CanonItems(rows)
    ensures Printable(Array(Sort(RowLe(), canon)))
  {
    var sorted := Sort(RowLe(), canon);
    SameElements(canon, sorted);
    forall i | 0 <= i < |sorted| ensures Printable(sorted[i]) {
      assert sorted[i] in canon;
      var k :| 0 <= k < |canon| && canon[k] == sorted[i];
      CanonicalPrintable(rows[k]);
    }
  }

  /** In particular the checksum ignores the order in which the rows arrive. */
  lemma ChecksumIgnoresRowOrder(rows: seq<Json>, shuffled: seq<Json>)
    requires AllProper(rows) && UniqueTexts(rows) && multiset(rows) == multiset(shuffled)
    ensures ChecksumPreimage(rows) == ChecksumPreimage(shuffled)
  {
    RowsOrdered(rows);
    SortOrderFree(RowLe(), rows, shuffled);
  }
}
