/**
 * JSON values and the text JSON.stringify gives them (RFC 8259, sections 3 to 7): the text determines the value.
 * A number is identified with its text; equal finite numbers, and only those, have equal texts.
 */
module JsonText {

  datatype Json =
    | Null
    | Bool(b: bool)
    | Number(lexeme: string)
    | Text(s: string)
    | Array(items: seq<Json>)
    | Object(fields: seq<Field>)   // in enumeration order

  datatype Field = Field(key: string, value: Json)

  predicate Digit(c: char) {
    '0' <= c <= '9'
  }

  predicate NumChar(c: char) {
    Digit(c) || c == '-' || c == '+' || c == '.' || c == 'e'
  }

  predicate Lexeme(s: string) {
    s != "" && (s[0] == '-' || Digit(s[0])) && forall i :: 0 <= i < |s| ==> NumChar(s[i])
  }

  /** All numbers in the value have number texts. */
  predicate Printable(v: Json)
    decreases v
  {
    match v
    case Number(lexeme) => Lexeme(lexeme)
    case Array(items) => forall i :: 0 <= i < |items| ==> Printable(items[i])
    case Object(fields) => forall i :: 0 <= i < |fields| ==> Printable(fields[i].value)
    case _ => true
  }

  function Hex(n: int): char
    requires 0 <= n < 16
  {
    "0123456789abcdef"[n]
  }

  /** Quotation mark, reverse solidus and control characters are escaped; everything else stands for itself. */
  function EscapeChar(c: char): (r: string)
    ensures r != ""
    ensures r[0] != '"'
  {
    if c == '"' then "\\\""
    else if c == '\\' then "\\\\"
    else if c == 8 as char then "\\b"
    else if c == 12 as char then "\\f"
    else if c == '\n' then "\\n"
    else if c == '\r' then "\\r"
    else if c == '\t' then "\\t"
    else if (c as int) < 0x20 then "\\u00" + [Hex(c as int / 16), Hex(c as int % 16)]
    else [c]
  }

  /** The rest of a string literal, up to and including its closing quotation mark. */
  function QuoteTail(s: string): string {
    if s == "" then "\"" else EscapeChar(s[0]) + QuoteTail(s[1..])
  }

  function Quote(s: string): string {
    "\"" + QuoteTail(s)
  }

  function Print(v: Json): string
    decreases v
  {
    match v
    case Null => "null"
    case Bool(b) => if b then "true" else "false"
    case Number(lexeme) => lexeme
    case Text(s) => Quote(s)
    case Array(items) => "[" + (if items == [] then "]" else Print(items[0]) + PrintItems(items[1..]))
    case Object(fields) => "{" + (if fields == [] then "}" else PrintField(fields[0]) + PrintFields(fields[1..]))
  }

  function PrintItems(items: seq<Json>): string
    decreases items
  {
    if items == [] then "]" else "," + Print(items[0]) + PrintItems(items[1..])
  }

  function PrintField(f: Field): string
    decreases f
  {
    Quote(f.key) + ":" + Print(f.value)
  }

  function PrintFields(fields: seq<Field>): string
    decreases fields
  {
    if fields == [] then "}" else "," + PrintField(fields[0]) + PrintFields(fields[1..])
  }

  // ---------------------------------------------------------------- the text determines the value

  /** What may follow a value: nothing that could continue a number. */
  predicate Stops(r: string) {
    r == "" || !NumChar(r[0])
  }

  lemma Cancel<T>(p: seq<T>, a: seq<T>, b: seq<T>)
    requires p + a == p + b
    ensures a == b
  {
    assert (p + a)[|p|..] == a && (p + b)[|p|..] == b;
  }

  lemma Assoc<T>(p: seq<T>, a: seq<T>, b: seq<T>)
    ensures (p + a) + b == p + (a + b)
  {
  }

  /** How far number characters go. */
  function NumLength(x: string): nat {
    if x == "" || !NumChar(x[0]) then 0 else 1 + NumLength(x[1..])
  }

  lemma {:induction false} LexemeLength(a: string, r: string)
    requires Stops(r) && forall i :: 0 <= i < |a| ==> NumChar(a[i])
    ensures NumLength(a + r) == |a|
  {
    if a == "" {
      assert a + r == r;
    } else {
      assert (a + r)[1..] == a[1..] + r && NumChar(a[0]);
      LexemeLength(a[1..], r);
    }
  }

  lemma LexemeUnique(a: string, b: string, r: string, s: string)
    requires Lexeme(a) && Lexeme(b) && Stops(r) && Stops(s) && a + r == b + s
    ensures a == b && r == s
  {
    LexemeLength(a, r);
    LexemeLength(b, s);
    assert (a + r)[..|a|] == a && (b + s)[..|b|] == b;
    Cancel(a, r, s);
  }

  /** Escapes form a prefix code. */
  lemma EscapeUnique(c: char, d: char, r: string, s: string)
    requires EscapeChar(c) + r == EscapeChar(d) + s
    ensures c == d && r == s
  {
    var x, y := EscapeChar(c) + r, EscapeChar(d) + s;
    assert x[0] == EscapeChar(c)[0] && y[0] == EscapeChar(d)[0];
    assert |EscapeChar(c)| > 1 ==> x[1] == EscapeChar(c)[1];
    assert |EscapeChar(d)| > 1 ==> y[1] == EscapeChar(d)[1];
    if |EscapeChar(c)| == 6 && |EscapeChar(d)| == 6 {
      assert x[4] == EscapeChar(c)[4] && x[5] == EscapeChar(c)[5];
      assert y[4] == EscapeChar(d)[4] && y[5] == EscapeChar(d)[5];
      HexUnique(c as int / 16, d as int / 16);
      HexUnique(c as int % 16, d as int % 16);
    }
    assert c == d;
    Cancel(EscapeChar(c), r, s);
  }

  lemma HexUnique(m: int, n: int)
    requires 0 <= m < 16 && 0 <= n < 16 && Hex(m) == Hex(n)
    ensures m == n
  {
  }

  lemma QuoteTailFirst(s: string, r: string)
    ensures QuoteTail(s) + r != "" && ((QuoteTail(s) + r)[0] == '"' <==> s == "")
  {
    if s != "" { assert (QuoteTail(s) + r)[0] == EscapeChar(s[0])[0]; }
  }

  lemma QuoteTailStep(s: string, t: string, r: string, u: string)
    requires s != "" && t != "" && QuoteTail(s) + r == QuoteTail(t) + u
    ensures s[0] == t[0] && QuoteTail(s[1..]) + r == QuoteTail(t[1..]) + u
  {
    Assoc(EscapeChar(s[0]), QuoteTail(s[1..]), r);
    Assoc(EscapeChar(t[0]), QuoteTail(t[1..]), u);
    EscapeUnique(s[0], t[0], QuoteTail(s[1..]) + r, QuoteTail(t[1..]) + u);
  }

  lemma {:induction false} QuoteTailUnique(s: string, t: string, r: string, u: string)
    requires QuoteTail(s) + r == QuoteTail(t) + u
    ensures s == t && r == u
  {
    QuoteTailFirst(s, r);
    QuoteTailFirst(t, u);
    if s == "" {
      Cancel("\"", r, u);
    } else {
      QuoteTailStep(s, t, r, u);
      QuoteTailUnique(s[1..], t[1..], r, u);
      assert s == [s[0]] + s[1..] && t == [t[0]] + t[1..];
    }
  }

  lemma QuoteUnique(s: string, t: string, r: string, u: string)
    requires Quote(s) + r == Quote(t) + u
    ensures s == t && r == u
  {
    Assoc("\"", QuoteTail(s), r);
    Assoc("\"", QuoteTail(t), u);
    Cancel("\"", QuoteTail(s) + r, QuoteTail(t) + u);
    QuoteTailUnique(s, t, r, u);
  }

  /** The first character tells the kind of a value. */
  function Kind(c: char): int {
    if c == 'n' then 0 else if c == 't' then 1 else if c == 'f' then 2 else if c == '"' then 3
    else if c == '[' then 4 else if c == '{' then 5 else 6
  }

  function KindOf(v: Json): int {
    match v
    case Null => 0
    case Bool(b) => if b then 1 else 2
    case Number(_) => 6
    case Text(_) => 3
    case Array(_) => 4
    case Object(_) => 5
  }

  lemma FirstChar(v: Json, r: string)
    requires Printable(v)
    ensures Print(v) != "" && (Print(v) + r)[0] == Print(v)[0] && Kind(Print(v)[0]) == KindOf(v)
    ensures Print(v)[0] != ']' && Print(v)[0] != '}' && Print(v)[0] != ','
  {
  }

  lemma {:induction false} PrintUnique(a: Json, b: Json, r: string, s: string)
    requires Printable(a) && Printable(b) && Stops(r) && Stops(s)
    requires Print(a) + r == Print(b) + s
    ensures a == b && r == s
    decreases a, 1
  {
    FirstChar(a, r);
    FirstChar(b, s);
    assert KindOf(a) == KindOf(b);
    match a
    case Number(lexeme) => LexemeUnique(lexeme, b.lexeme, r, s);
    case Text(t) => QuoteUnique(t, b.s, r, s);
    case Array(items) => ArrayUnique(items, b.items, r, s);
    case Object(fields) => ObjectUnique(fields, b.fields, r, s);
    case _ => Cancel(Print(a), r, s);
  }

  lemma {:induction false} ArrayUnique(xs: seq<Json>, ys: seq<Json>, r: string, s: string)
    requires Printable(Array(xs)) && Printable(Array(ys))
    requires Print(Array(xs)) + r == Print(Array(ys)) + s
    ensures xs == ys && r == s
    decreases xs, 2
  {
    var x := if xs == [] then "]" else Print(xs[0]) + PrintItems(xs[1..]);
    var y := if ys == [] then "]" else Print(ys[0]) + PrintItems(ys[1..]);
    Assoc("[", x, r);
    Assoc("[", y, s);
    Cancel("[", x + r, y + s);
    ArrayFirst(xs, r);
    ArrayFirst(ys, s);
    if xs != [] {
      Assoc(Print(xs[0]), PrintItems(xs[1..]), r);
      Assoc(Print(ys[0]), PrintItems(ys[1..]), s);
      ItemUnique(xs, ys, r, s);
    } else {
      Cancel("]", r, s);
    }
  }

  /** What follows the opening bracket is a closing one exactly when the array is empty. */
  lemma ArrayFirst(xs: seq<Json>, r: string)
    requires Printable(Array(xs))
    ensures var x := if xs == [] then "]" else Print(xs[0]) + PrintItems(xs[1..]);
      x + r != "" && ((x + r)[0] == ']' <==> xs == [])
  {
    if xs != [] {
      FirstChar(xs[0], PrintItems(xs[1..]) + r);
      Assoc(Print(xs[0]), PrintItems(xs[1..]), r);
    }
  }

  /** A first item and what follows it. */
  lemma {:induction false} ItemUnique(xs: seq<Json>, ys: seq<Json>, r: string, s: string)
    requires xs != [] && ys != [] && Printable(Array(xs)) && Printable(Array(ys))
    requires Print(xs[0]) + (PrintItems(xs[1..]) + r) == Print(ys[0]) + (PrintItems(ys[1..]) + s)
    ensures xs == ys && r == s
    decreases xs, 1
  {
    PrintUnique(xs[0], ys[0], PrintItems(xs[1..]) + r, PrintItems(ys[1..]) + s);
    ItemsUnique(xs[1..], ys[1..], r, s);
    assert xs == [xs[0]] + xs[1..] && ys == [ys[0]] + ys[1..];
  }

  lemma {:induction false} ItemsUnique(xs: seq<Json>, ys: seq<Json>, r: string, s: string)
    requires Printable(Array(xs)) && Printable(Array(ys))
    requires PrintItems(xs) + r == PrintItems(ys) + s
    ensures xs == ys && r == s
    decreases xs, 2
  {
    assert (PrintItems(xs) + r)[0] == (if xs == [] then ']' else ',');
    assert (PrintItems(ys) + s)[0] == (if ys == [] then ']' else ',');
    if xs == [] {
      Cancel("]", r, s);
    } else {
      var x, y := Print(xs[0]) + (PrintItems(xs[1..]) + r), Print(ys[0]) + (PrintItems(ys[1..]) + s);
      assert PrintItems(xs) + r == "," + x && PrintItems(ys) + s == "," + y;
      Cancel(",", x, y);
      ItemUnique(xs, ys, r, s);
    }
  }

  lemma {:induction false} ObjectUnique(xs: seq<Field>, ys: seq<Field>, r: string, s: string)
    requires Printable(Object(xs)) && Printable(Object(ys))
    requires Print(Object(xs)) + r == Print(Object(ys)) + s
    ensures xs == ys && r == s
    decreases xs, 2
  {
    var x := if xs == [] then "}" else PrintField(xs[0]) + PrintFields(xs[1..]);
    var y := if ys == [] then "}" else PrintField(ys[0]) + PrintFields(ys[1..]);
    Assoc("{", x, r);
    Assoc("{", y, s);
    Cancel("{", x + r, y + s);
    assert (x + r)[0] == (if xs == [] then '}' else '"') && (y + s)[0] == (if ys == [] then '}' else '"');
    if xs != [] {
      Assoc(PrintField(xs[0]), PrintFields(xs[1..]), r);
      Assoc(PrintField(ys[0]), PrintFields(ys[1..]), s);
      FieldUnique(xs, ys, r, s);
    } else {
      Cancel("}", r, s);
    }
  }

  lemma FieldSplit(f: Field, r: string)
    ensures PrintField(f) + r == Quote(f.key) + (":" + (Print(f.value) + r))
  {
    Assoc(Quote(f.key) + ":", Print(f.value), r);
    Assoc(Quote(f.key), ":", Print(f.value) + r);
  }

  /** Key and value of the first of several fields are determined, and so is what follows. */
  lemma {:induction false} FieldUnique(xs: seq<Field>, ys: seq<Field>, r: string, s: string)
    requires xs != [] && ys != [] && Printable(Object(xs)) && Printable(Object(ys))
    requires PrintField(xs[0]) + (PrintFields(xs[1..]) + r) == PrintField(ys[0]) + (PrintFields(ys[1..]) + s)
    ensures xs == ys && r == s
    decreases xs, 1
  {
    var xr, yr := PrintFields(xs[1..]) + r, PrintFields(ys[1..]) + s;
    FieldsStop(xs[1..], r);
    FieldsStop(ys[1..], s);
    FieldSplit(xs[0], xr);
    FieldSplit(ys[0], yr);
    QuoteUnique(xs[0].key, ys[0].key, ":" + (Print(xs[0].value) + xr), ":" + (Print(ys[0].value) + yr));
    Cancel(":", Print(xs[0].value) + xr, Print(ys[0].value) + yr);
    PrintUnique(xs[0].value, ys[0].value, xr, yr);
    FieldsUnique(xs[1..], ys[1..], r, s);
    assert xs == [xs[0]] + xs[1..] && ys == [ys[0]] + ys[1..];
  }

  lemma FieldsStop(xs: seq<Field>, r: string)
    ensures PrintFields(xs) + r != "" && Stops(PrintFields(xs) + r)
  {
    assert (PrintFields(xs) + r)[0] == (if xs == [] then '}' else ',');
  }

  lemma {:induction false} FieldsUnique(xs: seq<Field>, ys: seq<Field>, r: string, s: string)
    requires Printable(Object(xs)) && Printable(Object(ys))
    requires PrintFields(xs) + r == PrintFields(ys) + s
    ensures xs == ys && r == s
    decreases xs, 2
  {
    assert (PrintFields(xs) + r)[0] == (if xs == [] then '}' else ',');
    assert (PrintFields(ys) + s)[0] == (if ys == [] then '}' else ',');
    if xs == [] {
      Cancel("}", r, s);
    } else {
      var x, y := PrintField(xs[0]) + (PrintFields(xs[1..]) + r), PrintField(ys[0]) + (PrintFields(ys[1..]) + s);
      assert PrintFields(xs) + r == "," + x && PrintFields(ys) + s == "," + y;
      Cancel(",", x, y);
      FieldUnique(xs, ys, r, s);
    }
  }

  /** Two values with the same text are the same value. */
  lemma PrintInjective(a: Json, b: Json)
    requires Printable(a) && Printable(b)
    ensures Print(a) == Print(b) <==> a == b
  {
    if Print(a) == Print(b) {
      assert Print(a) + "" == Print(b) + "";
      PrintUnique(a, b, "", "");
    }
  }

  /** The escapes of section 7 of RFC 8259: the two marks, the five short ones, `\u00xx` for the other control characters. */
  lemma EscapesAre(c: char)
    ensures EscapeChar('"') == "\\\"" && EscapeChar('\\') == "\\\\"
    ensures EscapeChar(8 as char) == "\\b" && EscapeChar(9 as char) == "\\t" && EscapeChar(10 as char) == "\\n"
    ensures EscapeChar(12 as char) == "\\f" && EscapeChar(13 as char) == "\\r"
    ensures EscapeChar(0x1f as char) == "\\u001f" && EscapeChar(0 as char) == "\\u0000"
    ensures c as int >= 0x20 && c != '"' && c != '\\' ==> EscapeChar(c) == [c]
  {
  }

  /** Scalars, printed; the text needs no escaping. */
  lemma ScalarsPrint(s: string)
    requires forall i :: 0 <= i < |s| ==> s[i] as int >= 0x20 && s[i] != '"' && s[i] != '\\'
    ensures Print(Null) == "null" && Print(Bool(true)) == "true" && Print(Bool(false)) == "false" && Print(Number(s)) == s
    ensures Print(Text(s)) == "\"" + s + "\""
  {
    PlainQuoted(s);
  }

  /** Lists and objects, printed: separated by commas, a field's name before its value. */
  lemma NestedPrint(a: Json, b: Json, k: string, l: string)
    ensures Print(Array([])) == "[]" && Print(Array([a, b])) == "[" + Print(a) + "," + Print(b) + "]"
    ensures Print(Object([])) == "{}"
    ensures Print(Object([Field(k, a), Field(l, b)]))
         == "{" + (Print(Text(k)) + ":" + Print(a)) + "," + (Print(Text(l)) + ":" + Print(b)) + "}"
  {
    TwoItems(a, b);
    TwoFields(Field(k, a), Field(l, b));
  }

  lemma Glue(open: string, p: string, q: string, close: string)
    ensures open + (p + ("," + q + close)) == open + p + "," + q + close
  {
  }

  lemma TwoItems(a: Json, b: Json)
    ensures Print(Array([a, b])) == "[" + Print(a) + "," + Print(b) + "]"
  {
    assert [a, b][1..] == [b] && [b][1..] == [];
    assert PrintItems([b]) == "," + Print(b) + PrintItems([]);
    Glue("[", Print(a), Print(b), "]");
  }

  lemma TwoFields(f: Field, g: Field)
    ensures Print(Object([f, g])) == "{" + PrintField(f) + "," + PrintField(g) + "}"
  {
    assert [f, g][1..] == [g] && [g][1..] == [];
    assert PrintFields([g]) == "," + PrintField(g) + PrintFields([]);
    Glue("{", PrintField(f), PrintField(g), "}");
  }

  lemma {:induction false} PlainTail(s: string)
    requires forall i :: 0 <= i < |s| ==> s[i] as int >= 0x20 && s[i] != '"' && s[i] != '\\'
    ensures QuoteTail(s) == s + "\""
  {
    if s != "" {
      PlainTail(s[1..]);
      assert EscapeChar(s[0]) == [s[0]];
      assert s == [s[0]] + s[1..];
    }
  }

  lemma PlainQuoted(s: string)
    requires forall i :: 0 <= i < |s| ==> s[i] as int >= 0x20 && s[i] != '"' && s[i] != '\\'
    ensures Quote(s) == "\"" + s + "\""
  {
    PlainTail(s);
    assert "\"" + (s + "\"") == "\"" + s + "\"";
  }
}
