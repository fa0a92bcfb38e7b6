/** The page cursor: a JSON object naming one row, in base64url. */
module CursorCodec {
  import opened Base
  import opened JsonText
  import Paginate

  /** Library behaviour: text to base64url and back (through UTF-8), and parsing JSON text, which may fail. */
  datatype Library = Library(pack: string -> string, unpack: string -> string, parse: string -> Option<Json>)

  function CursorJson(nt: string): Json {
    Object([Field("nt", Text(nt))])
  }

  /** Unpacking undoes packing, and a cursor's own text parses to the cursor. Any other text may unpack and parse to anything. */
  ghost predicate Faithful(lib: Library) {
    && (forall s :: lib.unpack(lib.pack(s)) == s)
    && (forall nt :: lib.parse(Print(CursorJson(nt))) == Some(CursorJson(nt)))
  }

  ghost function ParseCursor(text: string): Option<Json> {
    if exists nt :: Print(CursorJson(nt)) == text then
      var nt :| Print(CursorJson(nt)) == text;
      Some(CursorJson(nt))
    else None
  }

  /** There are such libraries: cursor texts are distinct, so a parser can tell them apart. */
  lemma FaithfulLibrary() returns (lib: Library)
    ensures Faithful(lib)
  {
    lib := Library((s: string) => s, (s: string) => s, (text: string) => ParseCursor(text));
    forall nt ensures lib.parse(Print(CursorJson(nt))) == Some(CursorJson(nt)) {
      ParsedIsIt(nt);
    }
  }

  lemma ParsedIsIt(nt: string)
    ensures ParseCursor(Print(CursorJson(nt))) == Some(CursorJson(nt))
  {
    var found :| Print(CursorJson(found)) == Print(CursorJson(nt)) && ParseCursor(Print(CursorJson(nt))) == Some(CursorJson(found));
    PrintInjective(CursorJson(found), CursorJson(nt));
  }

  function EncodeCursor(nt: string, lib: Library): string {
    lib.pack(Print(CursorJson(nt)))
  }

  /** The value of a field; a parsed object has each key once. */
  function FieldValue(fields: seq<Field>, key: string): Option<Json> {
    if fields == [] then None else if fields[0].key == key then Some(fields[0].value) else FieldValue(fields[1..], key)
  }

  /** Anything that is not an object with a text field `nt` decodes to nothing. */
  function DecodeCursor(cursor: string, lib: Library): Option<string> {
    var parsed := lib.parse(lib.unpack(cursor));
    if parsed.None? || !parsed.value.Object? then None
    else
      var nt := FieldValue(parsed.value.fields, "nt");
      if nt.Some? && nt.value.Text? then Some(nt.value.s) else None
  }

  /** Decoding yields a text exactly when the cursor parses to an object whose first field `nt` is that text. */
  lemma DecodesIff(cursor: string, lib: Library, s: string)
    ensures DecodeCursor(cursor, lib) == Some(s) <==>
      var parsed := lib.parse(lib.unpack(cursor));
      parsed.Some? && parsed.value.Object? && NamesText(parsed.value.fields, s)
  {
    var parsed := lib.parse(lib.unpack(cursor));
    if parsed.Some? && parsed.value.Object? { FieldValueIs(parsed.value.fields, s); }
  }

  ghost predicate NamesText(fields: seq<Field>, s: string) {
    exists i :: 0 <= i < |fields| && fields[i] == Field("nt", Text(s)) && forall k :: 0 <= k < i ==> fields[k].key != "nt"
  }

  lemma {:induction false} FieldValueIs(fields: seq<Field>, s: string)
    ensures FieldValue(fields, "nt") == Some(Text(s)) <==> NamesText(fields, s)
  {
    if fields != [] {
      var rest := fields[1..];
      FieldValueIs(rest, s);
      if NamesText(fields, s) {
        var i :| 0 <= i < |fields| && fields[i] == Field("nt", Text(s)) && forall k :: 0 <= k < i ==> fields[k].key != "nt";
        if i > 0 {
          assert rest[i - 1] == fields[i] && forall k :: 0 <= k < i - 1 ==> rest[k] == fields[k + 1];
          assert fields[0].key != "nt";
        }
      }
      if fields[0].key != "nt" && NamesText(rest, s) {
        var i :| 0 <= i < |rest| && rest[i] == Field("nt", Text(s)) && forall k :: 0 <= k < i ==> rest[k].key != "nt";
        assert fields[i + 1] == rest[i] && forall k :: 0 < k < i + 1 ==> fields[k] == rest[k - 1];
      }
      if fields[0] == Field("nt", Text(s)) { assert NamesText(fields, s); }
    }
  }

  /** The cursor of a text that needs no escaping, written out. */
  lemma CursorText(nt: string, lib: Library)
    requires forall i :: 0 <= i < |nt| ==> nt[i] as int >= 0x20 && nt[i] != '"' && nt[i] != '\\'
    ensures EncodeCursor(nt, lib) == lib.pack("{\"nt\":\"" + nt + "\"}")
  {
    PlainQuoted(nt);
    PlainQuoted("nt");
    var f := Field("nt", Text(nt));
    assert PrintField(f) == ("\"" + "nt" + "\"") + ":" + ("\"" + nt + "\"");
    assert Print(CursorJson(nt)) == "{" + (PrintField(f) + PrintFields([f][1..]));
    assert Print(CursorJson(nt)) == "{\"nt\":\"" + nt + "\"}";
  }

  function Codec(lib: Library): Paginate.Codec {
    Paginate.Codec((s: string) => EncodeCursor(s, lib), (s: string) => DecodeCursor(s, lib))
  }

  /** Decoding gives back the encoded text, so the paging theorems hold for this cursor. */
  lemma CursorRoundTrips(lib: Library)
    requires Faithful(lib)
    ensures Paginate.RoundTrips(Codec(lib))
  {
    forall s ensures DecodeCursor(EncodeCursor(s, lib), lib) == Some(s) {
      assert lib.unpack(lib.pack(Print(CursorJson(s)))) == Print(CursorJson(s));
    }
  }

  /** Different rows have different cursors. */
  lemma CursorsDiffer(a: string, b: string, lib: Library)
    requires Faithful(lib)
    ensures EncodeCursor(a, lib) == EncodeCursor(b, lib) <==> a == b
  {
    if EncodeCursor(a, lib) == EncodeCursor(b, lib) {
      assert lib.unpack(EncodeCursor(a, lib)) == Print(CursorJson(a)) && lib.unpack(EncodeCursor(b, lib)) == Print(CursorJson(b));
      PrintInjective(CursorJson(a), CursorJson(b));
    }
  }
}
