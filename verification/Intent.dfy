/** Cleaning of the model's labels and their alignment with the inputs. */
module IntentLabels {
  import opened Base

  const LABELS: set<string> := {"informational", "commercial", "transactional", "navigational"}

  const FALLBACK: seq<string> := ["informational"]

  datatype Row = Row(keyword: string, labels: seq<string>)

  /** The valid labels, each once, in the order they first appear. */
  function Clean(labels: seq<string>): seq<string> {
    if labels == [] then []
    else
      var out := Clean(labels[..|labels| - 1]);
      if Last(labels) in LABELS && Last(labels) !in out then out + [Last(labels)] else out
  }

  /** Where `x` first appears. */
  ghost function FirstAt<T>(s: seq<T>, x: T): (k: nat)
    requires x in s
    ensures k < |s| && s[k] == x && x !in s[..k]
  {
    if s[0] == x then 0
    else
      var k := FirstAt(s[1..], x);
      assert s[..k + 1] == [s[0]] + s[1..][..k];
      k + 1
  }

  lemma FirstAtUnique<T>(s: seq<T>, x: T, k: nat)
    requires k < |s| && s[k] == x && x !in s[..k]
    ensures FirstAt(s, x) == k
  {
    var m := FirstAt(s, x);
    forall i | 0 <= i < k ensures s[i] != x { assert s[..k][i] == s[i]; }
    forall i | 0 <= i < m ensures s[i] != x { assert s[..m][i] == s[i]; }
  }

  lemma {:induction false} CleanKeepsValidOnce(labels: seq<string>)
    ensures forall l :: l in Clean(labels) <==> l in labels && l in LABELS
    ensures LABELS == {"informational", "commercial", "transactional", "navigational"}
    ensures Distinct(Clean(labels))
    ensures forall i, j :: 0 <= i < j < |Clean(labels)| ==>
      FirstAt(labels, Clean(labels)[i]) < FirstAt(labels, Clean(labels)[j])
  {
    if labels != [] {
      var before, last := labels[..|labels| - 1], Last(labels);
      CleanKeepsValidOnce(before);
      assert labels == before + [last];
      var r := Clean(labels);
      forall i | 0 <= i < |Clean(before)| ensures FirstAt(labels, r[i]) == FirstAt(before, r[i]) {
        var k := FirstAt(before, r[i]);
        assert labels[..k] == before[..k];
        FirstAtUnique(labels, r[i], k);
      }
      if r != Clean(before) {
        assert labels[..|before|] == before;
        FirstAtUnique(labels, last, |before|);
      }
    }
  }

  lemma {:induction false} CleanFixesClean(labels: seq<string>)
    requires Distinct(labels) && forall l :: l in labels ==> l in LABELS
    ensures Clean(labels) == labels
  {
    if labels != [] {
      var before := labels[..|labels| - 1];
      forall l | l in before ensures l in labels {}
      CleanFixesClean(before);
    }
  }

  lemma CleanIdempotent(labels: seq<string>)
    ensures Clean(Clean(labels)) == Clean(labels)
  {
    CleanKeepsValidOnce(labels);
    CleanFixesClean(Clean(labels));
  }

  method CleanLabels(labels: seq<string>) returns (out: seq<string>)
    ensures out == Clean(labels)
    ensures Distinct(out) && forall l :: l in out <==> l in labels && l in LABELS
  {
    out := [];
    for i := 0 to |labels|
      invariant out == Clean(labels[..i])
    {
      assert labels[..i + 1][..i] == labels[..i];
      if labels[i] in LABELS && labels[i] !in out {
        out := out + [labels[i]];
      }
    }
    assert labels[..|labels|] == labels;
    CleanKeepsValidOnce(labels);
  }

  /** Cleaned labels by key; of several results with one key the last one counts. */
  function ByKey(results: seq<Row>, norm: Norm): map<string, seq<string>> {
    if results == [] then map[]
    else ByKey(results[..|results| - 1], norm)[norm(Last(results).keyword) := Clean(Last(results).labels)]
  }

  function LabelsFor(byKey: map<string, seq<string>>, key: string): seq<string> {
    if key in byKey && byKey[key] != [] then byKey[key] else FALLBACK
  }

  /** One row per input, in order, under the input's own spelling. */
  function PostProcess(inputs: seq<string>, results: seq<Row>, norm: Norm): (r: seq<Row>)
    ensures |r| == |inputs|
    ensures forall i :: 0 <= i < |r| ==> r[i].keyword == inputs[i]
  {
    var byKey := ByKey(results, norm);
    seq(|inputs|, i requires 0 <= i < |inputs| => Row(inputs[i], LabelsFor(byKey, norm(inputs[i]))))
  }

  method PostProcessIntent(inputs: seq<string>, results: seq<Row>, norm: Norm) returns (labeled: seq<Row>)
    ensures labeled == PostProcess(inputs, results, norm)
  {
    var byKey: map<string, seq<string>> := map[];
    for i := 0 to |results|
      invariant byKey == ByKey(results[..i], norm)
    {
      assert results[..i + 1][..i] == results[..i];
      var labels := CleanLabels(results[i].labels);
      byKey := byKey[norm(results[i].keyword) := labels];
    }
    assert results[..|results|] == results;
    labeled := seq(|inputs|, i requires 0 <= i < |inputs| => Row(inputs[i], LabelsFor(byKey, norm(inputs[i]))));
  }

  ghost predicate Covers(rows: seq<Row>, key: string, norm: Norm) {
    exists i :: 0 <= i < |rows| && norm(rows[i].keyword) == key
  }

  /** Row number `j` is the last of `rows` with this key. */
  ghost predicate LastWith(rows: seq<Row>, j: nat, key: string, norm: Norm) {
    j < |rows| && norm(rows[j].keyword) == key && forall i :: j < i < |rows| ==> norm(rows[i].keyword) != key
  }

  lemma {:induction false} ByKeyCovers(rows: seq<Row>, key: string, norm: Norm)
    ensures key in ByKey(rows, norm) <==> Covers(rows, key, norm)
  {
    if rows != [] {
      var before := rows[..|rows| - 1];
      ByKeyCovers(before, key, norm);
      if Covers(before, key, norm) {
        var i :| 0 <= i < |before| && norm(before[i].keyword) == key;
        assert norm(rows[i].keyword) == key;
      }
      if Covers(rows, key, norm) && norm(Last(rows).keyword) != key {
        var i :| 0 <= i < |rows| && norm(rows[i].keyword) == key;
        assert norm(before[i].keyword) == key;
      }
    }
  }

  lemma {:induction false} ByKeyLastWins(rows: seq<Row>, j: nat, key: string, norm: Norm)
    requires LastWith(rows, j, key, norm)
    ensures key in ByKey(rows, norm) && ByKey(rows, norm)[key] == Clean(rows[j].labels)
  {
    if j < |rows| - 1 {
      assert norm(rows[|rows| - 1].keyword) != key;
      ByKeyLastWins(rows[..|rows| - 1], j, key, norm);
    }
  }

  /**
   * Every input ends with at least one label, valid and without repetition, whatever the model answered: the cleaned labels
   * of the last result with its key, `informational` when these are none or there is no such result.
   */
  lemma EveryInputLabelled(inputs: seq<string>, results: seq<Row>, norm: Norm, i: nat)
    requires i < |inputs|
    ensures var labels := PostProcess(inputs, results, norm)[i].labels;
      && labels != [] && Distinct(labels)
      && forall l :: l in labels ==> l in {"informational", "commercial", "transactional", "navigational"}
    ensures !Covers(results, norm(inputs[i]), norm) ==> PostProcess(inputs, results, norm)[i].labels == ["informational"]
    ensures forall j: nat :: LastWith(results, j, norm(inputs[i]), norm) ==>
      PostProcess(inputs, results, norm)[i].labels == if Clean(results[j].labels) != [] then Clean(results[j].labels) else ["informational"]
  {
    var key := norm(inputs[i]);
    ByKeyCovers(results, key, norm);
    if Covers(results, key, norm) {
      var j := LastIndex(results, key, norm);
      ByKeyLastWins(results, j, key, norm);
      CleanKeepsValidOnce(results[j].labels);
    }
    forall j: nat | LastWith(results, j, key, norm)
      ensures key in ByKey(results, norm) && ByKey(results, norm)[key] == Clean(results[j].labels)
    {
      ByKeyLastWins(results, j, key, norm);
    }
  }

  lemma {:induction false} LastIndex(rows: seq<Row>, key: string, norm: Norm) returns (j: nat)
    requires Covers(rows, key, norm)
    ensures LastWith(rows, j, key, norm)
  {
    if norm(Last(rows).keyword) == key {
      j := |rows| - 1;
    } else {
      var before := rows[..|rows| - 1];
      var i :| 0 <= i < |rows| && norm(rows[i].keyword) == key;
      assert norm(before[i].keyword) == key;
      j := LastIndex(before, key, norm);
    }
  }

  // ---------------------------------------------------------------- agreement with a labelling f

  /** Every row says what `f` says of its key, once cleaned. */
  ghost predicate RowsAgree(rows: seq<Row>, f: string -> seq<string>, norm: Norm) {
    forall i :: 0 <= i < |rows| ==> Clean(rows[i].labels) == f(norm(rows[i].keyword))
  }

  function Effective(labels: seq<string>): seq<string> {
    if labels == [] then FALLBACK else labels
  }

  /** Rows that agree with `f`, in any order and number, label a covered input by `f` and any other by the fallback. */
  lemma PostProcessFollows(inputs: seq<string>, rows: seq<Row>, f: string -> seq<string>, norm: Norm, i: nat)
    requires i < |inputs| && RowsAgree(rows, f, norm)
    ensures PostProcess(inputs, rows, norm)[i].labels ==
      if Covers(rows, norm(inputs[i]), norm) then Effective(f(norm(inputs[i]))) else FALLBACK
  {
    var key := norm(inputs[i]);
    ByKeyCovers(rows, key, norm);
    if Covers(rows, key, norm) {
      var j := LastIndex(rows, key, norm);
      ByKeyLastWins(rows, j, key, norm);
      assert Clean(rows[j].labels) == f(key);
    }
  }
}

/** The two layers of the label cache: Redis in front of the durable table. */
module IntentStore {
  import opened Base
  import opened IntentLabels

  type Table = map<string, seq<string>>

  function Get(t: Table, key: string): Option<seq<string>> {
    if key in t then Some(t[key]) else None
  }

  /** What one read answers for a key: a failing layer counts as a miss. */
  function Lookup(redis: Table, db: Table, key: string, redisDown: bool, dbDown: bool): Option<seq<string>> {
    if !redisDown && key in redis then Some(redis[key])
    else if !dbDown && key in db then Some(db[key])
    else None
  }

  /** Redis answers if it is up and has the key, else the table if it can be read and has it. */
  lemma LookupIs(redis: Table, db: Table, key: string, redisDown: bool, dbDown: bool)
    ensures var l := Lookup(redis, db, key, redisDown, dbDown);
      && (!redisDown && key in redis ==> l == Some(redis[key]))
      && ((redisDown || key !in redis) && !dbDown && key in db ==> l == Some(db[key]))
      && (l.None? <==> (redisDown || key !in redis) && (dbDown || key !in db))
  {
  }

  /** The rows of the durable table found for the keys Redis missed are copied to Redis, as far as that works. */
  function Warm(redis: Table, db: Table, missed: set<string>, lost: set<string>): Table {
    redis + (map k | k in missed && k in db && k !in lost :: db[k])
  }

  /** Writes cleaned, non-empty labels; `lost` are the keys whose write fails. */
  function WriteBack(t: Table, rows: seq<Row>, norm: Norm, lost: set<string>): Table {
    if rows == [] then t
    else
      var before := WriteBack(t, rows[..|rows| - 1], norm, lost);
      var key, labels := norm(Last(rows).keyword), Clean(Last(rows).labels);
      if labels == [] || key in lost then before else before[key := labels]
  }

  /** An entry is what `f` says of its key, or a degenerate empty list that readers treat as a miss. */
  ghost predicate Agrees(t: Table, f: string -> seq<string>) {
    forall k :: k in t ==> t[k] == [] || t[k] == f(k)
  }

  lemma LookupAgrees(redis: Table, db: Table, f: string -> seq<string>, key: string, redisDown: bool, dbDown: bool)
    requires Agrees(redis, f) && Agrees(db, f)
    ensures var l := Lookup(redis, db, key, redisDown, dbDown); l.Some? && l.value != [] ==> l.value == f(key)
  {
  }

  /** Warming never makes Redis disagree, and a later read finds in Redis alone what this one found in the table. */
  lemma WarmKeepsAgreeing(redis: Table, db: Table, f: string -> seq<string>, missed: set<string>, lost: set<string>, key: string)
    requires Agrees(redis, f) && Agrees(db, f)
    ensures Agrees(Warm(redis, db, missed, lost), f)
    ensures key in missed && key !in redis && key !in lost ==>
      Lookup(Warm(redis, db, missed, lost), map[], key, false, true) == Lookup(redis, db, key, false, false)
  {
  }

  /** Writing back rows that agree with `f` keeps the table agreeing, whichever writes are lost. */
  lemma {:induction false} WriteBackKeepsAgreeing(t: Table, rows: seq<Row>, f: string -> seq<string>, norm: Norm, lost: set<string>)
    requires Agrees(t, f) && RowsAgree(rows, f, norm)
    ensures Agrees(WriteBack(t, rows, norm, lost), f)
  {
    if rows != [] {
      WriteBackKeepsAgreeing(t, rows[..|rows| - 1], f, norm, lost);
      assert Clean(Last(rows).labels) == f(norm(Last(rows).keyword));
    }
  }

  /** The entry of a key was there before, or is the cleaned, non-empty answer of one of the rows: never a fallback. */
  ghost predicate FromRows(rows: seq<Row>, key: string, labels: seq<string>, norm: Norm) {
    labels != [] && exists i :: 0 <= i < |rows| && norm(rows[i].keyword) == key && Clean(rows[i].labels) == labels
  }

  lemma {:induction false} WriteBackStoresOnlyAnswers(t: Table, rows: seq<Row>, norm: Norm, lost: set<string>, key: string)
    requires key in WriteBack(t, rows, norm, lost)
    ensures var labels := WriteBack(t, rows, norm, lost)[key];
      (key in t && t[key] == labels) || (key !in lost && FromRows(rows, key, labels, norm))
  {
    if rows != [] {
      var before := rows[..|rows| - 1];
      var labels := WriteBack(t, rows, norm, lost)[key];
      var last := |rows| - 1;
      if norm(rows[last].keyword) == key && key !in lost && Clean(rows[last].labels) != [] {
        assert FromRows(rows, key, labels, norm);
      } else {
        WriteBackStoresOnlyAnswers(t, before, norm, lost, key);
        if FromRows(before, key, labels, norm) {
          var i :| 0 <= i < |before| && norm(before[i].keyword) == key && Clean(before[i].labels) == labels;
          assert norm(rows[i].keyword) == key && Clean(rows[i].labels) == labels;
        }
      }
    }
  }

  /** Row number `j` is the last one with this key whose labels are not empty once cleaned. */
  ghost predicate LastAnswer(rows: seq<Row>, j: nat, key: string, norm: Norm) {
    j < |rows| && norm(rows[j].keyword) == key && Clean(rows[j].labels) != []
    && forall i :: j < i < |rows| && norm(rows[i].keyword) == key ==> Clean(rows[i].labels) == []
  }

  /** Whether the two tables say the same of a key. */
  ghost predicate SameAt(t: Table, u: Table, key: string) {
    (key in t <==> key in u) && (key in t ==> t[key] == u[key])
  }

  /** Every key whose write is not lost ends with its last non-empty answer; a key without one, or whose write is lost, stays as it was. */
  lemma {:induction false} WriteBackStores(t: Table, rows: seq<Row>, norm: Norm, lost: set<string>, key: string)
    ensures var after := WriteBack(t, rows, norm, lost);
      if key !in lost && exists j: nat :: LastAnswer(rows, j, key, norm) then
        key in after && exists j: nat :: LastAnswer(rows, j, key, norm) && after[key] == Clean(rows[j].labels)
      else SameAt(t, after, key)
  {
    if rows != [] {
      var before, last := rows[..|rows| - 1], |rows| - 1;
      WriteBackStores(t, before, norm, lost, key);
      if norm(rows[last].keyword) == key && Clean(rows[last].labels) != [] {
        assert LastAnswer(rows, last, key, norm);
      } else {
        forall j: nat ensures LastAnswer(before, j, key, norm) <==> LastAnswer(rows, j, key, norm) {
          LastAnswerSnoc(rows, j, key, norm);
        }
      }
    }
  }

  lemma LastAnswerSnoc(rows: seq<Row>, j: nat, key: string, norm: Norm)
    requires rows != [] && !(norm(Last(rows).keyword) == key && Clean(Last(rows).labels) != [])
    ensures LastAnswer(rows[..|rows| - 1], j, key, norm) <==> LastAnswer(rows, j, key, norm)
  {
    var before := rows[..|rows| - 1];
    assert forall i :: 0 <= i < |before| ==> before[i] == rows[i];
  }

  /** Warming copies what the table has for the missed keys, as far as the write works, and changes nothing else. */
  lemma WarmCopies(redis: Table, db: Table, missed: set<string>, lost: set<string>, key: string)
    ensures var after := Warm(redis, db, missed, lost);
      if key in missed && key in db && key !in lost then key in after && after[key] == db[key] else SameAt(redis, after, key)
  {
  }

  /** The keys one read does not find in Redis. */
  function Missed(redis: Table, keys: seq<string>, redisDown: bool): set<string> {
    set i | 0 <= i < |keys| && (redisDown || keys[i] !in redis) :: keys[i]
  }

  /** What the durable table has for the missed keys. */
  function Backup(db: Table, missed: set<string>): Table {
    map k | k in missed && k in db :: db[k]
  }

  function FromRedis(redis: Table, keys: seq<string>, redisDown: bool): (r: seq<Option<seq<string>>>)
    ensures |r| == |keys|
  {
    seq(|keys|, i requires 0 <= i < |keys| => if redisDown then None else Get(redis, keys[i]))
  }

  function Filled(cached: seq<Option<seq<string>>>, backup: Table, keys: seq<string>): (r: seq<Option<seq<string>>>)
    requires |cached| == |keys|
    ensures |r| == |keys|
  {
    seq(|keys|, i requires 0 <= i < |keys| => if cached[i].Some? then cached[i] else Get(backup, keys[i]))
  }

  lemma MissedAre(redis: Table, texts: seq<string>, norm: Norm, redisDown: bool, key: string)
    ensures key in Missed(redis, NormalizeAll(texts, norm), redisDown)
       <==> (redisDown || key !in redis) && exists i :: 0 <= i < |texts| && norm(texts[i]) == key
  {
    var keys := NormalizeAll(texts, norm);
    if i :| 0 <= i < |texts| && norm(texts[i]) == key { assert keys[i] == key; }
  }

  /** Asking the table only for what Redis missed answers the same as asking both layers for every key. */
  lemma TwoLayersAnswer(redis: Table, db: Table, keys: seq<string>, redisDown: bool, dbDown: bool, i: nat)
    requires i < |keys|
    ensures var missed := Missed(redis, keys, redisDown);
      var cached := FromRedis(redis, keys, redisDown);
      && (missed == {} ==> cached[i] == Lookup(redis, db, keys[i], redisDown, dbDown))
      && Filled(cached, if dbDown then map[] else Backup(db, missed), keys)[i] == Lookup(redis, db, keys[i], redisDown, dbDown)
  {
    if redisDown || keys[i] !in redis { assert keys[i] in Missed(redis, keys, redisDown); }
  }

  lemma WarmFromBackup(redis: Table, db: Table, missed: set<string>, lost: set<string>)
    ensures Warm(redis, Backup(db, missed), missed, lost) == Warm(redis, db, missed, lost)
    ensures Warm(redis, map[], missed, lost) == redis == Warm(redis, db, {}, lost)
  {
  }

  /** The label cache. Entries may also vanish from Redis at any time; every contract below is about the present entries. */
  class IntentCache {
    var redis: Table
    var db: Table

    constructor ()
      ensures redis == map[] && db == map[]
    {
      redis, db := map[], map[];
    }

    method Mget(texts: seq<string>, norm: Norm, redisDown: bool, dbDown: bool, lost: set<string>)
        returns (found: seq<Option<seq<string>>>)
      modifies this`redis
      ensures |found| == |texts|
      ensures forall i :: 0 <= i < |texts| ==> found[i] == Lookup(old(redis), db, norm(texts[i]), redisDown, dbDown)
      ensures redis == if dbDown then old(redis)
                       else Warm(old(redis), db, Missed(old(redis), NormalizeAll(texts, norm), redisDown), lost)
    {
      var keys := NormalizeAll(texts, norm);
      var cached := FromRedis(redis, keys, redisDown);
      var missed := Missed(redis, keys, redisDown);
      WarmFromBackup(redis, db, missed, lost);
      forall i: nat | i < |texts|
        ensures (missed == {} ==> cached[i] == Lookup(redis, db, keys[i], redisDown, dbDown))
             && Filled(cached, if dbDown then map[] else Backup(db, missed), keys)[i] == Lookup(redis, db, keys[i], redisDown, dbDown)
      {
        TwoLayersAnswer(redis, db, keys, redisDown, dbDown, i);
      }
      if missed == {} {
        found := cached;
      } else {
        var backup := if dbDown then map[] else Backup(db, missed);
        redis := Warm(redis, backup, missed, lost);
        found := Filled(cached, backup, keys);
      }
    }

    method Mset(rows: seq<Row>, norm: Norm, lostRedis: set<string>, lostDb: set<string>)
      modifies this
      ensures redis == WriteBack(old(redis), rows, norm, lostRedis)
      ensures db == WriteBack(old(db), rows, norm, lostDb)
    {
      for i := 0 to |rows|
        invariant redis == WriteBack(old(redis), rows[..i], norm, lostRedis)
        invariant db == WriteBack(old(db), rows[..i], norm, lostDb)
      {
        assert rows[..i + 1][..i] == rows[..i];
        var key := norm(rows[i].keyword);
        var labels := CleanLabels(rows[i].labels);
        if labels != [] && key !in lostRedis {
          redis := redis[key := labels];
        }
        if labels != [] && key !in lostDb {
          db := db[key := labels];
        }
      }
      assert rows[..|rows|] == rows;
    }
  }
}
