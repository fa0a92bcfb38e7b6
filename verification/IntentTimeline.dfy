/**
 * The label stream against the real cache: between its reads any job may read, warm, evict and write back labels, this
 * job's own finished chunks included.
 */
module IntentTimeline {
  import opened Base
  import opened IntentLabels
  import opened ResilientBatch
  import opened IntentStream
  import Store = IntentStore

  datatype Tables = Tables(redis: Store.Table, db: Store.Table)

  /** One access to the cache, by any job: a read that warms Redis, the write-back of a finished chunk, entries expiring. */
  datatype Access =
    | Read(texts: seq<string>, redisDown: bool, dbDown: bool, lost: set<string>)
    | Save(chunk: seq<string>, c: nat, lostRedis: set<string>, lostDb: set<string>)
    | Expire(keys: set<string>)

  /** What happens before one of the stream's reads, and how that read fares. */
  datatype Gap = Gap(accesses: seq<Access>, redisDown: bool, dbDown: bool, lost: set<string>)

  type Gaps = nat -> Gap

  /** `all(c)` answers the calls for chunk number `c` of any job. */
  function After(t: Tables, a: Access, all: Nets, norm: Norm): Tables {
    match a
    case Read(texts, redisDown, dbDown, lost) =>
      if dbDown then t
      else Tables(Store.Warm(t.redis, t.db, Store.Missed(t.redis, NormalizeAll(texts, norm), redisDown), lost), t.db)
    case Save(chunk, c, lostRedis, lostDb) =>
      if chunk == [] || ResilientChunk(chunk, all(c), 0).failed then t
      else
        var rows := ResilientChunk(chunk, all(c), 0).collected;
        Tables(Store.WriteBack(t.redis, rows, norm, lostRedis), Store.WriteBack(t.db, rows, norm, lostDb))
    case Expire(keys) => Tables(t.redis - keys, t.db)
  }

  function AfterAll(t: Tables, accesses: seq<Access>, all: Nets, norm: Norm): Tables
    decreases |accesses|
  {
    if accesses == [] then t else AfterAll(After(t, accesses[0], all, norm), accesses[1..], all, norm)
  }

  lemma {:induction false} AfterAllSnoc(t: Tables, accesses: seq<Access>, a: Access, all: Nets, norm: Norm)
    ensures AfterAll(t, accesses + [a], all, norm) == After(AfterAll(t, accesses, all, norm), a, all, norm)
    decreases |accesses|
  {
    if accesses == [] {
      assert [] + [a] == [a] && [a][1..] == [];
      assert AfterAll(After(t, a, all, norm), [], all, norm) == After(t, a, all, norm);
    } else {
      assert (accesses + [a])[1..] == accesses[1..] + [a];
      AfterAllSnoc(After(t, accesses[0], all, norm), accesses[1..], a, all, norm);
    }
  }

  /**
   * A read copies to Redis what only the table had; a finished chunk leaves in either layer, for every key whose write is not
   * lost, its last non-empty answer; expiry takes keys from Redis. Nothing else changes.
   */
  lemma AccessMeans(t: Tables, a: Access, all: Nets, norm: Norm, key: string)
    ensures var after := After(t, a, all, norm);
      match a
      case Read(texts, redisDown, dbDown, lost) =>
        && after.db == t.db
        && (if !dbDown && (redisDown || key !in t.redis) && key in t.db && key !in lost && exists i :: 0 <= i < |texts| && norm(texts[i]) == key
            then key in after.redis && after.redis[key] == t.db[key] else Store.SameAt(t.redis, after.redis, key))
      case Save(chunk, c, lostRedis, lostDb) =>
        if chunk == [] || ResilientChunk(chunk, all(c), 0).failed then after == t
        else
          var rows := ResilientChunk(chunk, all(c), 0).collected;
          Saved(t.redis, after.redis, rows, lostRedis, norm, key) && Saved(t.db, after.db, rows, lostDb, norm, key)
      case Expire(keys) =>
        after.db == t.db && if key in keys then key !in after.redis else Store.SameAt(t.redis, after.redis, key)
  {
    match a
    case Read(texts, redisDown, dbDown, lost) =>
      Store.MissedAre(t.redis, texts, norm, redisDown, key);
      Store.WarmCopies(t.redis, t.db, Store.Missed(t.redis, NormalizeAll(texts, norm), redisDown), lost, key);
    case Save(chunk, c, lostRedis, lostDb) =>
      if chunk != [] && !ResilientChunk(chunk, all(c), 0).failed {
        Store.WriteBackStores(t.redis, ResilientChunk(chunk, all(c), 0).collected, norm, lostRedis, key);
        Store.WriteBackStores(t.db, ResilientChunk(chunk, all(c), 0).collected, norm, lostDb, key);
      }
    case Expire(keys) =>
  }

  /** What a write-back leaves of one key. */
  ghost predicate Saved(t: Store.Table, after: Store.Table, rows: seq<Row>, lost: set<string>, norm: Norm, key: string) {
    if key !in lost && exists j: nat :: Store.LastAnswer(rows, j, key, norm) then
      key in after && exists j: nat :: Store.LastAnswer(rows, j, key, norm) && after[key] == Clean(rows[j].labels)
    else Store.SameAt(t, after, key)
  }

  ghost predicate BothAgree(t: Tables, f: string -> seq<string>) {
    Store.Agrees(t.redis, f) && Store.Agrees(t.db, f)
  }

  lemma AfterAgrees(t: Tables, a: Access, all: Nets, f: string -> seq<string>, norm: Norm)
    requires BothAgree(t, f) && ModelFollows(all, f, norm)
    ensures BothAgree(After(t, a, all, norm), f)
  {
    match a
    case Read(texts, redisDown, dbDown, lost) =>
      Store.WarmKeepsAgreeing(t.redis, t.db, f, Store.Missed(t.redis, NormalizeAll(texts, norm), redisDown), lost, "");
    case Save(chunk, c, lostRedis, lostDb) =>
      if chunk != [] && !ResilientChunk(chunk, all(c), 0).failed {
        ChunkWriteBackAgrees(chunk, all, c, f, norm, t.redis, lostRedis);
        ChunkWriteBackAgrees(chunk, all, c, f, norm, t.db, lostDb);
      }
    case Expire(keys) =>
  }

  /** However reads, warms, expiries and write-backs of any jobs interleave, the two layers stay in agreement with `f`. */
  lemma {:induction false} CacheStaysAgreeing(t: Tables, accesses: seq<Access>, all: Nets, f: string -> seq<string>, norm: Norm)
    requires BothAgree(t, f) && ModelFollows(all, f, norm)
    ensures BothAgree(AfterAll(t, accesses, all, norm), f)
    decreases |accesses|
  {
    if accesses != [] {
      AfterAgrees(t, accesses[0], all, f, norm);
      CacheStaysAgreeing(After(t, accesses[0], all, norm), accesses[1..], all, f, norm);
    }
  }

  // ---------------------------------------------------------------- the reads of one stream

  function ReadOf(batch: seq<string>, gap: Gap): Access {
    Read(batch, gap.redisDown, gap.dbDown, gap.lost)
  }

  /** The tables after the stream's first `n` reads. */
  function TablesAfter(t: Tables, batches: seq<seq<string>>, gaps: Gaps, n: nat, all: Nets, norm: Norm): Tables
    requires n <= |batches|
  {
    if n == 0 then t
    else After(AfterAll(TablesAfter(t, batches, gaps, n - 1, all, norm), gaps(n - 1).accesses, all, norm),
               ReadOf(batches[n - 1], gaps(n - 1)), all, norm)
  }

  /** What the read of batch number `b` finds. */
  function TablesAt(t: Tables, batches: seq<seq<string>>, gaps: Gaps, b: nat, all: Nets, norm: Norm): Tables
    requires b < |batches|
  {
    AfterAll(TablesAfter(t, batches, gaps, b, all, norm), gaps(b).accesses, all, norm)
  }

  function Found(t: Tables, gap: Gap, key: string): Option<seq<string>> {
    Store.Lookup(t.redis, t.db, key, gap.redisDown, gap.dbDown)
  }

  function LookupsOf(t: Tables, batches: seq<seq<string>>, gaps: Gaps, all: Nets, norm: Norm): Lookups {
    (b: nat, key: string) => if b < |batches| then Found(TablesAt(t, batches, gaps, b, all, norm), gaps(b), key) else None
  }

  /** Read number `b` of a stream copies to Redis, of the keys of its own batch, what only the table had when it began. */
  lemma StreamReadMeans(t: Tables, batches: seq<seq<string>>, gaps: Gaps, b: nat, next: nat, all: Nets, norm: Norm, key: string)
    requires b < |batches| && next == b + 1
    ensures var here := TablesAt(t, batches, gaps, b, all, norm); var after := TablesAfter(t, batches, gaps, next, all, norm);
      && (gaps(b).accesses == [] ==> here == TablesAfter(t, batches, gaps, b, all, norm))
      && after.db == here.db
      && (if !gaps(b).dbDown && (gaps(b).redisDown || key !in here.redis) && key in here.db && key !in gaps(b).lost
             && exists i :: 0 <= i < |batches[b]| && norm(batches[b][i]) == key
          then key in after.redis && after.redis[key] == here.db[key] else Store.SameAt(here.redis, after.redis, key))
  {
    var here := TablesAt(t, batches, gaps, b, all, norm);
    assert TablesAfter(t, batches, gaps, next, all, norm) == After(here, ReadOf(batches[b], gaps(b)), all, norm);
    AccessMeans(here, ReadOf(batches[b], gaps(b)), all, norm, key);
  }

  lemma {:induction false} TablesAfterAgree(t: Tables, batches: seq<seq<string>>, gaps: Gaps, n: nat, all: Nets,
                                            f: string -> seq<string>, norm: Norm)
    requires n <= |batches| && BothAgree(t, f) && ModelFollows(all, f, norm)
    ensures BothAgree(TablesAfter(t, batches, gaps, n, all, norm), f)
  {
    if n > 0 {
      TablesAfterAgree(t, batches, gaps, n - 1, all, f, norm);
      CacheStaysAgreeing(TablesAfter(t, batches, gaps, n - 1, all, norm), gaps(n - 1).accesses, all, f, norm);
      AfterAgrees(TablesAt(t, batches, gaps, n - 1, all, norm), ReadOf(batches[n - 1], gaps(n - 1)), all, f, norm);
    }
  }

  /** From agreeing layers every hit of every read is `f`'s answer, whatever happened in between. */
  lemma TimelineFollows(t: Tables, batches: seq<seq<string>>, gaps: Gaps, all: Nets, f: string -> seq<string>, norm: Norm)
    requires BothAgree(t, f) && ModelFollows(all, f, norm)
    ensures CacheFollows(LookupsOf(t, batches, gaps, all, norm), f)
  {
    var lookup := LookupsOf(t, batches, gaps, all, norm);
    forall b: nat, k | IsHit(lookup(b, k)) ensures lookup(b, k).value == f(k) {
      TablesAfterAgree(t, batches, gaps, b, all, f, norm);
      CacheStaysAgreeing(TablesAfter(t, batches, gaps, b, all, norm), gaps(b).accesses, all, f, norm);
      var now := TablesAt(t, batches, gaps, b, all, norm);
      Store.LookupAgrees(now.redis, now.db, f, k, gaps(b).redisDown, gaps(b).dbDown);
    }
  }

  /**
   * The stream on a shared cache: one row per input, in order; labelled by `f` as soon as a layer or some batch had an
   * answer for its key, by the fallback otherwise; and only a keyword put up for review can go unanswered.
   */
  lemma SharedStreamFollows(t: Tables, batches: seq<seq<string>>, size: nat, gaps: Gaps, nets: Nets, all: Nets,
                            f: string -> seq<string>, norm: Norm, i: nat)
    requires size >= 1 && i < |Flatten(batches)|
    requires Labelling(f) && BothAgree(t, f) && ModelFollows(nets, f, norm) && ModelFollows(all, f, norm)
    requires !Stream(batches, size, LookupsOf(t, batches, gaps, all, norm), nets, norm).failed
    ensures var lookup := LookupsOf(t, batches, gaps, all, norm);
      var o := Stream(batches, size, lookup, nets, norm);
      var text := Flatten(batches)[i];
      var answered := SiftAll(batches, lookup, norm).hits + RunAll(Dispatched(batches, size, lookup, norm), nets, 0).collected;
      && |o.labeled| == |Flatten(batches)| && o.labeled[i].keyword == text
      && o.labeled[i].labels == (if Covers(answered, norm(text), norm) then Effective(f(norm(text))) else FALLBACK)
      && (ModelEchoes(nets, norm) && text !in o.needsReview ==> o.labeled[i].labels == Effective(f(norm(text))))
  {
    TimelineFollows(t, batches, gaps, all, f, norm);
    StreamFollows(batches, size, LookupsOf(t, batches, gaps, all, norm), nets, f, norm, i);
  }

  // ---------------------------------------------------------------- the service

  function TablesOf(cache: Store.IntentCache): Tables
    reads cache
  {
    Tables(cache.redis, cache.db)
  }

  /** Any job's accesses, in the order they reach the layers. */
  method Meanwhile(cache: Store.IntentCache, accesses: seq<Access>, all: Nets, norm: Norm)
    modifies cache
    ensures TablesOf(cache) == AfterAll(old(TablesOf(cache)), accesses, all, norm)
  {
    for i := 0 to |accesses|
      invariant AfterAll(TablesOf(cache), accesses[i..], all, norm) == AfterAll(old(TablesOf(cache)), accesses, all, norm)
    {
      assert accesses[i..][1..] == accesses[i + 1..];
      match accesses[i]
      case Read(texts, redisDown, dbDown, lost) =>
        var _ := cache.Mget(texts, norm, redisDown, dbDown, lost);
      case Save(chunk, c, lostRedis, lostDb) =>
        if chunk != [] {
          var _ := LabelChunkAndCache(chunk, all(c), cache, norm, lostRedis, lostDb);
        }
      case Expire(keys) =>
        cache.redis := cache.redis - keys;
    }
  }

  /** Sorts one batch by what its read found. */
  method SiftInto(batch: seq<string>, found: seq<Option<seq<string>>>, b: nat, ghost lookup: Lookups, norm: Norm) returns (s: Sifted)
    requires |found| == |batch| && forall j :: 0 <= j < |batch| ==> found[j] == lookup(b, norm(batch[j]))
    ensures s == SiftBatch(batch, b, lookup, norm)
  {
    s := Sifted([], []);
    for j := 0 to |batch|
      invariant s == SiftBatch(batch[..j], b, lookup, norm)
    {
      assert batch[..j + 1][..j] == batch[..j];
      if found[j].Some? && found[j].value != [] {
        s := Sifted(s.hits + [Row(batch[j], found[j].value)], s.misses);
      } else {
        s := Sifted(s.hits, s.misses + [batch[j]]);
      }
    }
    assert batch[..|batch|] == batch;
  }

  /** The next read of the stream, after whatever others do in between. */
  method ReadNext(batches: seq<seq<string>>, b: nat, cache: Store.IntentCache, gaps: Gaps, all: Nets, norm: Norm,
                  ghost start: Tables, ghost lookup: Lookups) returns (s: Sifted)
    requires b < |batches| && TablesOf(cache) == TablesAfter(start, batches, gaps, b, all, norm)
    requires lookup == LookupsOf(start, batches, gaps, all, norm)
    modifies cache
    ensures s == SiftBatch(batches[b], b, lookup, norm)
    ensures TablesOf(cache) == TablesAfter(start, batches, gaps, b + 1, all, norm)
  {
    Meanwhile(cache, gaps(b).accesses, all, norm);
    ghost var seen := TablesOf(cache);
    assert seen == TablesAt(start, batches, gaps, b, all, norm);
    var found := cache.Mget(batches[b], norm, gaps(b).redisDown, gaps(b).dbDown, gaps(b).lost);
    forall j | 0 <= j < |batches[b]| ensures found[j] == lookup(b, norm(batches[b][j])) {
      assert found[j] == Found(seen, gaps(b), norm(batches[b][j]));
    }
    s := SiftInto(batches[b], found, b, lookup, norm);
  }

  /** Reads the batches, dispatching full chunks of misses as they accumulate and the rest at the end. */
  method ReadBatches(batches: seq<seq<string>>, size: nat, cache: Store.IntentCache, gaps: Gaps, all: Nets, norm: Norm)
      returns (allInputs: seq<string>, cached: seq<Row>, chunks: seq<seq<string>>)
    requires size >= 1
    modifies cache
    ensures var lookup := LookupsOf(old(TablesOf(cache)), batches, gaps, all, norm);
      && allInputs == Flatten(batches) && cached == SiftAll(batches, lookup, norm).hits
      && chunks == Dispatched(batches, size, lookup, norm)
    ensures TablesOf(cache) == TablesAfter(old(TablesOf(cache)), batches, gaps, |batches|, all, norm)
  {
    ghost var lookup := LookupsOf(TablesOf(cache), batches, gaps, all, norm);
    var misses, cursor := [], 0;
    allInputs, cached, chunks := [], [], [];
    for b := 0 to |batches|
      invariant allInputs == Flatten(batches[..b])
      invariant Sifted(cached, misses) == SiftAll(batches[..b], lookup, norm)
      invariant cursor <= |misses| < cursor + size
      invariant AllFull(chunks, size) && Flatten(chunks) == misses[..cursor]
      invariant TablesOf(cache) == TablesAfter(old(TablesOf(cache)), batches, gaps, b, all, norm)
    {
      assert batches[..b + 1][..b] == batches[..b] && batches[..b + 1] == batches[..b] + [batches[b]];
      FlattenSnoc(batches[..b], batches[b]);
      allInputs := allInputs + batches[b];
      var s := ReadNext(batches, b, cache, gaps, all, norm, old(TablesOf(cache)), lookup);
      assert (misses + s.misses)[..cursor] == misses[..cursor];
      cached, misses := cached + s.hits, misses + s.misses;
      cursor, chunks := DispatchFullChunks(misses, cursor, chunks, size);
    }
    assert batches[..|batches|] == batches;
    assert misses == misses[..cursor] + misses[cursor..];
    EarlyChunks(chunks, misses[cursor..], size);
    if |misses| > cursor {
      chunks := chunks + [misses[cursor..]];
    }
    assert chunks == Dispatched(batches, size, lookup, norm);
  }

  /** The write-backs of a job's chunks. */
  function Saves(chunks: seq<seq<string>>, lost: nat -> (set<string>, set<string>)): (r: seq<Access>)
    ensures |r| == |chunks|
  {
    seq(|chunks|, c requires 0 <= c < |chunks| => Save(chunks[c], c, lost(c).0, lost(c).1))
  }

  /** Waits for every chunk; a chunk is written back when it is done, at the latest here. */
  method FinishChunks(chunks: seq<seq<string>>, nets: Nets, cache: Store.IntentCache, norm: Norm, lost: nat -> (set<string>, set<string>),
                      ghost f: string -> seq<string>) returns (out: Outcome<Row, string>)
    requires NoneEmpty(chunks)
    modifies cache
    ensures out == RunAll(chunks, nets, 0)
    ensures TablesOf(cache) == AfterAll(old(TablesOf(cache)), Saves(chunks, lost), nets, norm)
    ensures old(BothAgree(TablesOf(cache), f)) && ModelFollows(nets, f, norm) ==> BothAgree(TablesOf(cache), f)
  {
    ghost var start, saves := TablesOf(cache), Saves(chunks, lost);
    out := Outcome(false, [], [], 0);
    for c := 0 to |chunks|
      invariant NoneEmpty(chunks[c..])
      invariant Join(out, RunAll(chunks[c..], nets, c)) == RunAll(chunks, nets, 0)
      invariant TablesOf(cache) == AfterAll(start, saves[..c], nets, norm)
    {
      assert chunks[c..][1..] == chunks[c + 1..] && chunks[c..][0] == chunks[c];
      AfterAllSnoc(start, saves[..c], saves[c], nets, norm);
      assert saves[..c + 1] == saves[..c] + [saves[c]];
      var one := LabelChunkAndCache(chunks[c], nets(c), cache, norm, lost(c).0, lost(c).1);
      JoinAssociative(out, one, RunAll(chunks[c + 1..], nets, c + 1));
      out := Join(out, one);
    }
    assert saves[..|chunks|] == saves;
    if BothAgree(start, f) && ModelFollows(nets, f, norm) { CacheStaysAgreeing(start, saves, nets, f, norm); }
  }

  /** The whole stream; `f` is any labelling its cache and its model may follow. */
  method LabelStream(batches: seq<seq<string>>, size: nat, cache: Store.IntentCache, gaps: Gaps, nets: Nets, all: Nets,
                     lost: nat -> (set<string>, set<string>), norm: Norm, ghost f: string -> seq<string>)
      returns (o: Labeled, chunks: seq<seq<string>>)
    requires size >= 1
    modifies cache
    ensures var lookup := LookupsOf(old(TablesOf(cache)), batches, gaps, all, norm);
      chunks == Dispatched(batches, size, lookup, norm) && o == Stream(batches, size, lookup, nets, norm)
    ensures TablesOf(cache) == AfterAll(TablesAfter(old(TablesOf(cache)), batches, gaps, |batches|, all, norm), Saves(chunks, lost), nets, norm)
    ensures old(BothAgree(TablesOf(cache), f)) && ModelFollows(all, f, norm) && ModelFollows(nets, f, norm) ==>
              BothAgree(TablesOf(cache), f)
  {
    ghost var before := TablesOf(cache);
    var allInputs, cached;
    allInputs, cached, chunks := ReadBatches(batches, size, cache, gaps, all, norm);
    if BothAgree(before, f) && ModelFollows(all, f, norm) { TablesAfterAgree(before, batches, gaps, |batches|, all, f, norm); }
    var out := FinishChunks(chunks, nets, cache, norm, lost, f);
    if out.failed {
      o := Labeled(true, [], []);
    } else {
      var labeled := PostProcessIntent(allInputs, cached + out.collected, norm);
      o := Labeled(false, labeled, out.needsReview);
    }
  }
}
