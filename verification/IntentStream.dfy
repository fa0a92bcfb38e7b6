/** Labelling a stream of keyword batches: cache first, misses in full chunks as they accumulate, one row per input. */
module IntentStream {
  import opened Base
  import opened IntentLabels
  import opened ResilientBatch
  import Store = IntentStore

  /** What the cache answers for a key while batch number `b` is read, whatever other jobs have written by then. */
  type Lookups = (nat, string) -> Option<seq<string>>

  /** `nets(c)(k, part)` is the answer to call number `k` made for dispatched chunk number `c`, whenever it runs. */
  type Nets = nat -> (nat, seq<string>) -> Reply<Row>

  datatype Sifted = Sifted(hits: seq<Row>, misses: seq<string>)

  predicate IsHit(l: Option<seq<string>>) {
    l.Some? && l.value != []
  }

  function SiftBatch(batch: seq<string>, b: nat, lookup: Lookups, norm: Norm): Sifted
    decreases |batch|
  {
    if batch == [] then Sifted([], [])
    else
      var before := SiftBatch(batch[..|batch| - 1], b, lookup, norm);
      var l := lookup(b, norm(Last(batch)));
      if IsHit(l) then Sifted(before.hits + [Row(Last(batch), l.value)], before.misses)
      else Sifted(before.hits, before.misses + [Last(batch)])
  }

  /** Every input is either a hit with the cached labels or queued for the model, in input order. */
  function SiftAll(batches: seq<seq<string>>, lookup: Lookups, norm: Norm): Sifted
    decreases |batches|
  {
    if batches == [] then Sifted([], [])
    else
      var before := SiftAll(batches[..|batches| - 1], lookup, norm);
      var last := SiftBatch(Last(batches), |batches| - 1, lookup, norm);
      Sifted(before.hits + last.hits, before.misses + last.misses)
  }

  /** The inputs at `hp` are answered by the cache, with what it has for them, the others, at `mp`, are not; both in input order. */
  ghost predicate Sifts(s: Sifted, batch: seq<string>, b: nat, lookup: Lookups, norm: Norm, hp: seq<nat>, mp: seq<nat>) {
    && |hp| == |s.hits| && |mp| == |s.misses| && Rising(hp) && Rising(mp)
    && (forall x :: 0 <= x < |hp| ==> hp[x] < |batch| && HitRow(s.hits[x], batch[hp[x]], b, lookup, norm))
    && (forall x :: 0 <= x < |mp| ==> mp[x] < |batch| && s.misses[x] == batch[mp[x]])
    && SiftedAll(batch, b, lookup, norm, hp, mp)
  }

  ghost predicate HitRow(row: Row, text: string, b: nat, lookup: Lookups, norm: Norm) {
    row.keyword == text && row.labels != [] && lookup(b, norm(text)) == Some(row.labels)
  }

  ghost predicate SiftedAll(batch: seq<string>, b: nat, lookup: Lookups, norm: Norm, hp: seq<nat>, mp: seq<nat>) {
    forall i :: 0 <= i < |batch| ==>
      var l := lookup(b, norm(batch[i]));
      if l.Some? && l.value != [] then i in hp && i !in mp else i in mp && i !in hp
  }

  lemma SiftsSnoc(s: Sifted, batch: seq<string>, b: nat, lookup: Lookups, norm: Norm, hp: seq<nat>, mp: seq<nat>)
    requires batch != [] && Sifts(s, batch[..|batch| - 1], b, lookup, norm, hp, mp)
    ensures var l, n := lookup(b, norm(Last(batch))), |batch| - 1;
      if l.Some? && l.value != [] then
        Sifts(Sifted(s.hits + [Row(Last(batch), l.value)], s.misses), batch, b, lookup, norm, hp + [n], mp)
      else Sifts(Sifted(s.hits, s.misses + [Last(batch)]), batch, b, lookup, norm, hp, mp + [n])
  {
    var front, n := batch[..|batch| - 1], |batch| - 1;
    assert forall i :: 0 <= i < n ==> front[i] == batch[i];
    RisingSnoc(hp, n);
    RisingSnoc(mp, n);
  }

  /** One read, input by input. */
  lemma {:induction false} SiftBatchMeans(batch: seq<string>, b: nat, lookup: Lookups, norm: Norm) returns (hp: seq<nat>, mp: seq<nat>)
    ensures Sifts(SiftBatch(batch, b, lookup, norm), batch, b, lookup, norm, hp, mp)
    decreases |batch|
  {
    hp, mp := [], [];
    if batch != [] {
      hp, mp := SiftBatchMeans(batch[..|batch| - 1], b, lookup, norm);
      SiftsSnoc(SiftBatch(batch[..|batch| - 1], b, lookup, norm), batch, b, lookup, norm, hp, mp);
      if IsHit(lookup(b, norm(Last(batch)))) { hp := hp + [|batch| - 1]; } else { mp := mp + [|batch| - 1]; }
    }
  }

  /** All reads: the hits and the misses of each, one read after the other. */
  lemma SiftAllMeans(batches: seq<seq<string>>, batch: seq<string>, lookup: Lookups, norm: Norm)
      returns (hits: seq<Row>, misses: seq<string>, hp: seq<nat>, mp: seq<nat>)
    ensures SiftAll([], lookup, norm) == Sifted([], [])
    ensures var before, after := SiftAll(batches, lookup, norm), SiftAll(batches + [batch], lookup, norm);
      && after == Sifted(before.hits + hits, before.misses + misses)
      && Sifts(Sifted(hits, misses), batch, |batches|, lookup, norm, hp, mp)
  {
    assert (batches + [batch])[..|batches|] == batches;
    var s := SiftBatch(batch, |batches|, lookup, norm);
    hits, misses := s.hits, s.misses;
    hp, mp := SiftBatchMeans(batch, |batches|, lookup, norm);
  }

  datatype Labeled = Labeled(failed: bool, labeled: seq<Row>, needsReview: seq<string>)

  lemma ChunksNotEmpty(misses: seq<string>, size: nat)
    requires size >= 1
    ensures NoneEmpty(Chunks(misses, size))
  {
    ChunksCover(misses, size);
    var chunks := Chunks(misses, size);
    assert forall i :: 0 <= i < |chunks| ==> chunks[i] in chunks;
  }

  /** All misses, in order, cut into chunks of the batch size; the last one may be shorter. */
  function Dispatched(batches: seq<seq<string>>, size: nat, lookup: Lookups, norm: Norm): (r: seq<seq<string>>)
    requires size >= 1
    ensures NoneEmpty(r)
  {
    ChunksNotEmpty(SiftAll(batches, lookup, norm).misses, size);
    Chunks(SiftAll(batches, lookup, norm).misses, size)
  }

  function Stream(batches: seq<seq<string>>, size: nat, lookup: Lookups, nets: Nets, norm: Norm): Labeled
    requires size >= 1
  {
    var out := RunAll(Dispatched(batches, size, lookup, norm), nets, 0);
    if out.failed then Labeled(true, [], [])
    else Labeled(false, PostProcess(Flatten(batches), SiftAll(batches, lookup, norm).hits + out.collected, norm), out.needsReview)
  }

  // ---------------------------------------------------------------- the streaming loop

  ghost predicate AllFull(chunks: seq<seq<string>>, size: nat) {
    forall i :: 0 <= i < |chunks| ==> |chunks[i]| == size
  }

  /** Full chunks cut early are the chunks a cut of the whole queue begins with. */
  lemma {:induction false} EarlyChunks(chunks: seq<seq<string>>, rest: seq<string>, size: nat)
    requires size >= 1 && AllFull(chunks, size)
    ensures Chunks(Flatten(chunks) + rest, size) == chunks + Chunks(rest, size)
    decreases |chunks|
  {
    if chunks == [] {
      assert Flatten(chunks) + rest == rest;
    } else {
      EarlyChunks(chunks[1..], rest, size);
      var tail := Flatten(chunks[1..]) + rest;
      assert Flatten(chunks) + rest == chunks[0] + tail;
      assert (chunks[0] + tail)[..size] == chunks[0] && (chunks[0] + tail)[size..] == tail;
      if tail == [] { assert chunks[0] + tail == chunks[0]; }
    }
  }

  /** Cuts full chunks off the queue from `cursor` on. */
  method DispatchFullChunks(misses: seq<string>, cursor: nat, chunks: seq<seq<string>>, size: nat)
      returns (cursor': nat, chunks': seq<seq<string>>)
    requires size >= 1 && cursor <= |misses|
    requires AllFull(chunks, size) && Flatten(chunks) == misses[..cursor]
    ensures cursor <= cursor' <= |misses| < cursor' + size
    ensures AllFull(chunks', size) && Flatten(chunks') == misses[..cursor']
  {
    cursor', chunks' := cursor, chunks;
    while |misses| - cursor' >= size
      invariant cursor <= cursor' <= |misses|
      invariant AllFull(chunks', size) && Flatten(chunks') == misses[..cursor']
    {
      var chunk := misses[cursor'..cursor' + size];
      FlattenSnoc(chunks', chunk);
      assert misses[..cursor'] + chunk == misses[..cursor' + size];
      cursor', chunks' := cursor' + size, chunks' + [chunk];
    }
  }

  /** Every cache miss is dispatched exactly once, in order, in chunks of at most `size`. */
  lemma DispatchedAreTheMisses(batches: seq<seq<string>>, size: nat, lookup: Lookups, norm: Norm)
    requires size >= 1
    ensures var chunks := Dispatched(batches, size, lookup, norm);
      && Flatten(chunks) == SiftAll(batches, lookup, norm).misses
      && |chunks| == CeilDiv(|SiftAll(batches, lookup, norm).misses|, size)
      && forall c :: c in chunks ==> 1 <= |c| <= size
  {
    ChunksCover(SiftAll(batches, lookup, norm).misses, size);
  }

  // ---------------------------------------------------------------- the labels agree with f

  /** A labelling: a list of valid labels per key, possibly none. */
  ghost predicate Labelling(f: string -> seq<string>) {
    forall k :: Clean(f(k)) == f(k)
  }

  ghost predicate CacheFollows(lookup: Lookups, f: string -> seq<string>) {
    forall b, k :: IsHit(lookup(b, k)) ==> lookup(b, k).value == f(k)
  }

  /** Whatever batch is answered at all is answered by `f`; any batch may still be refused, filtered or cut off. */
  ghost predicate ModelFollows(nets: Nets, f: string -> seq<string>, norm: Norm) {
    forall c, k, part :: nets(c)(k, part).Answer? ==> RowsAgree(nets(c)(k, part).results, f, norm)
  }

  /** An answered batch has a row for each of its keywords. */
  ghost predicate ModelEchoes(nets: Nets, norm: Norm) {
    forall c, k, part, x :: nets(c)(k, part).Answer? && x in part ==> Covers(nets(c)(k, part).results, norm(x), norm)
  }

  lemma AgreeConcat(r: seq<Row>, s: seq<Row>, f: string -> seq<string>, norm: Norm)
    requires RowsAgree(r, f, norm) && RowsAgree(s, f, norm)
    ensures RowsAgree(r + s, f, norm)
  {
  }

  lemma CoversConcat(r: seq<Row>, s: seq<Row>, key: string, norm: Norm)
    ensures Covers(r + s, key, norm) <==> Covers(r, key, norm) || Covers(s, key, norm)
  {
    var rs := r + s;
    if i :| 0 <= i < |r| && norm(r[i].keyword) == key { assert rs[i] == r[i]; }
    if i :| 0 <= i < |s| && norm(s[i].keyword) == key { assert rs[|r| + i] == s[i]; }
    if i :| 0 <= i < |rs| && norm(rs[i].keyword) == key {
      assert i < |r| ==> rs[i] == r[i];
      assert i >= |r| ==> rs[i] == s[i - |r|];
    }
  }

  lemma {:induction false} SiftBatchAgrees(batch: seq<string>, b: nat, lookup: Lookups, f: string -> seq<string>, norm: Norm)
    requires Labelling(f) && CacheFollows(lookup, f)
    ensures RowsAgree(SiftBatch(batch, b, lookup, norm).hits, f, norm)
    decreases |batch|
  {
    if batch != [] {
      SiftBatchAgrees(batch[..|batch| - 1], b, lookup, f, norm);
      var l := lookup(b, norm(Last(batch)));
      if IsHit(l) {
        assert Clean(l.value) == f(norm(Last(batch)));
        AgreeConcat(SiftBatch(batch[..|batch| - 1], b, lookup, norm).hits, [Row(Last(batch), l.value)], f, norm);
      }
    }
  }

  lemma {:induction false} HitsAgree(batches: seq<seq<string>>, lookup: Lookups, f: string -> seq<string>, norm: Norm)
    requires Labelling(f) && CacheFollows(lookup, f)
    ensures RowsAgree(SiftAll(batches, lookup, norm).hits, f, norm)
    decreases |batches|
  {
    if batches != [] {
      HitsAgree(batches[..|batches| - 1], lookup, f, norm);
      SiftBatchAgrees(Last(batches), |batches| - 1, lookup, f, norm);
      AgreeConcat(SiftAll(batches[..|batches| - 1], lookup, norm).hits,
                  SiftBatch(Last(batches), |batches| - 1, lookup, norm).hits, f, norm);
    }
  }

  lemma {:induction false} SiftBatchKeeps(batch: seq<string>, b: nat, lookup: Lookups, norm: Norm, x: string)
    requires x in batch
    ensures var s := SiftBatch(batch, b, lookup, norm); x in s.misses || Covers(s.hits, norm(x), norm)
    decreases |batch|
  {
    var before := SiftBatch(batch[..|batch| - 1], b, lookup, norm);
    var l := lookup(b, norm(Last(batch)));
    if IsHit(l) {
      var row := Row(Last(batch), l.value);
      CoversConcat(before.hits, [row], norm(x), norm);
      assert x == Last(batch) ==> norm([row][0].keyword) == norm(x);
    }
    if x != Last(batch) { SiftBatchKeeps(batch[..|batch| - 1], b, lookup, norm, x); }
  }

  lemma {:induction false} SiftAllKeeps(batches: seq<seq<string>>, lookup: Lookups, norm: Norm, x: string)
    requires x in Flatten(batches)
    ensures var s := SiftAll(batches, lookup, norm); x in s.misses || Covers(s.hits, norm(x), norm)
    decreases |batches|
  {
    assert batches == batches[..|batches| - 1] + [Last(batches)];
    FlattenSnoc(batches[..|batches| - 1], Last(batches));
    CoversConcat(SiftAll(batches[..|batches| - 1], lookup, norm).hits,
                 SiftBatch(Last(batches), |batches| - 1, lookup, norm).hits, norm(x), norm);
    if x in Last(batches) {
      SiftBatchKeeps(Last(batches), |batches| - 1, lookup, norm, x);
    } else {
      SiftAllKeeps(batches[..|batches| - 1], lookup, norm, x);
    }
  }

  type Segments = seq<Segment<Row, string>>

  ghost predicate AnswersAgree(segs: Segments, f: string -> seq<string>, norm: Norm) {
    forall i :: 0 <= i < |segs| && segs[i].Answered? ==> RowsAgree(segs[i].results, f, norm)
  }

  lemma {:induction false} ResultsAgree(segs: Segments, f: string -> seq<string>, norm: Norm)
    requires AnswersAgree(segs, f, norm)
    ensures RowsAgree(Results(segs), f, norm)
  {
    if segs != [] {
      ResultsAgree(segs[1..], f, norm);
      AgreeConcat(if segs[0].Answered? then segs[0].results else [], Results(segs[1..]), f, norm);
    }
  }

  ghost predicate AnswersCover(segs: Segments, x: string, norm: Norm) {
    forall i :: 0 <= i < |segs| && segs[i].Answered? && x in segs[i].items ==> Covers(segs[i].results, norm(x), norm)
  }

  lemma {:induction false} ItemAccounted(segs: Segments, x: string, norm: Norm)
    requires x in Items(segs) && AnswersCover(segs, x, norm)
    ensures x in Reviewed(segs) || Covers(Results(segs), norm(x), norm)
  {
    CoversConcat(if segs[0].Answered? then segs[0].results else [], Results(segs[1..]), norm(x), norm);
    if x !in segs[0].items { ItemAccounted(segs[1..], x, norm); }
  }

  /** An answered segment carries the answer its own call got. */
  lemma AnsweredBy(seg: Segment<Row, string>, nets: Nets, count: nat) returns (c: nat)
    requires seg.Answered?
    requires exists n {:trigger nets(n)} :: 0 <= n < 0 + count && Genuine(seg, nets(n))
    ensures nets(c)(seg.call, seg.items) == Answer(seg.results)
  {
    c :| 0 <= c < 0 + count && Genuine(seg, nets(c));
  }

  /** The collected rows follow `f`, and every dispatched keyword has a row or is up for review. */
  lemma ModelOutcome(chunks: seq<seq<string>>, nets: Nets, f: string -> seq<string>, norm: Norm)
    requires NoneEmpty(chunks) && ModelFollows(nets, f, norm)
    requires !RunAll(chunks, nets, 0).failed
    ensures RowsAgree(RunAll(chunks, nets, 0).collected, f, norm)
    ensures ModelEchoes(nets, norm) ==> forall x :: x in Flatten(chunks) ==>
      x in RunAll(chunks, nets, 0).needsReview || Covers(RunAll(chunks, nets, 0).collected, norm(x), norm)
  {
    var segs := BatchesPartitioned(chunks, nets, 0);
    forall i | 0 <= i < |segs| && segs[i].Answered? ensures RowsAgree(segs[i].results, f, norm) {
      var n := AnsweredBy(segs[i], nets, |chunks|);
    }
    ResultsAgree(segs, f, norm);
    if ModelEchoes(nets, norm) {
      forall x | x in Flatten(chunks) ensures x in Reviewed(segs) || Covers(Results(segs), norm(x), norm) {
        forall i | 0 <= i < |segs| && segs[i].Answered? && x in segs[i].items ensures Covers(segs[i].results, norm(x), norm) {
          var n := AnsweredBy(segs[i], nets, |chunks|);
        }
        ItemAccounted(segs, x, norm);
      }
    }
  }

  /**
   * One row per input, in order: labelled by `f` as soon as the cache or some batch answered for its key, by the
   * fallback otherwise; and only a keyword put up for review can go unanswered.
   */
  lemma StreamFollows(batches: seq<seq<string>>, size: nat, lookup: Lookups, nets: Nets, f: string -> seq<string>, norm: Norm, i: nat)
    requires size >= 1 && i < |Flatten(batches)|
    requires Labelling(f) && CacheFollows(lookup, f) && ModelFollows(nets, f, norm)
    requires !Stream(batches, size, lookup, nets, norm).failed
    ensures var o := Stream(batches, size, lookup, nets, norm);
      var text := Flatten(batches)[i];
      var answered := SiftAll(batches, lookup, norm).hits + RunAll(Dispatched(batches, size, lookup, norm), nets, 0).collected;
      && |o.labeled| == |Flatten(batches)| && o.labeled[i].keyword == text
      && o.labeled[i].labels == (if Covers(answered, norm(text), norm) then Effective(f(norm(text))) else FALLBACK)
      && (ModelEchoes(nets, norm) && text !in o.needsReview ==> o.labeled[i].labels == Effective(f(norm(text))))
  {
    var inputs, sift := Flatten(batches), SiftAll(batches, lookup, norm);
    var chunks := Dispatched(batches, size, lookup, norm);
    var out := RunAll(chunks, nets, 0);
    HitsAgree(batches, lookup, f, norm);
    ModelOutcome(chunks, nets, f, norm);
    AgreeConcat(sift.hits, out.collected, f, norm);
    PostProcessFollows(inputs, sift.hits + out.collected, f, norm, i);
    DispatchedAreTheMisses(batches, size, lookup, norm);
    SiftAllKeeps(batches, lookup, norm, inputs[i]);
    CoversConcat(sift.hits, out.collected, norm(inputs[i]), norm);
  }

  /**
   * Any stream, whether or not cache and model agree with anything. It fails exactly when some call for some chunk hit an
   * unexpected error. Otherwise every miss is in one segment, answered or up for review, exactly the latter are reported, and
   * an input's labels are those of the last row with its key, the cached rows first and then the answers in order.
   */
  lemma StreamMeans(batches: seq<seq<string>>, size: nat, lookup: Lookups, nets: Nets, norm: Norm) returns (segs: Segments)
    requires size >= 1
    ensures var chunks, sift, o := Dispatched(batches, size, lookup, norm), SiftAll(batches, lookup, norm), Stream(batches, size, lookup, nets, norm);
      && (o.failed <==> exists c :: 0 <= c < |chunks| && BatchHits(chunks, nets, 0, c))
      && (!o.failed ==>
            && Items(segs) == sift.misses && o.needsReview == Reviewed(segs)
            && (forall i :: 0 <= i < |segs| ==> exists n {:trigger nets(n)} :: 0 <= n < |chunks| && Genuine(segs[i], nets(n)))
            && |o.labeled| == |Flatten(batches)|
            && forall i :: 0 <= i < |o.labeled| ==> LabelledBy(o.labeled[i], Flatten(batches)[i], sift.hits + Results(segs), norm))
  {
    var chunks, sift := Dispatched(batches, size, lookup, norm), SiftAll(batches, lookup, norm);
    AllRethrow(chunks, nets, 0, RunAll(chunks, nets, 0));
    DispatchedAreTheMisses(batches, size, lookup, norm);
    segs := BatchesPartitioned(chunks, nets, 0);
    forall i: nat | i < |Flatten(batches)|
      ensures LabelledBy(PostProcess(Flatten(batches), sift.hits + Results(segs), norm)[i], Flatten(batches)[i], sift.hits + Results(segs), norm)
    {
      EveryInputLabelled(Flatten(batches), sift.hits + Results(segs), norm, i);
    }
  }

  /** The row of an input: its own spelling, and the valid labels of the last of these rows with its key, or `informational`. */
  ghost predicate LabelledBy(row: Row, text: string, rows: seq<Row>, norm: Norm) {
    && row.keyword == text
    && (!Covers(rows, norm(text), norm) ==> row.labels == ["informational"])
    && forall j: nat :: LastWith(rows, j, norm(text), norm) ==>
         row.labels == if Clean(rows[j].labels) != [] then Clean(rows[j].labels) else ["informational"]
  }

  // ---------------------------------------------------------------- write-back

  /** Labels one chunk and writes what was answered back to the cache; a rethrown error writes nothing. */
  method LabelChunkAndCache(chunk: seq<string>, net: (nat, seq<string>) -> Reply<Row>, cache: Store.IntentCache, norm: Norm,
                            lostRedis: set<string>, lostDb: set<string>) returns (o: Outcome<Row, string>)
    requires chunk != []
    modifies cache
    ensures o == ResilientChunk(chunk, net, 0)
    ensures cache.redis == if o.failed then old(cache.redis) else Store.WriteBack(old(cache.redis), o.collected, norm, lostRedis)
    ensures cache.db == if o.failed then old(cache.db) else Store.WriteBack(old(cache.db), o.collected, norm, lostDb)
  {
    o := ResilientChunk(chunk, net, 0);
    if !o.failed && |o.collected| > 0 {
      cache.Mset(o.collected, norm, lostRedis, lostDb);
    }
  }

  /** The write-back of any chunk keeps a table agreeing with `f`; no entry comes from anything but an answer. */
  lemma ChunkWriteBackAgrees(chunk: seq<string>, nets: Nets, c: nat, f: string -> seq<string>, norm: Norm,
                             t: Store.Table, lost: set<string>)
    requires chunk != [] && ModelFollows(nets, f, norm) && Store.Agrees(t, f)
    requires !ResilientChunk(chunk, nets(c), 0).failed
    ensures var rows := ResilientChunk(chunk, nets(c), 0).collected;
      var after := Store.WriteBack(t, rows, norm, lost);
      && Store.Agrees(after, f)
      && forall key :: key in after ==> (key in t && t[key] == after[key]) || Store.FromRows(rows, key, after[key], norm)
  {
    var segs := ChunkPartitioned(chunk, nets(c), 0);
    forall i | 0 <= i < |segs| && segs[i].Answered? ensures RowsAgree(segs[i].results, f, norm) {
      assert Genuine(segs[i], nets(c));
      assert nets(c)(segs[i].call, segs[i].items).Answer?;
    }
    ResultsAgree(segs, f, norm);
    var rows := ResilientChunk(chunk, nets(c), 0).collected;
    Store.WriteBackKeepsAgreeing(t, rows, f, norm, lost);
    var after := Store.WriteBack(t, rows, norm, lost);
    forall key | key in after
      ensures (key in t && t[key] == after[key]) || Store.FromRows(rows, key, after[key], norm)
    {
      Store.WriteBackStoresOnlyAnswers(t, rows, norm, lost, key);
    }
  }
}
