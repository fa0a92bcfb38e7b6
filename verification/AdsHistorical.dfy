/** Exact mode: metrics for the user's own keywords, matched back through close variants, with no input lost. */
module AdsHistorical {
  import opened Base
  import opened AdsChunks
  import opened AdsRateLimiter
  import opened AdsExpansion
  import opened Normalize

  function Filter(keys: seq<string>, keep: set<string>): seq<string> {
    if keys == [] then []
    else Filter(keys[..|keys| - 1], keep) + (if Last(keys) in keep then [Last(keys)] else [])
  }

  lemma {:induction false} FilterKeeps(keys: seq<string>, keep: set<string>)
    ensures forall k :: k in Filter(keys, keep) <==> k in keys && k in keep
  {
    if keys != [] {
      FilterKeeps(keys[..|keys| - 1], keep);
      assert keys == keys[..|keys| - 1] + [Last(keys)];
    }
  }

  /** The inputs of this batch an answered row stands for: its own text and its close variants. */
  function Origins<M>(idea: RawIdea<M>, batch: seq<string>, norm: Norm): seq<string> {
    Filter(NormalizeAll(batch, norm), set k | k in NormalizeAll([idea.text] + idea.variants, norm))
  }

  /** Rows that stand for no input of the batch are skipped. */
  function MatchIdeas<M>(ideas: seq<RawIdea<M>>, batch: seq<string>, norm: Norm): seq<Candidate<M>> {
    if ideas == [] then []
    else
      var before, origins := MatchIdeas(ideas[..|ideas| - 1], batch, norm), Origins(Last(ideas), batch, norm);
      if origins == [] then before else before + [Candidate(Last(ideas).text, Seed, Last(ideas).metrics, Some(origins))]
  }

  datatype Matched<M> = Matched(ok: bool, cands: seq<Candidate<M>>)

  /** The matched rows of the first `n` batches, up to the first request that ended in an error. */
  function MatchAll<M>(batches: seq<seq<string>>, api: Api<M>, retries: nat, norm: Norm): Matched<M>
    decreases |batches|
  {
    if batches == [] then Matched(true, [])
    else
      var before := MatchAll(batches[..|batches| - 1], api, retries, norm);
      var reply := FinalReply(api, |batches| - 1, retries);
      if !before.ok then before
      else if !reply.Answered? then Matched(false, before.cands)
      else Matched(true, before.cands + MatchIdeas(reply.value, Last(batches), norm))
  }

  /** The keys some matched row stands for. */
  function Covered<M>(cands: seq<Candidate<M>>): set<string> {
    if cands == [] then {}
    else Covered(cands[..|cands| - 1]) + (if Last(cands).origins.Some? then set k | k in Last(cands).origins.value else {})
  }

  function Uncovered<M>(keywords: seq<string>, covered: set<string>, norm: Norm): seq<Candidate<M>> {
    if keywords == [] then []
    else
      var before := Uncovered(keywords[..|keywords| - 1], covered, norm);
      if norm(Last(keywords)) in covered then before else before + [Candidate(Last(keywords), Seed, None, None)]
  }

  function HistoricalCandidates<M>(keywords: seq<string>, batchSize: Option<Number>, api: Api<M>, retries: nat, norm: Norm): Matched<M> {
    var m := MatchAll(Chunks(keywords, HistoricalSize(batchSize)), api, retries, norm);
    if m.ok then Matched(true, m.cands + Uncovered(keywords, Covered(m.cands), norm)) else m
  }

  lemma {:induction false} CoveredConcat<M>(a: seq<Candidate<M>>, b: seq<Candidate<M>>)
    ensures Covered(a + b) == Covered(a) + Covered(b)
  {
    if b == [] {
      assert a + b == a;
    } else {
      assert (a + b)[..|a| + |b| - 1] == a + b[..|b| - 1];
      CoveredConcat(a, b[..|b| - 1]);
    }
  }

  /** The rows of one answer, and the keys they cover. */
  method MatchBatch<M>(ideas: seq<RawIdea<M>>, batch: seq<string>, norm: Norm) returns (cands: seq<Candidate<M>>, covered: set<string>)
    ensures cands == MatchIdeas(ideas, batch, norm) && covered == Covered(cands)
  {
    cands, covered := [], {};
    for i := 0 to |ideas|
      invariant cands == MatchIdeas(ideas[..i], batch, norm) && covered == Covered(cands)
    {
      assert ideas[..i + 1][..i] == ideas[..i];
      var origins := Origins(ideas[i], batch, norm);
      if |origins| == 0 { continue; }
      var c := Candidate(ideas[i].text, Seed, ideas[i].metrics, Some(origins));
      assert (cands + [c])[..|cands|] == cands;
      cands, covered := cands + [c], covered + set k | k in origins;
    }
    assert ideas[..|ideas|] == ideas;
  }

  /** One request through the limiter. */
  method MatchRequest<M>(limiter: Limiter, cid: string, b: nat, api: Api<M>, clocks: Clocks) returns (reply: Reply<seq<RawIdea<M>>>)
    modifies limiter
    ensures reply == FinalReply(api, b, limiter.maxRetries)
  {
    var calls, slots;
    reply, calls, slots := limiter.Schedule(cid, clocks(b), api(b));
  }

  /** The requests, one after the other, up to the first that fails. */
  method MatchRequests<M>(limiter: Limiter, cid: string, batches: seq<seq<string>>, api: Api<M>, clocks: Clocks, norm: Norm)
      returns (m: Matched<M>, covered: set<string>)
    modifies limiter
    ensures m.ok == MatchAll(batches, api, limiter.maxRetries, norm).ok
    ensures m.ok ==> m == MatchAll(batches, api, limiter.maxRetries, norm) && covered == Covered(m.cands)
  {
    ghost var retries := limiter.maxRetries;
    m, covered := Matched(true, []), {};
    for b := 0 to |batches|
      invariant m.ok && m == MatchAll(batches[..b], api, retries, norm) && covered == Covered(m.cands)
    {
      assert batches[..b + 1][..b] == batches[..b];
      var reply := MatchRequest(limiter, cid, b, api, clocks);
      if !reply.Answered? {
        BrokenOff(batches, b + 1, api, retries, norm);
        m := Matched(false, []);
        return;
      }
      var more, keys := MatchBatch(reply.value, batches[b], norm);
      CoveredConcat(m.cands, more);
      m, covered := Matched(true, m.cands + more), covered + keys;
    }
    assert batches[..|batches|] == batches;
  }

  method FillIn<M>(keywords: seq<string>, covered: set<string>, norm: Norm) returns (missing: seq<Candidate<M>>)
    ensures missing == Uncovered(keywords, covered, norm)
  {
    missing := [];
    for i := 0 to |keywords|
      invariant missing == Uncovered(keywords[..i], covered, norm)
    {
      assert keywords[..i + 1][..i] == keywords[..i];
      if norm(keywords[i]) !in covered {
        missing := missing + [Candidate(keywords[i], Seed, None, None)];
      }
    }
    assert keywords[..|keywords|] == keywords;
  }

  method FetchHistoricalMetrics<M>(limiter: Limiter, cid: string, keywords: seq<string>, batchSize: Option<Number>,
                                   api: Api<M>, clocks: Clocks, norm: Norm)
      returns (ok: bool, rows: seq<Candidate<M>>)
    modifies limiter
    ensures var h := HistoricalCandidates(keywords, batchSize, api, limiter.maxRetries, norm);
      ok == h.ok && (ok ==> rows == Dedupe(h.cands, norm))
  {
    var batches := ChunkHistorical(keywords, batchSize);
    var m, covered := MatchRequests(limiter, cid, batches, api, clocks, norm);
    if !m.ok { return false, []; }
    var missing: seq<Candidate<M>> := FillIn(keywords, covered, norm);
    rows := DedupeMerge(m.cands + missing, norm);
    ok := true;
  }

  lemma {:induction false} BrokenOff<M>(batches: seq<seq<string>>, b: nat, api: Api<M>, retries: nat, norm: Norm)
    requires b <= |batches| && !MatchAll(batches[..b], api, retries, norm).ok
    ensures !MatchAll(batches, api, retries, norm).ok
    decreases |batches|
  {
    if b < |batches| {
      assert batches[..|batches| - 1][..b] == batches[..b];
      BrokenOff(batches[..|batches| - 1], b, api, retries, norm);
    } else {
      assert batches[..b] == batches;
    }
  }

  // ---------------------------------------------------------------- no input is lost

  ghost predicate StandsFor<M>(row: Candidate<M>, key: string, norm: Norm) {
    norm(row.text) == key || (row.origins.Some? && key in row.origins.value)
  }

  lemma {:induction false} CoveredBy<M>(cands: seq<Candidate<M>>, key: string) returns (i: nat)
    requires key in Covered(cands)
    ensures i < |cands| && cands[i].origins.Some? && key in cands[i].origins.value
  {
    if Last(cands).origins.Some? && key in Last(cands).origins.value {
      i := |cands| - 1;
    } else {
      i := CoveredBy(cands[..|cands| - 1], key);
    }
  }

  lemma {:induction false} UncoveredListed<M>(keywords: seq<string>, covered: set<string>, norm: Norm, w: nat)
    requires w < |keywords| && norm(keywords[w]) !in covered
    ensures Candidate(keywords[w], Seed, None, None) in Uncovered<M>(keywords, covered, norm)
  {
    if w < |keywords| - 1 { UncoveredListed<M>(keywords[..|keywords| - 1], covered, norm, w); }
  }

  lemma {:induction false} OriginsGathered<M>(g: seq<Candidate<M>>, c: Candidate<M>, key: string)
    requires c in g && c.origins.Some? && key in c.origins.value
    ensures key in AllOrigins(g) && !NoOrigins(g)
  {
    assert g == g[..|g| - 1] + [Last(g)];
    if c != Last(g) {
      OriginsGathered(g[..|g| - 1], c, key);
    }
    var i :| 0 <= i < |g| && g[i] == c;
  }

  /** Merging keeps what every candidate stands for. */
  lemma MergeStandsFor<M>(cands: seq<Candidate<M>>, norm: Norm, j: nat, key: string) returns (i: nat)
    requires j < |cands| && StandsFor(cands[j], key, norm)
    ensures i < |Dedupe(cands, norm)| && StandsFor(Dedupe(cands, norm)[i], key, norm)
  {
    var own := norm(cands[j].text);
    assert Keys(cands, norm)[j] == own;
    UniqueFacts(Keys(cands, norm));
    assert own in Unique(Keys(cands, norm));
    i :| 0 <= i < |Unique(Keys(cands, norm))| && Unique(Keys(cands, norm))[i] == own;
    FoldGroups(cands, norm);
    DedupeRow(cands, norm, i);
    var g := Group(cands, own, norm);
    GroupMember(cands, own, norm, j);
    if own != key {
      OriginsGathered(g, cands[j], key);
      if |g| >= 2 {
        UniqueFacts(AllOrigins(g));
      } else {
        assert g == [g[0]] && g[0] == cands[j];
      }
    }
  }

  /** Every keyword asked for is represented in the result: by its own row, or through a row that lists it as an origin. */
  lemma EveryKeywordRepresented<M>(keywords: seq<string>, batchSize: Option<Number>, api: Api<M>, retries: nat, norm: Norm, w: nat)
      returns (i: nat)
    requires w < |keywords| && HistoricalCandidates(keywords, batchSize, api, retries, norm).ok
    ensures var rows := Dedupe(HistoricalCandidates(keywords, batchSize, api, retries, norm).cands, norm);
      i < |rows| && StandsFor(rows[i], norm(keywords[w]), norm)
  {
    var m := MatchAll(Chunks(keywords, HistoricalSize(batchSize)), api, retries, norm);
    var missing := Uncovered(keywords, Covered(m.cands), norm);
    var cands := m.cands + missing;
    var j: nat;
    if norm(keywords[w]) in Covered(m.cands) {
      j := CoveredBy(m.cands, norm(keywords[w]));
      assert cands[j] == m.cands[j];
    } else {
      UncoveredListed<M>(keywords, Covered(m.cands), norm, w);
      j :| 0 <= j < |missing| && missing[j] == Candidate(keywords[w], Seed, None, None);
      assert cands[|m.cands| + j] == missing[j];
      j := |m.cands| + j;
    }
    i := MergeStandsFor(cands, norm, j, norm(keywords[w]));
  }

  /** Nothing is invented: a candidate is a seed and stands for keywords that were asked for, and only for those. */
  ghost predicate FromInputs<M>(c: Candidate<M>, keywords: seq<string>, norm: Norm) {
    && c.source.Seed?
    && (c.origins.None? ==> c.text in keywords && c.metrics.None?)
    && (c.origins.Some? ==> c.origins.value != [] && forall k :: k in c.origins.value ==> IsKeyOf(k, keywords, norm))
  }

  ghost predicate IsKeyOf(key: string, keywords: seq<string>, norm: Norm) {
    exists w {:trigger keywords[w]} :: 0 <= w < |keywords| && norm(keywords[w]) == key
  }

  lemma {:induction false} MatchedFromInputs<M>(ideas: seq<RawIdea<M>>, batch: seq<string>, keywords: seq<string>, norm: Norm)
    requires forall t :: t in batch ==> t in keywords
    ensures forall c :: c in MatchIdeas(ideas, batch, norm) ==> FromInputs(c, keywords, norm)
  {
    if ideas != [] {
      MatchedFromInputs(ideas[..|ideas| - 1], batch, keywords, norm);
      var keys, last := NormalizeAll(batch, norm), Last(ideas);
      FilterKeeps(keys, set k | k in NormalizeAll([last.text] + last.variants, norm));
      forall k | k in Origins(last, batch, norm) ensures IsKeyOf(k, keywords, norm) {
        var i :| 0 <= i < |keys| && keys[i] == k;
        assert batch[i] in keywords;
        var w :| 0 <= w < |keywords| && keywords[w] == batch[i];
        assert norm(keywords[w]) == k;
      }
    }
  }

  lemma {:induction false} AllFromInputs<M>(batches: seq<seq<string>>, keywords: seq<string>, api: Api<M>, retries: nat, norm: Norm)
    requires forall t :: t in Flatten(batches) ==> t in keywords
    ensures forall c :: c in MatchAll(batches, api, retries, norm).cands ==> FromInputs(c, keywords, norm)
    decreases |batches|
  {
    if batches != [] {
      var before := batches[..|batches| - 1];
      assert batches == before + [Last(batches)];
      FlattenSnoc(before, Last(batches));
      AllFromInputs(before, keywords, api, retries, norm);
      var reply := FinalReply(api, |batches| - 1, retries);
      if reply.Answered? { MatchedFromInputs(reply.value, Last(batches), keywords, norm); }
    }
  }

  lemma {:induction false} UncoveredFromInputs<M>(some: seq<string>, keywords: seq<string>, covered: set<string>, norm: Norm)
    requires forall t :: t in some ==> t in keywords
    ensures forall c :: c in Uncovered<M>(some, covered, norm) ==> FromInputs(c, keywords, norm) && norm(c.text) !in covered
  {
    if some != [] {
      assert Last(some) in keywords;
      UncoveredFromInputs<M>(some[..|some| - 1], keywords, covered, norm);
    }
  }

  lemma HistoricalFromInputs<M>(keywords: seq<string>, batchSize: Option<Number>, api: Api<M>, retries: nat, norm: Norm)
    ensures forall c :: c in HistoricalCandidates(keywords, batchSize, api, retries, norm).cands ==> FromInputs(c, keywords, norm)
  {
    ChunksCover(keywords, HistoricalSize(batchSize));
    var batches := Chunks(keywords, HistoricalSize(batchSize));
    AllFromInputs(batches, keywords, api, retries, norm);
    var m := MatchAll(batches, api, retries, norm);
    UncoveredFromInputs<M>(keywords, keywords, Covered(m.cands), norm);
  }
}
