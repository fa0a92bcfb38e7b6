/**
 * What the two Ads modes hand on of the answers they paid for: which answered row becomes which candidate, in what order,
 * and whose metrics and origins a merged row ends with.
 */
module AdsAnswers {
  import opened Base
  import opened AdsChunks
  import opened AdsRateLimiter
  import opened Normalize
  import opened AdsExpansion
  import opened AdsHistorical

  // ---------------------------------------------------------------- exact mode: the rows of one answer

  /** The answered row goes by this key: its own text's, or a close variant's. */
  ghost predicate Named<M>(idea: RawIdea<M>, key: string, norm: Norm) {
    key == norm(idea.text) || exists v :: 0 <= v < |idea.variants| && key == norm(idea.variants[v])
  }

  /** The answered row stands for some keyword of its request. */
  ghost predicate Matches<M>(idea: RawIdea<M>, batch: seq<string>, norm: Norm) {
    exists i :: 0 <= i < |batch| && Named(idea, norm(batch[i]), norm)
  }

  /** The keys of exactly the keywords `batch[pos[0]], batch[pos[1]], ...` the row goes by, in request order. */
  ghost predicate Picks<M>(pos: seq<nat>, origins: seq<string>, idea: RawIdea<M>, batch: seq<string>, norm: Norm) {
    && |pos| == |origins| && Rising(pos)
    && (forall x :: 0 <= x < |pos| ==> pos[x] < |batch| && origins[x] == norm(batch[pos[x]]))
    && (forall i :: 0 <= i < |batch| ==> (i in pos <==> Named(idea, norm(batch[i]), norm)))
  }

  /** The candidate of an answered row: its text and its metrics as answered, a seed, with the keys it stands for. */
  ghost predicate RowOf<M>(c: Candidate<M>, idea: RawIdea<M>, batch: seq<string>, norm: Norm) {
    && c.text == idea.text && c.source == Seed && c.metrics == idea.metrics && c.origins.Some?
    && exists pos :: Picks(pos, c.origins.value, idea, batch, norm)
  }

  /** Candidate `x` is that of answered row `pos[x]`: exactly the rows that stand for a keyword, in answer order. */
  ghost predicate RowsOf<M>(cands: seq<Candidate<M>>, pos: seq<nat>, ideas: seq<RawIdea<M>>, batch: seq<string>, norm: Norm) {
    && |pos| == |cands| && Rising(pos)
    && (forall x :: 0 <= x < |pos| ==> pos[x] < |ideas| && RowOf(cands[x], ideas[pos[x]], batch, norm))
    && AllMatching(pos, ideas, batch, norm)
  }

  ghost predicate AllMatching<M>(pos: seq<nat>, ideas: seq<RawIdea<M>>, batch: seq<string>, norm: Norm) {
    forall j :: 0 <= j < |ideas| ==> (j in pos <==> Matches(ideas[j], batch, norm))
  }

  lemma AllMatchingSnoc<M>(pos: seq<nat>, ideas: seq<RawIdea<M>>, batch: seq<string>, norm: Norm)
    requires ideas != [] && AllMatching(pos, ideas[..|ideas| - 1], batch, norm) && forall x :: 0 <= x < |pos| ==> pos[x] < |ideas| - 1
    ensures AllMatching(if Matches(Last(ideas), batch, norm) then pos + [|ideas| - 1] else pos, ideas, batch, norm)
  {
    var front, n := ideas[..|ideas| - 1], |ideas| - 1;
    assert forall j :: j in pos + [n] <==> j in pos || j == n;
    assert forall j :: 0 <= j < n ==> front[j] == ideas[j];
  }

  lemma KeysNamed<M>(idea: RawIdea<M>, norm: Norm, key: string)
    ensures key in (set k | k in NormalizeAll([idea.text] + idea.variants, norm)) <==> Named(idea, key, norm)
  {
    var all := [idea.text] + idea.variants;
    var keys := NormalizeAll(all, norm);
    if key in keys {
      var i :| 0 <= i < |keys| && keys[i] == key;
      if i > 0 { assert all[i] == idea.variants[i - 1]; }
    }
    if key == norm(idea.text) { assert keys[0] == key; }
    if v :| 0 <= v < |idea.variants| && key == norm(idea.variants[v]) { assert all[v + 1] == idea.variants[v] && keys[v + 1] == key; }
  }

  /** `out` is what `keys` has of `keep`, by position. */
  ghost predicate Keeps(pos: seq<nat>, out: seq<string>, keys: seq<string>, keep: set<string>) {
    && |pos| == |out| && Rising(pos)
    && (forall x :: 0 <= x < |pos| ==> pos[x] < |keys| && out[x] == keys[pos[x]])
    && (forall i :: 0 <= i < |keys| ==> (i in pos <==> keys[i] in keep))
  }

  lemma KeepsSnoc(pos: seq<nat>, out: seq<string>, keys: seq<string>, keep: set<string>)
    requires keys != [] && Keeps(pos, out, keys[..|keys| - 1], keep)
    ensures if Last(keys) in keep then Keeps(pos + [|keys| - 1], out + [Last(keys)], keys, keep) else Keeps(pos, out, keys, keep)
  {
    RisingSnoc(pos, |keys| - 1);
  }

  lemma {:induction false} FilterPicks(keys: seq<string>, keep: set<string>) returns (pos: seq<nat>)
    ensures Keeps(pos, Filter(keys, keep), keys, keep)
  {
    pos := [];
    if keys != [] {
      var front := keys[..|keys| - 1];
      pos := FilterPicks(front, keep);
      KeepsSnoc(pos, Filter(front, keep), keys, keep);
      if Last(keys) in keep { pos := pos + [|keys| - 1]; }
    }
  }

  lemma OriginsPick<M>(idea: RawIdea<M>, batch: seq<string>, norm: Norm)
    ensures exists pos :: Picks(pos, Origins(idea, batch, norm), idea, batch, norm)
    ensures Origins(idea, batch, norm) != [] <==> Matches(idea, batch, norm)
  {
    var keep := set k | k in NormalizeAll([idea.text] + idea.variants, norm);
    var pos := FilterPicks(NormalizeAll(batch, norm), keep);
    forall i | 0 <= i < |batch| ensures i in pos <==> Named(idea, norm(batch[i]), norm) { KeysNamed(idea, norm, norm(batch[i])); }
    assert Picks(pos, Origins(idea, batch, norm), idea, batch, norm);
    if pos != [] { assert pos[0] in pos && Named(idea, norm(batch[pos[0]]), norm); }
  }

  /** The rows of one more answered row. */
  ghost predicate OneMore<M>(cands: seq<Candidate<M>>, all: seq<Candidate<M>>, idea: RawIdea<M>, batch: seq<string>, norm: Norm) {
    if Matches(idea, batch, norm) then all != [] && all[..|all| - 1] == cands && RowOf(Last(all), idea, batch, norm) else all == cands
  }

  lemma RowsOfSnoc<M>(cands: seq<Candidate<M>>, all: seq<Candidate<M>>, pos: seq<nat>, ideas: seq<RawIdea<M>>, batch: seq<string>, norm: Norm)
      returns (pos': seq<nat>)
    requires ideas != [] && RowsOf(cands, pos, ideas[..|ideas| - 1], batch, norm) && OneMore(cands, all, Last(ideas), batch, norm)
    ensures RowsOf(all, pos', ideas, batch, norm)
  {
    var front, n := ideas[..|ideas| - 1], |ideas| - 1;
    RisingSnoc(pos, n);
    pos' := if Matches(Last(ideas), batch, norm) then pos + [n] else pos;
    forall x | 0 <= x < |pos'| ensures pos'[x] < |ideas| && RowOf(all[x], ideas[pos'[x]], batch, norm) {
      if x < |pos| { assert all[x] == cands[x] && front[pos[x]] == ideas[pos[x]]; }
    }
    AllMatchingSnoc(pos, ideas, batch, norm);
  }

  lemma MatchOneMore<M>(ideas: seq<RawIdea<M>>, batch: seq<string>, norm: Norm)
    requires ideas != []
    ensures OneMore(MatchIdeas(ideas[..|ideas| - 1], batch, norm), MatchIdeas(ideas, batch, norm), Last(ideas), batch, norm)
  {
    OriginsPick(Last(ideas), batch, norm);
  }

  lemma {:induction false} MatchIdeasAre<M>(ideas: seq<RawIdea<M>>, batch: seq<string>, norm: Norm) returns (pos: seq<nat>)
    ensures RowsOf(MatchIdeas(ideas, batch, norm), pos, ideas, batch, norm)
  {
    pos := [];
    if ideas != [] {
      var front := ideas[..|ideas| - 1];
      pos := MatchIdeasAre(front, batch, norm);
      MatchOneMore(ideas, batch, norm);
      pos := RowsOfSnoc(MatchIdeas(front, batch, norm), MatchIdeas(ideas, batch, norm), pos, ideas, batch, norm);
    }
  }

  // ---------------------------------------------------------------- exact mode: all answers

  /** Answered row `j` of request `b`. */
  datatype At = At(b: nat, j: nat)

  predicate Earlier(a: At, c: At) {
    a.b < c.b || (a.b == c.b && a.j < c.j)
  }

  ghost predicate AllAnswered<M>(api: Api<M>, n: nat, retries: nat) {
    forall b :: 0 <= b < n ==> FinalReply(api, b, retries).Answered?
  }

  /** There is such an answered row. */
  ghost predicate Received<M>(a: At, batches: seq<seq<string>>, api: Api<M>, retries: nat) {
    a.b < |batches| && FinalReply(api, a.b, retries).Answered? && a.j < |FinalReply(api, a.b, retries).value|
  }

  ghost function Idea<M>(a: At, batches: seq<seq<string>>, api: Api<M>, retries: nat): RawIdea<M>
    requires Received(a, batches, api, retries)
  {
    FinalReply(api, a.b, retries).value[a.j]
  }

  /** There is one and it stands for some keyword of its request. */
  ghost predicate Useful<M>(a: At, batches: seq<seq<string>>, api: Api<M>, retries: nat, norm: Norm) {
    Received(a, batches, api, retries) && Matches(Idea(a, batches, api, retries), batches[a.b], norm)
  }

  ghost predicate InSequence(at: seq<At>) {
    forall x, y :: 0 <= x < y < |at| ==> Earlier(at[x], at[y])
  }

  ghost predicate RowAt<M>(c: Candidate<M>, a: At, batches: seq<seq<string>>, api: Api<M>, retries: nat, norm: Norm) {
    Useful(a, batches, api, retries, norm) && RowOf(c, Idea(a, batches, api, retries), batches[a.b], norm)
  }

  /** Candidate `x` is that of the answered row at `at[x]`: exactly the useful rows, in the order they were answered. */
  ghost predicate AllRowsOf<M>(cands: seq<Candidate<M>>, at: seq<At>, batches: seq<seq<string>>, api: Api<M>, retries: nat, norm: Norm) {
    && |at| == |cands| && InSequence(at)
    && (forall x :: 0 <= x < |at| ==> RowAt(cands[x], at[x], batches, api, retries, norm))
    && (forall a :: Useful(a, batches, api, retries, norm) ==> a in at)
  }

  lemma {:induction false} MatchAllOk<M>(batches: seq<seq<string>>, api: Api<M>, retries: nat, norm: Norm)
    ensures MatchAll(batches, api, retries, norm).ok <==> AllAnswered(api, |batches|, retries)
    decreases |batches|
  {
    if batches != [] { MatchAllOk(batches[..|batches| - 1], api, retries, norm); }
  }

  /** What an earlier request means does not depend on the later ones. */
  lemma UsefulPrefix<M>(a: At, front: seq<seq<string>>, batches: seq<seq<string>>, api: Api<M>, retries: nat, norm: Norm)
    requires batches != [] && front == batches[..|batches| - 1]
    ensures a.b < |front| ==> (Useful(a, front, api, retries, norm) <==> Useful(a, batches, api, retries, norm))
  {
  }

  lemma RowAtPrefix<M>(c: Candidate<M>, a: At, front: seq<seq<string>>, batches: seq<seq<string>>, api: Api<M>, retries: nat, norm: Norm)
    requires batches != [] && front == batches[..|batches| - 1] && RowAt(c, a, front, api, retries, norm)
    ensures RowAt(c, a, batches, api, retries, norm)
  {
  }

  lemma {:induction false} MatchAllAre<M>(batches: seq<seq<string>>, api: Api<M>, retries: nat, norm: Norm) returns (at: seq<At>)
    requires AllAnswered(api, |batches|, retries)
    ensures AllRowsOf(MatchAll(batches, api, retries, norm).cands, at, batches, api, retries, norm)
    decreases |batches|
  {
    at := [];
    if batches != [] {
      var n := |batches| - 1;
      at := MatchAllAre(batches[..n], api, retries, norm);
      MatchAllOk(batches[..n], api, retries, norm);
      var pos := MatchIdeasAre(FinalReply(api, n, retries).value, batches[n], norm);
      at := AppendRows(MatchAll(batches[..n], api, retries, norm).cands, at,
                       MatchIdeas(FinalReply(api, n, retries).value, batches[n], norm), pos, batches, api, retries, norm);
    }
  }

  function Ats(b: nat, pos: seq<nat>): (r: seq<At>)
    ensures |r| == |pos| && forall x :: 0 <= x < |r| ==> r[x] == At(b, pos[x])
  {
    seq(|pos|, x requires 0 <= x < |pos| => At(b, pos[x]))
  }

  lemma AppendRows<M>(cands: seq<Candidate<M>>, at: seq<At>, more: seq<Candidate<M>>, pos: seq<nat>, batches: seq<seq<string>>,
                      api: Api<M>, retries: nat, norm: Norm) returns (all: seq<At>)
    requires batches != [] && AllRowsOf(cands, at, batches[..|batches| - 1], api, retries, norm)
    requires FinalReply(api, |batches| - 1, retries).Answered?
    requires RowsOf(more, pos, FinalReply(api, |batches| - 1, retries).value, Last(batches), norm)
    ensures AllRowsOf(cands + more, all, batches, api, retries, norm)
  {
    var n, front := |batches| - 1, batches[..|batches| - 1];
    all := at + Ats(n, pos);
    forall x | 0 <= x < |all| ensures RowAt((cands + more)[x], all[x], batches, api, retries, norm) {
      if x < |at| { RowAtPrefix(cands[x], at[x], front, batches, api, retries, norm); }
      else { assert all[x] == At(n, pos[x - |at|]) && pos[x - |at|] in pos; }
    }
    forall x | 0 <= x < |at| ensures at[x].b < n { assert RowAt(cands[x], at[x], front, api, retries, norm); }
    AtsInSequence(at, n, pos);
    forall a | Useful(a, batches, api, retries, norm) ensures a in all {
      UsefulPrefix(a, front, batches, api, retries, norm);
      if a.b == n { UsefulListed(a, n, pos, batches, api, retries, norm, more); }
    }
  }

  lemma AtsInSequence(at: seq<At>, n: nat, pos: seq<nat>)
    requires InSequence(at) && Rising(pos) && forall x :: 0 <= x < |at| ==> at[x].b < n
    ensures InSequence(at + Ats(n, pos))
  {
  }

  lemma UsefulListed<M>(a: At, n: nat, pos: seq<nat>, batches: seq<seq<string>>, api: Api<M>, retries: nat, norm: Norm, more: seq<Candidate<M>>)
    requires Useful(a, batches, api, retries, norm) && a.b == n
    requires RowsOf(more, pos, FinalReply(api, n, retries).value, batches[n], norm)
    ensures a in Ats(n, pos)
  {
    assert AllMatching(pos, FinalReply(api, n, retries).value, batches[n], norm) && a.j in pos;
    var x :| 0 <= x < |pos| && pos[x] == a.j;
    assert Ats(n, pos)[x] == a;
  }

  // ---------------------------------------------------------------- exact mode: the result

  /** A useful row filed under this key. */
  ghost predicate Under<M>(a: At, key: string, batches: seq<seq<string>>, api: Api<M>, retries: nat, norm: Norm) {
    Useful(a, batches, api, retries, norm) && norm(Idea(a, batches, api, retries).text) == key
  }

  /** The metrics of the first useful row under a key that has any; none when no such row has any. */
  ghost predicate FirstMetricsUnder<M>(metrics: Option<M>, key: string, batches: seq<seq<string>>, api: Api<M>, retries: nat, norm: Norm) {
    if metrics.None? then forall a :: Under(a, key, batches, api, retries, norm) ==> Idea(a, batches, api, retries).metrics.None?
    else
      exists a :: Under(a, key, batches, api, retries, norm) && Idea(a, batches, api, retries).metrics == metrics
                  && forall c :: Under(c, key, batches, api, retries, norm) && Earlier(c, a) ==> Idea(c, batches, api, retries).metrics.None?
  }

  /** The candidates of the group of a key, by position in the whole list. */
  lemma {:induction false} GroupAt<M>(cands: seq<Candidate<M>>, key: string, norm: Norm) returns (pos: seq<nat>)
    ensures |pos| == |Group(cands, key, norm)| && Rising(pos)
    ensures forall x :: 0 <= x < |pos| ==> pos[x] < |cands| && Group(cands, key, norm)[x] == cands[pos[x]]
    ensures forall i :: 0 <= i < |cands| ==> (i in pos <==> norm(cands[i].text) == key)
  {
    pos := [];
    if cands != [] {
      var front := cands[..|cands| - 1];
      pos := GroupAt(front, key, norm);
      RisingSnoc(pos, |front|);
      assert forall i :: 0 <= i < |front| ==> front[i] == cands[i];
      if norm(Last(cands).text) == key { pos := pos + [|front|]; }
    }
  }

  /** A merged row's metrics are those of the first candidate with its key that has any. */
  ghost predicate FirstOf<M>(metrics: Option<M>, cands: seq<Candidate<M>>, key: string, norm: Norm) {
    if metrics.None? then forall i :: 0 <= i < |cands| && norm(cands[i].text) == key ==> cands[i].metrics.None?
    else
      exists i :: 0 <= i < |cands| && norm(cands[i].text) == key && cands[i].metrics == metrics
                  && forall k :: 0 <= k < i && norm(cands[k].text) == key ==> cands[k].metrics.None?
  }

  /** The first of a group with metrics is the first of its key with metrics. */
  lemma GroupFirst<M>(cands: seq<Candidate<M>>, key: string, norm: Norm)
    ensures var g := Group(cands, key, norm);
      FirstOf(if FirstMetrics(g) < |g| then g[FirstMetrics(g)].metrics else None, cands, key, norm)
  {
    var g := Group(cands, key, norm);
    var pos := GroupAt(cands, key, norm);
    var m := FirstMetrics(g);
    forall k | 0 <= k < |cands| && norm(cands[k].text) == key && (m < |g| ==> k < pos[m]) ensures cands[k].metrics.None? {
      assert k in pos;
      var x :| 0 <= x < |pos| && pos[x] == k;
      assert g[x] == cands[k] && x < m;
    }
    if m < |g| { assert pos[m] in pos && norm(cands[pos[m]].text) == key && cands[pos[m]] == g[m]; }
  }

  lemma MergedMetrics<M>(cands: seq<Candidate<M>>, norm: Norm, i: nat)
    requires i < |Dedupe(cands, norm)|
    ensures var row := Dedupe(cands, norm)[i]; FirstOf(row.metrics, cands, norm(row.text), norm)
  {
    DedupeRow(cands, norm, i);
    GroupFirst(cands, Unique(Keys(cands, norm))[i], norm);
  }

  lemma HistoricalParts<M>(keywords: seq<string>, batchSize: Option<Number>, api: Api<M>, retries: nat, norm: Norm, batches: seq<seq<string>>)
      returns (at: seq<At>)
    requires batches == Chunks(keywords, HistoricalSize(batchSize))
    requires HistoricalCandidates(keywords, batchSize, api, retries, norm).ok
    ensures var m, h := MatchAll(batches, api, retries, norm), HistoricalCandidates(keywords, batchSize, api, retries, norm);
      && AllRowsOf(m.cands, at, batches, api, retries, norm)
      && h.cands == m.cands + Uncovered(keywords, Covered(m.cands), norm)
      && forall c :: c in Uncovered<M>(keywords, Covered(m.cands), norm) ==> c.metrics.None? && c.origins.None? && c.source.Seed?
  {
    MatchAllOk(batches, api, retries, norm);
    at := MatchAllAre(batches, api, retries, norm);
    UncoveredPlain<M>(keywords, Covered(MatchAll(batches, api, retries, norm).cands), norm);
  }

  lemma {:induction false} UncoveredPlain<M>(keywords: seq<string>, covered: set<string>, norm: Norm)
    ensures forall c :: c in Uncovered<M>(keywords, covered, norm) ==> c.metrics.None? && c.origins.None? && c.source.Seed?
  {
    if keywords != [] { UncoveredPlain<M>(keywords[..|keywords| - 1], covered, norm); }
  }

  /** Candidates without metrics behind the others make no difference. */
  lemma FirstAmong<M>(metrics: Option<M>, cands: seq<Candidate<M>>, rest: seq<Candidate<M>>, key: string, norm: Norm)
    requires FirstOf(metrics, cands + rest, key, norm) && forall c :: c in rest ==> c.metrics.None?
    ensures FirstOf(metrics, cands, key, norm)
  {
    var all := cands + rest;
    assert forall k :: 0 <= k < |cands| ==> all[k] == cands[k];
    if metrics.Some? {
      var i :| 0 <= i < |all| && norm(all[i].text) == key && all[i].metrics == metrics
               && forall k :: 0 <= k < i && norm(all[k].text) == key ==> all[k].metrics.None?;
      assert forall k :: |cands| <= k < |all| ==> all[k] in rest && all[k].metrics.None?;
      assert cands[i] == all[i];
    }
  }

  /** Metrics by candidate are metrics by answered row. */
  lemma FirstAnswered<M>(metrics: Option<M>, key: string, cands: seq<Candidate<M>>, at: seq<At>, batches: seq<seq<string>>,
                         api: Api<M>, retries: nat, norm: Norm)
    requires AllRowsOf(cands, at, batches, api, retries, norm) && FirstOf(metrics, cands, key, norm)
    ensures FirstMetricsUnder(metrics, key, batches, api, retries, norm)
  {
    if metrics.None? {
      forall a | Under(a, key, batches, api, retries, norm) ensures Idea(a, batches, api, retries).metrics.None? {
        var x := UnderAt(a, key, cands, at, batches, api, retries, norm);
      }
    } else {
      var i :| 0 <= i < |cands| && norm(cands[i].text) == key && cands[i].metrics == metrics
               && forall k :: 0 <= k < i && norm(cands[k].text) == key ==> cands[k].metrics.None?;
      FirstUnder(i, key, cands, at, batches, api, retries, norm);
    }
  }

  lemma UnderAt<M>(a: At, key: string, cands: seq<Candidate<M>>, at: seq<At>, batches: seq<seq<string>>, api: Api<M>, retries: nat, norm: Norm)
      returns (x: nat)
    requires AllRowsOf(cands, at, batches, api, retries, norm) && Under(a, key, batches, api, retries, norm)
    ensures x < |at| == |cands| && at[x] == a && norm(cands[x].text) == key && cands[x].metrics == Idea(a, batches, api, retries).metrics
  {
    x :| 0 <= x < |at| && at[x] == a;
    assert RowAt(cands[x], at[x], batches, api, retries, norm);
  }

  lemma LaterInSequence(at: seq<At>, i: nat, x: nat)
    requires InSequence(at) && i < |at| && x < |at|
    ensures i < x ==> Earlier(at[i], at[x])
  {
  }

  lemma FirstUnder<M>(i: nat, key: string, cands: seq<Candidate<M>>, at: seq<At>, batches: seq<seq<string>>, api: Api<M>, retries: nat, norm: Norm)
    requires AllRowsOf(cands, at, batches, api, retries, norm) && i < |cands| && norm(cands[i].text) == key && cands[i].metrics.Some?
    requires forall k :: 0 <= k < i && norm(cands[k].text) == key ==> cands[k].metrics.None?
    ensures FirstMetricsUnder(cands[i].metrics, key, batches, api, retries, norm)
  {
    assert RowAt(cands[i], at[i], batches, api, retries, norm);
    forall c | Under(c, key, batches, api, retries, norm) && Earlier(c, at[i]) ensures Idea(c, batches, api, retries).metrics.None? {
      var x := UnderAt(c, key, cands, at, batches, api, retries, norm);
      LaterInSequence(at, i, x);
    }
    assert Under(at[i], key, batches, api, retries, norm);
  }

  /**
   * The requests succeeded: a row of the result has metrics if and only if some answered row that matches a keyword of its
   * request is filed under the row's key and has them, and then they are those of the first such answered row.
   */
  lemma HistoricalMetrics<M>(keywords: seq<string>, batchSize: Option<Number>, api: Api<M>, retries: nat, norm: Norm, i: nat)
    requires HistoricalCandidates(keywords, batchSize, api, retries, norm).ok
    requires i < |Dedupe(HistoricalCandidates(keywords, batchSize, api, retries, norm).cands, norm)|
    ensures var row := Dedupe(HistoricalCandidates(keywords, batchSize, api, retries, norm).cands, norm)[i];
      FirstMetricsUnder(row.metrics, norm(row.text), Chunks(keywords, HistoricalSize(batchSize)), api, retries, norm)
  {
    var batches := Chunks(keywords, HistoricalSize(batchSize));
    var at := HistoricalParts(keywords, batchSize, api, retries, norm, batches);
    var m := MatchAll(batches, api, retries, norm);
    var rest := Uncovered(keywords, Covered(m.cands), norm);
    MergedMetrics(m.cands + rest, norm, i);
    var row := Dedupe(m.cands + rest, norm)[i];
    FirstAmong(row.metrics, m.cands, rest, norm(row.text), norm);
    FirstAnswered(row.metrics, norm(row.text), m.cands, at, batches, api, retries, norm);
  }

  /** No paid answer is dropped: every answered row that matches a keyword has a row under its key. */
  lemma EveryAnswerHasRow<M>(keywords: seq<string>, batchSize: Option<Number>, api: Api<M>, retries: nat, norm: Norm, a: At)
      returns (i: nat)
    requires HistoricalCandidates(keywords, batchSize, api, retries, norm).ok
    requires Useful(a, Chunks(keywords, HistoricalSize(batchSize)), api, retries, norm)
    ensures var rows := Dedupe(HistoricalCandidates(keywords, batchSize, api, retries, norm).cands, norm);
      i < |rows| && norm(rows[i].text) == norm(Idea(a, Chunks(keywords, HistoricalSize(batchSize)), api, retries).text)
  {
    var batches := Chunks(keywords, HistoricalSize(batchSize));
    var at := HistoricalParts(keywords, batchSize, api, retries, norm, batches);
    var m := MatchAll(batches, api, retries, norm);
    var cands := HistoricalCandidates(keywords, batchSize, api, retries, norm).cands;
    var x :| 0 <= x < |at| && at[x] == a;
    assert RowAt(m.cands[x], at[x], batches, api, retries, norm) && cands[x] == m.cands[x];
    i := RowUnder(cands, norm, x);
  }

  lemma RowUnder<M>(cands: seq<Candidate<M>>, norm: Norm, x: nat) returns (i: nat)
    requires x < |cands|
    ensures i < |Dedupe(cands, norm)| && norm(Dedupe(cands, norm)[i].text) == norm(cands[x].text)
  {
    var keys := Keys(cands, norm);
    assert keys[x] == norm(cands[x].text);
    UniqueHas(keys, keys[x]);
    i :| 0 <= i < |Unique(keys)| && Unique(keys)[i] == keys[x];
    FoldGroups(cands, norm);
    DedupeRow(cands, norm, i);
  }

  // ---------------------------------------------------------------- exact mode: what a row stands for

  lemma {:induction false} AllOriginsHas<M>(g: seq<Candidate<M>>, key: string)
    ensures key in AllOrigins(g) <==> exists x :: 0 <= x < |g| && g[x].origins.Some? && key in g[x].origins.value
  {
    if g != [] {
      var front := g[..|g| - 1];
      AllOriginsHas(front, key);
      if x :| 0 <= x < |front| && front[x].origins.Some? && key in front[x].origins.value {
        assert g[x].origins.Some? && key in g[x].origins.value;
      }
      if x :| 0 <= x < |g| && g[x].origins.Some? && key in g[x].origins.value && x < |front| { assert front[x] == g[x]; }
    }
  }

  /** The keys some candidate under `own` stands for. */
  ghost predicate StoodFor<M>(cands: seq<Candidate<M>>, own: string, key: string, norm: Norm) {
    exists i :: 0 <= i < |cands| && norm(cands[i].text) == own && cands[i].origins.Some? && key in cands[i].origins.value
  }

  lemma GroupStandsFor<M>(cands: seq<Candidate<M>>, own: string, norm: Norm, key: string)
    ensures key in AllOrigins(Group(cands, own, norm)) <==> StoodFor(cands, own, key, norm)
  {
    var g := Group(cands, own, norm);
    var pos := GroupAt(cands, own, norm);
    AllOriginsHas(g, key);
    if x :| 0 <= x < |g| && g[x].origins.Some? && key in g[x].origins.value {
      assert pos[x] in pos && cands[pos[x]] == g[x];
    }
    if StoodFor(cands, own, key, norm) {
      var k :| 0 <= k < |cands| && norm(cands[k].text) == own && cands[k].origins.Some? && key in cands[k].origins.value;
      assert k in pos;
      var x :| 0 <= x < |pos| && pos[x] == k;
      assert g[x].origins.Some? && key in g[x].origins.value;
    }
  }

  lemma MergedAllHas<M>(g: seq<Candidate<M>>, key: string)
    requires g != []
    ensures MergeAll(g).origins.Some? && key in MergeAll(g).origins.value <==> key in AllOrigins(g)
  {
    if |g| >= 2 {
      OriginsUnion(g);
      UniqueHas(AllOrigins(g), key);
      if NoOrigins(g) { NoOriginsEmpty(g); }
    } else {
      assert AllOrigins(g[..0]) == [];
    }
  }

  lemma MergedOrigins<M>(cands: seq<Candidate<M>>, norm: Norm, i: nat, key: string)
    requires i < |Dedupe(cands, norm)|
    ensures var row := Dedupe(cands, norm)[i];
      row.origins.Some? && key in row.origins.value <==> StoodFor(cands, norm(row.text), key, norm)
  {
    DedupeRow(cands, norm, i);
    var own := Unique(Keys(cands, norm))[i];
    MergedAllHas(Group(cands, own, norm), key);
    GroupStandsFor(cands, own, norm, key);
  }

  /** A keyword of the request of a row under `own`, by whose key the row goes. */
  ghost predicate Answers<M>(own: string, key: string, batches: seq<seq<string>>, api: Api<M>, retries: nat, norm: Norm) {
    exists a, i :: Under(a, own, batches, api, retries, norm) && 0 <= i < |batches[a.b]| && norm(batches[a.b][i]) == key
                   && Named(Idea(a, batches, api, retries), key, norm)
  }

  lemma OriginsAnswer<M>(own: string, key: string, cands: seq<Candidate<M>>, rest: seq<Candidate<M>>, at: seq<At>,
                         batches: seq<seq<string>>, api: Api<M>, retries: nat, norm: Norm)
    requires AllRowsOf(cands, at, batches, api, retries, norm) && forall c :: c in rest ==> c.origins.None?
    ensures StoodFor(cands + rest, own, key, norm) <==> Answers(own, key, batches, api, retries, norm)
  {
    var all := cands + rest;
    if StoodFor(all, own, key, norm) {
      assert forall k :: |cands| <= k < |all| ==> all[k] in rest && all[k].origins.None?;
      var k :| 0 <= k < |all| && norm(all[k].text) == own && all[k].origins.Some? && key in all[k].origins.value;
      assert RowAt(cands[k], at[k], batches, api, retries, norm);
      var pos :| Picks(pos, cands[k].origins.value, Idea(at[k], batches, api, retries), batches[at[k].b], norm);
      var x :| 0 <= x < |pos| && cands[k].origins.value[x] == key;
      assert pos[x] in pos && Under(at[k], own, batches, api, retries, norm) && norm(batches[at[k].b][pos[x]]) == key;
    }
    if Answers(own, key, batches, api, retries, norm) {
      var a, i :| Under(a, own, batches, api, retries, norm) && 0 <= i < |batches[a.b]| && norm(batches[a.b][i]) == key
                  && Named(Idea(a, batches, api, retries), key, norm);
      var k :| 0 <= k < |at| && at[k] == a;
      assert RowAt(cands[k], at[k], batches, api, retries, norm) && all[k] == cands[k];
      var pos :| Picks(pos, cands[k].origins.value, Idea(a, batches, api, retries), batches[a.b], norm);
      assert i in pos;
      var x :| 0 <= x < |pos| && pos[x] == i;
      assert cands[k].origins.value[x] == key;
    }
  }

  /**
   * A row of the result lists exactly the keys of the keywords that were sent with an answered row under its own key and by
   * which that answered row goes.
   */
  lemma HistoricalOrigins<M>(keywords: seq<string>, batchSize: Option<Number>, api: Api<M>, retries: nat, norm: Norm, i: nat, key: string)
    requires HistoricalCandidates(keywords, batchSize, api, retries, norm).ok
    requires i < |Dedupe(HistoricalCandidates(keywords, batchSize, api, retries, norm).cands, norm)|
    ensures var row := Dedupe(HistoricalCandidates(keywords, batchSize, api, retries, norm).cands, norm)[i];
      && row.source.Seed?
      && (row.origins.Some? && key in row.origins.value
          <==> Answers(norm(row.text), key, Chunks(keywords, HistoricalSize(batchSize)), api, retries, norm))
  {
    var batches := Chunks(keywords, HistoricalSize(batchSize));
    var at := HistoricalParts(keywords, batchSize, api, retries, norm, batches);
    var m := MatchAll(batches, api, retries, norm);
    var rest := Uncovered(keywords, Covered(m.cands), norm);
    MergedOrigins(m.cands + rest, norm, i, key);
    OriginsAnswer(norm(Dedupe(m.cands + rest, norm)[i].text), key, m.cands, rest, at, batches, api, retries, norm);
    HistoricalSeeds(keywords, batchSize, api, retries, norm, i);
  }

  lemma HistoricalSeeds<M>(keywords: seq<string>, batchSize: Option<Number>, api: Api<M>, retries: nat, norm: Norm, i: nat)
    requires i < |Dedupe(HistoricalCandidates(keywords, batchSize, api, retries, norm).cands, norm)|
    ensures Dedupe(HistoricalCandidates(keywords, batchSize, api, retries, norm).cands, norm)[i].source.Seed?
  {
    var cands := HistoricalCandidates(keywords, batchSize, api, retries, norm).cands;
    HistoricalFromInputs(keywords, batchSize, api, retries, norm);
    DedupeRow(cands, norm, i);
    var g := Group(cands, Unique(Keys(cands, norm))[i], norm);
    GroupFrom(cands, Unique(Keys(cands, norm))[i], norm, g[0]);
  }

  // ---------------------------------------------------------------- expansion

  /** The candidate of an answered idea: its text and its metrics; a seed if it has a seed's key, else with the keys of its request. */
  ghost predicate IdeaRow<M>(c: Candidate<M>, idea: RawIdea<M>, batch: seq<string>, seeds: seq<string>, norm: Norm) {
    && c.text == idea.text && c.metrics == idea.metrics
    && if exists s :: 0 <= s < |seeds| && norm(seeds[s]) == norm(idea.text) then c.source == Seed && c.origins.None?
       else c.source == Expanded && c.origins.Some? && |c.origins.value| == |batch|
            && forall i :: 0 <= i < |batch| ==> c.origins.value[i] == norm(batch[i])
  }

  lemma IdeaRowIs<M>(idea: RawIdea<M>, batch: seq<string>, seeds: seq<string>, norm: Norm)
    ensures IdeaRow(IdeaCandidate(idea, batch, KeySet(seeds, norm), norm), idea, batch, seeds, norm)
  {
    var keys := NormalizeAll(seeds, norm);
    if norm(idea.text) in KeySet(seeds, norm) {
      var s :| 0 <= s < |keys| && keys[s] == norm(idea.text);
      assert norm(seeds[s]) == norm(idea.text);
    }
    if s :| 0 <= s < |seeds| && norm(seeds[s]) == norm(idea.text) { assert keys[s] in keys; }
  }

  /** One yielded batch: an answer, idea by idea. */
  ghost predicate AnswerRows<M>(cands: seq<Candidate<M>>, ideas: seq<RawIdea<M>>, batch: seq<string>, seeds: seq<string>, norm: Norm) {
    |cands| == |ideas| && forall j :: 0 <= j < |ideas| ==> IdeaRow(cands[j], ideas[j], batch, seeds, norm)
  }

  /** What is yielded from request `b` on: an answer a request, up to the first that fails. */
  ghost predicate Yields<M>(y: Yielded<M>, batches: seq<seq<string>>, b: nat, api: Api<M>, retries: nat, seeds: seq<string>, norm: Norm) {
    && |y.batches| <= |batches| && (y.ok <==> |y.batches| == |batches|)
    && (forall k :: 0 <= k < |y.batches| ==> AnswerOf(y.batches[k], b + k, batches[k], api, retries, seeds, norm))
    && (!y.ok ==> !FinalReply(api, b + |y.batches|, retries).Answered?)
  }

  /** The batch is the answer to request `b`. */
  ghost predicate AnswerOf<M>(cands: seq<Candidate<M>>, b: nat, batch: seq<string>, api: Api<M>, retries: nat, seeds: seq<string>, norm: Norm) {
    FinalReply(api, b, retries).Answered? && AnswerRows(cands, FinalReply(api, b, retries).value, batch, seeds, norm)
  }

  lemma {:induction false} YieldIdeasAre<M>(batches: seq<seq<string>>, b: nat, api: Api<M>, retries: nat, seeds: seq<string>, norm: Norm)
    ensures Yields(YieldIdeas(batches, b, api, retries, KeySet(seeds, norm), norm), batches, b, api, retries, seeds, norm)
    decreases |batches|
  {
    var reply := FinalReply(api, b, retries);
    if batches != [] && reply.Answered? {
      var first := IdeaCandidates(reply.value, batches[0], KeySet(seeds, norm), norm);
      forall j | 0 <= j < |reply.value| ensures IdeaRow(first[j], reply.value[j], batches[0], seeds, norm) {
        IdeaRowIs(reply.value[j], batches[0], seeds, norm);
      }
      YieldIdeasAre(batches[1..], b + 1, api, retries, seeds, norm);
      var rest := YieldIdeas(batches[1..], b + 1, api, retries, KeySet(seeds, norm), norm);
      YieldsCons(first, rest, batches, b, api, retries, seeds, norm, YieldIdeas(batches, b, api, retries, KeySet(seeds, norm), norm));
    }
  }

  lemma YieldsCons<M>(first: seq<Candidate<M>>, rest: Yielded<M>, batches: seq<seq<string>>, b: nat, api: Api<M>, retries: nat,
                      seeds: seq<string>, norm: Norm, y: Yielded<M>)
    requires batches != [] && FinalReply(api, b, retries).Answered?
    requires AnswerRows(first, FinalReply(api, b, retries).value, batches[0], seeds, norm)
    requires Yields(rest, batches[1..], b + 1, api, retries, seeds, norm)
    requires y.ok == rest.ok && y.batches == [first] + rest.batches
    ensures Yields(y, batches, b, api, retries, seeds, norm)
  {
    forall k | 0 <= k < |y.batches| ensures AnswerOf(y.batches[k], b + k, batches[k], api, retries, seeds, norm) {
      if k > 0 {
        assert AnswerOf(rest.batches[k - 1], b + 1 + (k - 1), batches[1..][k - 1], api, retries, seeds, norm);
        assert y.batches[k] == rest.batches[k - 1] && batches[k] == batches[1..][k - 1];
      }
    }
  }

  /**
   * An expansion yields the seeds, without metrics, and then every answer in full, idea by idea with its metrics, up to the
   * first request that fails; it succeeds exactly when none does.
   */
  lemma ExpansionYields<M>(seeds: seq<string>, batchSize: Option<Number>, api: Api<M>, retries: nat, norm: Norm)
    ensures var e := Expansion(seeds, batchSize, api, retries, norm);
      && |e.batches| >= 1 && |e.batches[0]| == |seeds|
      && (forall s :: 0 <= s < |seeds| ==> e.batches[0][s] == Candidate(seeds[s], Seed, None, None))
      && Yields(Yielded(e.ok, e.batches[1..], e.calls), Chunks(seeds, SeedSize(batchSize)), 0, api, retries, seeds, norm)
  {
    YieldIdeasAre(Chunks(seeds, SeedSize(batchSize)), 0, api, retries, seeds, norm);
    var y := YieldIdeas(Chunks(seeds, SeedSize(batchSize)), 0, api, retries, KeySet(seeds, norm), norm);
    assert Expansion(seeds, batchSize, api, retries, norm).batches[1..] == y.batches;
  }

  /** The request sizes when none is configured, and the most the two endpoints accept. */
  lemma RequestSizes(size: Option<Number>)
    ensures SeedSize(None) == 15 && HistoricalSize(None) == 1000
    ensures SeedSize(size) <= 20 && HistoricalSize(size) <= 10000
    ensures size == Some(NotFinite) ==> SeedSize(size) == 15 && HistoricalSize(size) == 1000
    ensures size.Some? && size.value.Finite? ==>
      var v := size.value.value;
      && (v < 2.0 ==> SeedSize(size) == HistoricalSize(size) == 1)
      && (v >= 20.0 ==> SeedSize(size) == 20) && (v >= 10000.0 ==> HistoricalSize(size) == 10000)
      && (1.0 <= v < 20.0 ==> SeedSize(size) as real <= v < SeedSize(size) as real + 1.0)
      && (1.0 <= v < 10000.0 ==> HistoricalSize(size) as real <= v < HistoricalSize(size) as real + 1.0)
  {
  }
}
