/** Cutting keywords into requests the Ads API accepts. */
module AdsChunks {
  import opened Base

  /** A configured number: NaN and the infinities are not finite. */
  datatype Number = Finite(value: real) | NotFinite

  const MAX_SEED_BATCH_SIZE: nat := 20
  const DEFAULT_SEED_BATCH_SIZE: nat := 15
  const MAX_HISTORICAL_BATCH_SIZE: nat := 10000
  const DEFAULT_HISTORICAL_BATCH_SIZE: nat := 1000

  function ChunkSize(requested: Number, cap: nat, fallback: nat): (size: nat)
    requires cap >= 1
    ensures 1 <= size <= cap
    ensures requested.Finite? && 1.0 <= requested.value < cap as real ==> size as real <= requested.value < size as real + 1.0
  {
    var r: int := if requested.Finite? then requested.value.Floor else fallback;
    var atLeastOne := if r > 1 then r else 1;
    if atLeastOne < cap then atLeastOne else cap
  }

  function SeedSize(batchSize: Option<Number>): (size: nat)
    ensures 1 <= size <= MAX_SEED_BATCH_SIZE
  {
    ChunkSize(if batchSize.Some? then batchSize.value else Finite(DEFAULT_SEED_BATCH_SIZE as real),
              MAX_SEED_BATCH_SIZE, DEFAULT_SEED_BATCH_SIZE)
  }

  function HistoricalSize(batchSize: Option<Number>): (size: nat)
    ensures 1 <= size <= MAX_HISTORICAL_BATCH_SIZE
  {
    ChunkSize(if batchSize.Some? then batchSize.value else Finite(DEFAULT_HISTORICAL_BATCH_SIZE as real),
              MAX_HISTORICAL_BATCH_SIZE, DEFAULT_HISTORICAL_BATCH_SIZE)
  }

  /** For any configured size: requests of one to twenty seeds that together are exactly the seeds, in order. */
  method ChunkSeeds(seeds: seq<string>, batchSize: Option<Number>) returns (batches: seq<seq<string>>)
    ensures batches == Chunks(seeds, SeedSize(batchSize))
    ensures Flatten(batches) == seeds && forall b :: b in batches ==> 1 <= |b| <= MAX_SEED_BATCH_SIZE
    ensures |batches| == CeilDiv(|seeds|, SeedSize(batchSize))
  {
    batches := SliceBatches(seeds, SeedSize(batchSize));
  }

  method ChunkHistorical(keywords: seq<string>, batchSize: Option<Number>) returns (batches: seq<seq<string>>)
    ensures batches == Chunks(keywords, HistoricalSize(batchSize))
    ensures Flatten(batches) == keywords && forall b :: b in batches ==> 1 <= |b| <= MAX_HISTORICAL_BATCH_SIZE
    ensures |batches| == CeilDiv(|keywords|, HistoricalSize(batchSize))
  {
    batches := SliceBatches(keywords, HistoricalSize(batchSize));
  }
}

/** Expanding seeds through the throttled Ads client, and looking up exact keywords. */
module AdsExpansion {
  import opened Base
  import opened AdsChunks
  import opened AdsRateLimiter
  import opened Normalize

  /** One row of an Ads answer; `variants` are the close variants of the exact mode. */
  datatype RawIdea<M> = RawIdea(text: string, metrics: Option<M>, variants: seq<string>)

  /** `api(b)(k)` is what attempt `k` of the request for batch `b` is answered; `clocks(b)(k)` the clocks at that time. */
  type Api<M> = nat -> nat -> Reply<seq<RawIdea<M>>>

  type Clocks = nat -> nat -> Moment

  function FinalReply<M>(api: Api<M>, b: nat, retries: nat): Reply<seq<RawIdea<M>>> {
    api(b)(Attempts(api(b), retries, 0) - 1)
  }

  function SeedCandidates<M>(seeds: seq<string>): (r: seq<Candidate<M>>)
    ensures |r| == |seeds|
  {
    seq(|seeds|, i requires 0 <= i < |seeds| => Candidate(seeds[i], Seed, None, None))
  }

  function IdeaCandidate<M>(idea: RawIdea<M>, batch: seq<string>, seedKeys: set<string>, norm: Norm): Candidate<M> {
    if norm(idea.text) in seedKeys then Candidate(idea.text, Seed, idea.metrics, None)
    else Candidate(idea.text, Expanded, idea.metrics, Some(NormalizeAll(batch, norm)))
  }

  function IdeaCandidates<M>(ideas: seq<RawIdea<M>>, batch: seq<string>, seedKeys: set<string>, norm: Norm): (r: seq<Candidate<M>>)
    ensures |r| == |ideas|
  {
    seq(|ideas|, i requires 0 <= i < |ideas| => IdeaCandidate(ideas[i], batch, seedKeys, norm))
  }

  /** The batches yielded before the stream ends; `ok` is false when a request ended in an error. */
  datatype Yielded<M> = Yielded(ok: bool, batches: seq<seq<Candidate<M>>>, calls: nat)

  function YieldIdeas<M>(batches: seq<seq<string>>, b: nat, api: Api<M>, retries: nat, seedKeys: set<string>, norm: Norm): Yielded<M>
    decreases |batches|
  {
    if batches == [] then Yielded(true, [], 0)
    else
      var n, reply := CallsSent(api(b), retries), FinalReply(api, b, retries);
      if !reply.Answered? then Yielded(false, [], n)
      else
        var rest := YieldIdeas(batches[1..], b + 1, api, retries, seedKeys, norm);
        Yielded(rest.ok, [IdeaCandidates(reply.value, batches[0], seedKeys, norm)] + rest.batches, n + rest.calls)
  }

  function KeySet(seeds: seq<string>, norm: Norm): set<string> {
    set s | s in NormalizeAll(seeds, norm)
  }

  /** The seeds first, then the answers, request by request. */
  function Expansion<M>(seeds: seq<string>, batchSize: Option<Number>, api: Api<M>, retries: nat, norm: Norm): Yielded<M> {
    var y := YieldIdeas(Chunks(seeds, SeedSize(batchSize)), 0, api, retries, KeySet(seeds, norm), norm);
    Yielded(y.ok, [SeedCandidates(seeds)] + y.batches, y.calls)
  }

  lemma {:induction false} CallsPerBatch<M>(batches: seq<seq<string>>, b: nat, api: Api<M>, retries: nat, seedKeys: set<string>, norm: Norm)
    ensures YieldIdeas(batches, b, api, retries, seedKeys, norm).calls <= |batches| * (retries + 1)
    decreases |batches|
  {
    if batches != [] {
      CallsPerBatch(batches[1..], b + 1, api, retries, seedKeys, norm);
      assert |batches| * (retries + 1) == (|batches| - 1) * (retries + 1) + (retries + 1);
    } else {
      assert |batches| * (retries + 1) == 0;
    }
  }

  /** One call per request and allowed attempt. */
  function CallLimit(seeds: seq<string>, batchSize: Option<Number>, retries: nat): int {
    CeilDiv(|seeds|, SeedSize(batchSize)) * (retries + 1)
  }

  /** Expanding never costs more Ads calls than one per request and allowed attempt. */
  lemma ExpansionCallsBounded<M>(seeds: seq<string>, batchSize: Option<Number>, api: Api<M>, retries: nat, norm: Norm)
    ensures Expansion(seeds, batchSize, api, retries, norm).calls <= CallLimit(seeds, batchSize, retries)
  {
    ChunksCover(seeds, SeedSize(batchSize));
    CallsPerBatch(Chunks(seeds, SeedSize(batchSize)), 0, api, retries, KeySet(seeds, norm), norm);
  }

  /** How many requests are sent: the stream ends with the first one that fails. */
  function Sent<M>(batches: seq<seq<string>>, b: nat, api: Api<M>, retries: nat): (n: nat)
    ensures n <= |batches|
    decreases |batches|
  {
    if batches == [] then 0
    else if !FinalReply(api, b, retries).Answered? then 1
    else 1 + Sent(batches[1..], b + 1, api, retries)
  }

  /** Everything reserved on the account's key, by anyone, while the first `n` requests make their attempts. */
  function Traffic<M>(api: Api<M>, clocks: Clocks, retries: nat, n: nat): seq<Turn> {
    if n == 0 then []
    else Traffic(api, clocks, retries, n - 1) + RequestTurns(clocks(n - 1), api(n - 1), retries)
  }

  /** `slots` are the requests' own slots among all the traffic since the key was `was`; the key is now `key`. */
  ghost predicate SlotsOf<M>(was: SlotKey, key: SlotKey, slots: seq<int>, api: Api<M>, clocks: Clocks, retries: nat, n: nat, minTime: int) {
    && slots == OwnSlots(was, Traffic(api, clocks, retries, n), minTime, SLOT_TTL_BUFFER_MS)
    && key == KeyPast(was, Traffic(api, clocks, retries, n), minTime, SLOT_TTL_BUFFER_MS)
  }

  lemma SlotsOfNext<M>(was: SlotKey, mid: SlotKey, key: SlotKey, slots: seq<int>, own: seq<int>,
                       api: Api<M>, clocks: Clocks, retries: nat, n: nat, minTime: int)
    requires SlotsOf(was, mid, slots, api, clocks, retries, n, minTime)
    requires own == OwnSlots(mid, RequestTurns(clocks(n), api(n), retries), minTime, SLOT_TTL_BUFFER_MS)
    requires key == KeyPast(mid, RequestTurns(clocks(n), api(n), retries), minTime, SLOT_TTL_BUFFER_MS)
    ensures SlotsOf(was, key, slots + own, api, clocks, retries, n + 1, minTime)
  {
    TurnsConcat(was, Traffic(api, clocks, retries, n), RequestTurns(clocks(n), api(n), retries), minTime, SLOT_TTL_BUFFER_MS);
  }

  lemma SentStep<M>(batches: seq<seq<string>>, b: nat, api: Api<M>, retries: nat)
    requires b < |batches|
    ensures Sent(batches[b..], b, api, retries)
         == if FinalReply(api, b, retries).Answered? then 1 + Sent(batches[b + 1..], b + 1, api, retries) else 1
  {
    assert batches[b..][1..] == batches[b + 1..];
  }

  /** A stream broken off stays as it is; any other continues with `rest`. */
  function Continue<M>(y: Yielded<M>, rest: Yielded<M>): Yielded<M> {
    if y.ok then Yielded(rest.ok, y.batches + rest.batches, y.calls + rest.calls) else y
  }

  /** The stream after one more request. */
  function AfterRequest<M>(y: Yielded<M>, reply: Reply<seq<RawIdea<M>>>, n: nat, batch: seq<string>, keys: set<string>, norm: Norm): Yielded<M> {
    if reply.Answered? then Yielded(true, y.batches + [IdeaCandidates(reply.value, batch, keys, norm)], y.calls + n)
    else Yielded(false, y.batches, y.calls + n)
  }

  lemma RequestStep<M>(y: Yielded<M>, batches: seq<seq<string>>, b: nat, api: Api<M>, retries: nat, keys: set<string>, norm: Norm)
    requires b < |batches| && y.ok
    ensures Continue(y, YieldIdeas(batches[b..], b, api, retries, keys, norm))
         == Continue(AfterRequest(y, FinalReply(api, b, retries), CallsSent(api(b), retries), batches[b], keys, norm),
                     YieldIdeas(batches[b + 1..], b + 1, api, retries, keys, norm))
  {
    assert batches[b..][1..] == batches[b + 1..];
    var reply := FinalReply(api, b, retries);
    if reply.Answered? {
      var first := IdeaCandidates(reply.value, batches[b], keys, norm);
      var rest := YieldIdeas(batches[b + 1..], b + 1, api, retries, keys, norm);
      assert (y.batches + [first]) + rest.batches == y.batches + ([first] + rest.batches);
    } else {
      assert y.batches + [] == y.batches;
    }
  }

  lemma StreamEnds<M>(y: Yielded<M>, batches: seq<seq<string>>, b: nat, api: Api<M>, retries: nat, keys: set<string>, norm: Norm)
    requires b <= |batches| && (!y.ok || b == |batches|)
    ensures Continue(y, YieldIdeas(batches[b..], b, api, retries, keys, norm)) == y
  {
    if y.ok { assert batches[b..] == [] && y.batches + [] == y.batches; }
  }

  /** After `b` requests the stream stands at `y`, and what is still to come completes it. */
  ghost predicate Underway<M>(y: Yielded<M>, batches: seq<seq<string>>, b: nat, api: Api<M>, retries: nat, keys: set<string>, norm: Norm)
    requires b <= |batches|
  {
    && Continue(y, YieldIdeas(batches[b..], b, api, retries, keys, norm)) == YieldIdeas(batches, 0, api, retries, keys, norm)
    && b + (if y.ok then Sent(batches[b..], b, api, retries) else 0) == Sent(batches, 0, api, retries)
  }

  lemma UnderwayStarts<M>(batches: seq<seq<string>>, api: Api<M>, retries: nat, keys: set<string>, norm: Norm)
    ensures Underway(Yielded(true, [], 0), batches, 0, api, retries, keys, norm)
  {
    assert batches[0..] == batches;
    var all := YieldIdeas(batches, 0, api, retries, keys, norm);
    assert [] + all.batches == all.batches;
  }

  lemma UnderwayStep<M>(y: Yielded<M>, batches: seq<seq<string>>, b: nat, api: Api<M>, retries: nat, keys: set<string>, norm: Norm)
    requires b < |batches| && y.ok && Underway(y, batches, b, api, retries, keys, norm)
    ensures Underway(AfterRequest(y, FinalReply(api, b, retries), CallsSent(api(b), retries), batches[b], keys, norm),
                     batches, b + 1, api, retries, keys, norm)
  {
    RequestStep(y, batches, b, api, retries, keys, norm);
    SentStep(batches, b, api, retries);
  }

  lemma UnderwayEnds<M>(y: Yielded<M>, batches: seq<seq<string>>, b: nat, api: Api<M>, retries: nat, keys: set<string>, norm: Norm)
    requires b <= |batches| && (!y.ok || b == |batches|) && Underway(y, batches, b, api, retries, keys, norm)
    ensures y == YieldIdeas(batches, 0, api, retries, keys, norm) && b == Sent(batches, 0, api, retries)
  {
    StreamEnds(y, batches, b, api, retries, keys, norm);
    if b == |batches| { assert batches[b..] == []; }
  }

  class GoogleAdsService {
    const limiter: Limiter
    const cid: string

    constructor (limiter: Limiter, cid: string)
      ensures this.limiter == limiter && this.cid == cid
    {
      this.limiter, this.cid := limiter, cid;
    }

    /** Request number `b`, after the slots of the ones before it. */
    method Request<M>(b: nat, api: Api<M>, clocks: Clocks, slots: seq<int>, ghost was: SlotKey)
        returns (reply: Reply<seq<RawIdea<M>>>, n: nat, all: seq<int>)
      requires SlotsOf(was, limiter.Key(cid), slots, api, clocks, limiter.maxRetries, b, MinTimeMs(limiter.qps))
      modifies limiter
      ensures n == CallsSent(api(b), limiter.maxRetries) && reply == FinalReply(api, b, limiter.maxRetries)
      ensures |all| == |slots| + n
      ensures SlotsOf(was, limiter.Key(cid), all, api, clocks, limiter.maxRetries, b + 1, MinTimeMs(limiter.qps))
    {
      ghost var mid := limiter.Key(cid);
      var own;
      reply, n, own := limiter.Schedule(cid, clocks(b), api(b));
      SlotsOfNext(was, mid, limiter.Key(cid), slots, own, api, clocks, limiter.maxRetries, b, MinTimeMs(limiter.qps));
      all := slots + own;
    }

    /** The stream goes on by one request. */
    method SendNext<M>(y: Yielded<M>, batches: seq<seq<string>>, b: nat, api: Api<M>, clocks: Clocks, keys: set<string>, norm: Norm,
                       slots: seq<int>, ghost was: SlotKey) returns (y': Yielded<M>, all: seq<int>)
      requires b < |batches| && y.ok && Underway(y, batches, b, api, limiter.maxRetries, keys, norm) && |slots| == y.calls
      requires SlotsOf(was, limiter.Key(cid), slots, api, clocks, limiter.maxRetries, b, MinTimeMs(limiter.qps))
      modifies limiter
      ensures Underway(y', batches, b + 1, api, limiter.maxRetries, keys, norm) && |all| == y'.calls
      ensures SlotsOf(was, limiter.Key(cid), all, api, clocks, limiter.maxRetries, b + 1, MinTimeMs(limiter.qps))
    {
      UnderwayStep(y, batches, b, api, limiter.maxRetries, keys, norm);
      var reply, n;
      reply, n, all := Request(b, api, clocks, slots, was);
      y' := AfterRequest(y, reply, n, batches[b], keys, norm);
    }

    /** The requests, one after the other, until one fails. */
    method Requests<M>(batches: seq<seq<string>>, api: Api<M>, clocks: Clocks, keys: set<string>, norm: Norm)
        returns (y: Yielded<M>, slots: seq<int>)
      modifies limiter
      ensures y == YieldIdeas(batches, 0, api, limiter.maxRetries, keys, norm)
      ensures |slots| == y.calls
      ensures SlotsOf(old(limiter.Key(cid)), limiter.Key(cid), slots, api, clocks, limiter.maxRetries,
                      Sent(batches, 0, api, limiter.maxRetries), MinTimeMs(limiter.qps))
    {
      y, slots := Yielded(true, [], 0), [];
      UnderwayStarts(batches, api, limiter.maxRetries, keys, norm);
      var b := 0;
      while b < |batches| && y.ok
        invariant 0 <= b <= |batches| && Underway(y, batches, b, api, limiter.maxRetries, keys, norm) && |slots| == y.calls
        invariant SlotsOf(old(limiter.Key(cid)), limiter.Key(cid), slots, api, clocks, limiter.maxRetries, b, MinTimeMs(limiter.qps))
      {
        y, slots := SendNext(y, batches, b, api, clocks, keys, norm, slots, old(limiter.Key(cid)));
        b := b + 1;
      }
      UnderwayEnds(y, batches, b, api, limiter.maxRetries, keys, norm);
    }

    /**
     * Streams the raw candidates; every call waits for a slot of its own. While any two
     * callers' clocks agree within the buffer these slots are `minTime` apart, and a second holds at most ceil(qps).
     */
    method ExpandStreamRaw<M>(seeds: seq<string>, batchSize: Option<Number>, api: Api<M>, clocks: Clocks, norm: Norm)
        returns (y: Yielded<M>, slots: seq<int>)
      modifies limiter
      ensures y == Expansion(seeds, batchSize, api, limiter.maxRetries, norm)
      ensures |slots| == y.calls <= CallLimit(seeds, batchSize, limiter.maxRetries)
      ensures var traffic := Traffic(api, clocks, limiter.maxRetries,
                                     Sent(Chunks(seeds, SeedSize(batchSize)), 0, api, limiter.maxRetries));
        && slots == OwnSlots(old(limiter.Key(cid)), traffic, MinTimeMs(limiter.qps), SLOT_TTL_BUFFER_MS)
        && KeepsRate(traffic, slots, limiter.qps)
    {
      var batches := ChunkSeeds(seeds, batchSize);
      ghost var was := limiter.Key(cid);
      ghost var traffic := Traffic(api, clocks, limiter.maxRetries, Sent(batches, 0, api, limiter.maxRetries));
      y, slots := Requests(batches, api, clocks, KeySet(seeds, norm), norm);
      OwnKeepsRate(was, traffic, limiter.qps);
      y := Yielded(y.ok, [SeedCandidates(seeds)] + y.batches, y.calls);
      ExpansionCallsBounded(seeds, batchSize, api, limiter.maxRetries, norm);
    }
  }

  // ---------------------------------------------------------------- what an expansion contains

  /** A candidate is marked as a seed exactly when its key is a seed's key. */
  ghost predicate SeedsMarked<M>(cands: seq<Candidate<M>>, keys: set<string>, norm: Norm) {
    forall i :: 0 <= i < |cands| ==> (cands[i].source.Seed? <==> norm(cands[i].text) in keys)
  }

  lemma {:induction false} IdeasMarked<M>(batches: seq<seq<string>>, b: nat, api: Api<M>, retries: nat, keys: set<string>, norm: Norm)
    ensures SeedsMarked(Flatten(YieldIdeas(batches, b, api, retries, keys, norm).batches), keys, norm)
    decreases |batches|
  {
    if batches != [] && FinalReply(api, b, retries).Answered? {
      IdeasMarked(batches[1..], b + 1, api, retries, keys, norm);
      var y := YieldIdeas(batches, b, api, retries, keys, norm);
      assert y.batches[1..] == YieldIdeas(batches[1..], b + 1, api, retries, keys, norm).batches;
    }
  }

  lemma ExpansionMarked<M>(seeds: seq<string>, batchSize: Option<Number>, api: Api<M>, retries: nat, norm: Norm)
    ensures SeedsMarked(Flatten(Expansion(seeds, batchSize, api, retries, norm).batches), KeySet(seeds, norm), norm)
  {
    var batches, keys := Chunks(seeds, SeedSize(batchSize)), KeySet(seeds, norm);
    IdeasMarked(batches, 0, api, retries, keys, norm);
    var first: seq<Candidate<M>> := SeedCandidates(seeds);
    forall i | 0 <= i < |first| ensures norm(first[i].text) in keys {
      assert NormalizeAll(seeds, norm)[i] in NormalizeAll(seeds, norm);
    }
    var e := Expansion(seeds, batchSize, api, retries, norm);
    assert e.batches[0] == first && e.batches[1..] == YieldIdeas(batches, 0, api, retries, keys, norm).batches;
  }

  lemma {:induction false} GroupMember<M>(cands: seq<Candidate<M>>, key: string, norm: Norm, i: nat)
    requires i < |cands| && norm(cands[i].text) == key
    ensures cands[i] in Group(cands, key, norm)
  {
    if i < |cands| - 1 { GroupMember(cands[..|cands| - 1], key, norm, i); }
  }

  lemma {:induction false} GroupFrom<M>(cands: seq<Candidate<M>>, key: string, norm: Norm, c: Candidate<M>)
    requires c in Group(cands, key, norm)
    ensures c in cands && norm(c.text) == key
  {
    if c in Group(cands[..|cands| - 1], key, norm) { GroupFrom(cands[..|cands| - 1], key, norm, c); }
  }

  /** In the merged result of a complete or broken-off expansion a row is a seed exactly when its key is a seed's key. */
  lemma RowIsSeedIffSeedKey<M>(seeds: seq<string>, batchSize: Option<Number>, api: Api<M>, retries: nat, norm: Norm, i: nat)
    requires i < |Dedupe(Flatten(Expansion(seeds, batchSize, api, retries, norm).batches), norm)|
    ensures var row := Dedupe(Flatten(Expansion(seeds, batchSize, api, retries, norm).batches), norm)[i];
      row.source.Seed? <==> norm(row.text) in KeySet(seeds, norm)
  {
    var cands := Flatten(Expansion(seeds, batchSize, api, retries, norm).batches);
    ExpansionMarked(seeds, batchSize, api, retries, norm);
    DedupeRow(cands, norm, i);
    var key := Unique(Keys(cands, norm))[i];
    var g := Group(cands, key, norm);
    forall j | 0 <= j < |g| ensures g[j].source.Seed? <==> key in KeySet(seeds, norm) {
      GroupFrom(cands, key, norm, g[j]);
      var k :| 0 <= k < |cands| && cands[k] == g[j];
    }
  }

  /** No input is lost: every seed has a row under its key, marked as a seed, however early the expansion broke off. */
  lemma EverySeedHasRow<M>(seeds: seq<string>, batchSize: Option<Number>, api: Api<M>, retries: nat, norm: Norm, s: nat) returns (i: nat)
    requires s < |seeds|
    ensures var rows := Dedupe(Flatten(Expansion(seeds, batchSize, api, retries, norm).batches), norm);
      i < |rows| && norm(rows[i].text) == norm(seeds[s]) && rows[i].source.Seed?
  {
    var e := Expansion(seeds, batchSize, api, retries, norm);
    var cands := Flatten(e.batches);
    assert cands[s] == e.batches[0][s];
    var keys := Keys(cands, norm);
    assert keys[s] == norm(seeds[s]);
    UniqueFacts(keys);
    assert norm(seeds[s]) in Unique(keys);
    i :| 0 <= i < |Unique(keys)| && Unique(keys)[i] == norm(seeds[s]);
    FoldGroups(cands, norm);
    DedupeRow(cands, norm, i);
    RowIsSeedIffSeedKey(seeds, batchSize, api, retries, norm, i);
    assert NormalizeAll(seeds, norm)[s] in NormalizeAll(seeds, norm);
  }

  /** Every request is answered at once with the one idea `text`. */
  function OneIdea<M>(text: string, metrics: Option<M>): Api<M> {
    (b: nat) => (k: nat) => Answered([RawIdea(text, metrics, [])])
  }

  /** A seed given twice in one request: the idea found for it is merged alone, and its origins repeat the seed. */
  lemma RepeatedSeedRepeatsOrigin<M>(seed: string, idea: string, metrics: Option<M>, retries: nat, norm: Norm)
    requires norm(seed) != norm(idea)
    ensures var rows := Dedupe(Flatten(Expansion([seed, seed], None, OneIdea(idea, metrics), retries, norm).batches), norm);
      |rows| == 2 && rows[1] == Candidate(idea, Expanded, metrics, Some([norm(seed), norm(seed)]))
  {
    var batch, api := [seed, seed], OneIdea(idea, metrics);
    var s: Candidate<M> := Candidate(seed, Seed, None, None);
    var c := Candidate(idea, Expanded, metrics, Some([norm(seed), norm(seed)]));
    assert Chunks(batch, SeedSize(None)) == [batch];
    assert FinalReply(api, 0, retries) == Answered([RawIdea(idea, metrics, [])]);
    assert NormalizeAll(batch, norm) == [norm(seed), norm(seed)];
    assert KeySet(batch, norm) == {norm(seed)};
    assert IdeaCandidates([RawIdea(idea, metrics, [])], batch, KeySet(batch, norm), norm) == [c];
    OneRequest(batch, api, retries, KeySet(batch, norm), norm, [c]);
    assert SeedCandidates(batch) == [s, s];
    var e := Expansion(batch, None, api, retries, norm);
    assert e.batches == [[s, s], [c]];
    FlattenSnoc([[s, s]], [c]);
    FlattenSnoc([], [s, s]);
    assert [] + [[s, s]] == [[s, s]] && [[s, s]] + [[c]] == e.batches;
    assert Flatten(e.batches) == [s, s, c];
    ThreeRows(s, c, norm);
  }

  lemma OneRequest<M>(batch: seq<string>, api: Api<M>, retries: nat, keys: set<string>, norm: Norm, cands: seq<Candidate<M>>)
    requires FinalReply(api, 0, retries).Answered? && IdeaCandidates(FinalReply(api, 0, retries).value, batch, keys, norm) == cands
    ensures YieldIdeas([batch], 0, api, retries, keys, norm).batches == [cands]
  {
    assert [batch][1..] == [];
  }

  lemma FoldSnoc<M>(cands: seq<Candidate<M>>, c: Candidate<M>, norm: Norm)
    ensures Fold(cands + [c], norm) == Put(Fold(cands, norm), c, norm)
  {
    assert (cands + [c])[..|cands|] == cands;
  }

  lemma ThreeRows<M>(s: Candidate<M>, c: Candidate<M>, norm: Norm)
    requires norm(s.text) != norm(c.text) && s.source.Seed? && s.origins.None?
    ensures |Dedupe([s, s, c], norm)| == 2 && Dedupe([s, s, c], norm)[1] == c
  {
    FoldSnoc([], s, norm);
    FoldSnoc([s], s, norm);
    FoldSnoc([s, s], c, norm);
    assert [] + [s] == [s] && [s] + [s] == [s, s] && [s, s] + [c] == [s, s, c];
    assert Fold([s, s, c], norm).order == [norm(s.text), norm(c.text)];
  }
}
