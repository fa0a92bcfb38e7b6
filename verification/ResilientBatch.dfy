/**
 * One LLM batch against a model that may truncate, refuse, filter or fail: the batch is bisected until every
 * part is answered or given up for review.
 */
module ResilientBatch {
  import opened Base

  /** What one call comes back with. */
  datatype Reply<R> =
    | Answer(results: seq<R>)
    | Refusal
    | Malformed
    | TooLong         // the completion hit its length limit
    | Filtered        // content filter, on either side
    | OtherError

  /** `failed` means the error is rethrown; `calls` counts the calls sent. */
  datatype Outcome<R, I> = Outcome(failed: bool, collected: seq<R>, needsReview: seq<I>, calls: nat)

  /** `net(k, batch)` is what call number `k` answers to `batch`; the first call made here is number `k`. */
  function ResilientChunk<R, I>(chunk: seq<I>, net: (nat, seq<I>) -> Reply<R>, k: nat): Outcome<R, I>
    requires chunk != []
    decreases |chunk|
  {
    match net(k, chunk)
    case Answer(results) => Outcome(false, results, [], 1)
    case Refusal => Outcome(false, [], chunk, 1)
    case Malformed => Outcome(false, [], chunk, 1)
    case Filtered => Outcome(false, [], chunk, 1)
    case OtherError => Outcome(true, [], [], 1)
    case TooLong =>
      if |chunk| == 1 then Outcome(false, [], chunk, 1)
      else
        var left := ResilientChunk(FirstHalf(chunk), net, k + 1);
        if left.failed then Outcome(true, [], [], 1 + left.calls)
        else
          var right := ResilientChunk(SecondHalf(chunk), net, k + 1 + left.calls);
          if right.failed then Outcome(true, [], [], 1 + left.calls + right.calls)
          else Outcome(false, left.collected + right.collected, left.needsReview + right.needsReview, 1 + left.calls + right.calls)
  }

  // ---------------------------------------------------------------- what a batch ends as

  /** A contiguous part of the input, and what finally became of it. */
  datatype Segment<R, I> =
    | Answered(items: seq<I>, call: nat, results: seq<R>)
    | Review(items: seq<I>, call: nat)

  function Items<R, I>(segs: seq<Segment<R, I>>): seq<I> {
    if segs == [] then [] else segs[0].items + Items(segs[1..])
  }

  function Results<R, I>(segs: seq<Segment<R, I>>): seq<R> {
    if segs == [] then [] else (if segs[0].Answered? then segs[0].results else []) + Results(segs[1..])
  }

  function Reviewed<R, I>(segs: seq<Segment<R, I>>): seq<I> {
    if segs == [] then [] else (if segs[0].Review? then segs[0].items else []) + Reviewed(segs[1..])
  }

  lemma {:induction false} ItemsConcat<R, I>(s: seq<Segment<R, I>>, t: seq<Segment<R, I>>)
    ensures Items(s + t) == Items(s) + Items(t)
  {
    if s == [] { assert s + t == t; } else { assert (s + t)[1..] == s[1..] + t; ItemsConcat(s[1..], t); }
  }

  lemma {:induction false} ResultsConcat<R, I>(s: seq<Segment<R, I>>, t: seq<Segment<R, I>>)
    ensures Results(s + t) == Results(s) + Results(t)
  {
    if s == [] { assert s + t == t; } else { assert (s + t)[1..] == s[1..] + t; ResultsConcat(s[1..], t); }
  }

  lemma {:induction false} ReviewedConcat<R, I>(s: seq<Segment<R, I>>, t: seq<Segment<R, I>>)
    ensures Reviewed(s + t) == Reviewed(s) + Reviewed(t)
  {
    if s == [] { assert s + t == t; } else { assert (s + t)[1..] == s[1..] + t; ReviewedConcat(s[1..], t); }
  }

  lemma SegmentsConcat<R, I>(s: seq<Segment<R, I>>, t: seq<Segment<R, I>>)
    ensures Items(s + t) == Items(s) + Items(t)
    ensures Results(s + t) == Results(s) + Results(t)
    ensures Reviewed(s + t) == Reviewed(s) + Reviewed(t)
  {
    ItemsConcat(s, t);
    ResultsConcat(s, t);
    ReviewedConcat(s, t);
  }

  /** A segment is a batch that was really sent, with the fate its own call decided. */
  predicate Genuine<R(==), I>(seg: Segment<R, I>, net: (nat, seq<I>) -> Reply<R>) {
    && seg.items != []
    && match seg
       case Answered(items, call, results) => net(call, items) == Answer(results)
       case Review(items, call) =>
         var r := net(call, items);
         r.Refusal? || r.Malformed? || r.Filtered? || (r.TooLong? && |items| == 1)
  }

  /** The segments partition `chunk` in order, and the outcome is exactly what they add up to. */
  ghost predicate Explains<R, I>(segs: seq<Segment<R, I>>, chunk: seq<I>, o: Outcome<R, I>, net: (nat, seq<I>) -> Reply<R>, k: nat) {
    && (forall i :: 0 <= i < |segs| ==> Genuine(segs[i], net) && k <= segs[i].call < k + o.calls)
    && Items(segs) == chunk
    && o.collected == Results(segs)
    && o.needsReview == Reviewed(segs)
  }

  lemma ExplainsLeaf<R, I>(seg: Segment<R, I>, chunk: seq<I>, o: Outcome<R, I>, net: (nat, seq<I>) -> Reply<R>, k: nat)
    requires Genuine(seg, net) && seg.items == chunk && seg.call == k && o.calls == 1
    requires o.collected == if seg.Answered? then seg.results else []
    requires o.needsReview == if seg.Review? then chunk else []
    ensures Explains([seg], chunk, o, net, k)
  {
    assert [seg][1..] == [];
  }

  function Combined<R, I>(left: Outcome<R, I>, right: Outcome<R, I>): Outcome<R, I> {
    Outcome(false, left.collected + right.collected, left.needsReview + right.needsReview, 1 + left.calls + right.calls)
  }

  lemma ExplainsJoin<R, I>(ls: seq<Segment<R, I>>, rs: seq<Segment<R, I>>, l: seq<I>, r: seq<I>,
                           left: Outcome<R, I>, right: Outcome<R, I>, net: (nat, seq<I>) -> Reply<R>, k: nat)
    requires Explains(ls, l, left, net, k + 1) && Explains(rs, r, right, net, k + 1 + left.calls)
    ensures Explains(ls + rs, l + r, Combined(left, right), net, k)
  {
    SegmentsConcat(ls, rs);
  }

  /** What a halved chunk comes to, in terms of its halves. */
  lemma HalvesOutcome<R, I>(chunk: seq<I>, net: (nat, seq<I>) -> Reply<R>, k: nat, left: Outcome<R, I>, right: Outcome<R, I>)
    requires net(k, chunk).TooLong? && |chunk| > 1
    requires left == ResilientChunk(FirstHalf(chunk), net, k + 1)
    requires right == ResilientChunk(SecondHalf(chunk), net, k + 1 + left.calls)
    ensures ResilientChunk(chunk, net, k).failed <==> left.failed || right.failed
    ensures !left.failed && !right.failed ==> ResilientChunk(chunk, net, k) == Combined(left, right)
  {
  }

  /** At most 2n-1 calls, however the answers fall. */
  lemma {:induction false} CallsBounded<R, I>(chunk: seq<I>, net: (nat, seq<I>) -> Reply<R>, k: nat)
    requires chunk != []
    ensures 1 <= ResilientChunk(chunk, net, k).calls <= 2 * |chunk| - 1
    decreases |chunk|
  {
    if net(k, chunk).TooLong? && |chunk| > 1 {
      CallsBounded(FirstHalf(chunk), net, k + 1);
      CallsBounded(SecondHalf(chunk), net, k + 1 + ResilientChunk(FirstHalf(chunk), net, k + 1).calls);
    }
  }

  /**
   * For any failure pattern: at most 2n-1 calls, and unless an unexpected error is rethrown the input falls into
   * contiguous parts, in order, each answered as a whole or wholly up for review.
   */
  lemma {:induction false} ChunkPartitioned<R, I>(chunk: seq<I>, net: (nat, seq<I>) -> Reply<R>, k: nat)
      returns (segs: seq<Segment<R, I>>)
    requires chunk != []
    ensures 1 <= ResilientChunk(chunk, net, k).calls <= 2 * |chunk| - 1
    ensures !ResilientChunk(chunk, net, k).failed ==> Explains(segs, chunk, ResilientChunk(chunk, net, k), net, k)
    decreases |chunk|
  {
    CallsBounded(chunk, net, k);
    if net(k, chunk).TooLong? && |chunk| > 1 {
      var l, r := FirstHalf(chunk), SecondHalf(chunk);
      var left := ResilientChunk(l, net, k + 1);
      var right := ResilientChunk(r, net, k + 1 + left.calls);
      var ls := ChunkPartitioned(l, net, k + 1);
      var rs := ChunkPartitioned(r, net, k + 1 + left.calls);
      segs := ls + rs;
      HalvesOutcome(chunk, net, k, left, right);
      if !left.failed && !right.failed {
        ExplainsJoin(ls, rs, l, r, left, right, net, k);
        assert chunk == l + r;
      }
    } else {
      segs := LeafSegment(chunk, net, k);
    }
  }

  lemma LeafSegment<R, I>(chunk: seq<I>, net: (nat, seq<I>) -> Reply<R>, k: nat) returns (segs: seq<Segment<R, I>>)
    requires chunk != [] && (net(k, chunk).TooLong? ==> |chunk| == 1)
    ensures var o := ResilientChunk(chunk, net, k); o.calls == 1 && (!o.failed ==> Explains(segs, chunk, o, net, k))
    ensures |segs| == 1 && segs[0].items == chunk && segs[0].call == k
  {
    var reply := net(k, chunk);
    segs := [if reply.Answer? then Answered(chunk, k, reply.results) else Review(chunk, k)];
    if !reply.OtherError? { ExplainsLeaf(segs[0], chunk, ResilientChunk(chunk, net, k), net, k); }
  }

  /** The calls made, in order, with their numbers. */
  function SentBatches<R, I>(chunk: seq<I>, net: (nat, seq<I>) -> Reply<R>, k: nat): seq<(nat, seq<I>)>
    requires chunk != []
    decreases |chunk|
  {
    if net(k, chunk).TooLong? && |chunk| > 1 then
      var left := ResilientChunk(FirstHalf(chunk), net, k + 1);
      [(k, chunk)] + SentBatches(FirstHalf(chunk), net, k + 1)
      + (if left.failed then [] else SentBatches(SecondHalf(chunk), net, k + 1 + left.calls))
    else [(k, chunk)]
  }

  /** Numbered in turn from `k`. */
  ghost predicate Numbered<I>(sent: seq<(nat, seq<I>)>, k: nat) {
    forall i :: 0 <= i < |sent| ==> sent[i].0 == k + i
  }

  lemma NumberedConcat<I>(s: seq<(nat, seq<I>)>, t: seq<(nat, seq<I>)>, k: nat, n: nat)
    requires Numbered(s, k) && Numbered(t, n) && n == k + |s|
    ensures Numbered(s + t, k)
  {
    forall i | 0 <= i < |s + t| ensures (s + t)[i].0 == k + i {
      if i >= |s| { assert (s + t)[i] == t[i - |s|]; }
    }
  }

  /** What the calls of a halved chunk and their number come to, in terms of its halves. */
  lemma SentHalves<R, I>(chunk: seq<I>, net: (nat, seq<I>) -> Reply<R>, k: nat, l: seq<I>, r: seq<I>, left: Outcome<R, I>, n: nat,
                         sent: seq<(nat, seq<I>)>, sl: seq<(nat, seq<I>)>, sr: seq<(nat, seq<I>)>)
    requires net(k, chunk).TooLong? && |chunk| > 1 && l == FirstHalf(chunk) && r == SecondHalf(chunk)
    requires left == ResilientChunk(l, net, k + 1) && n == k + 1 + left.calls
    requires sent == SentBatches(chunk, net, k) && sl == SentBatches(l, net, k + 1) && sr == SentBatches(r, net, n)
    ensures sent == [(k, chunk)] + sl + if left.failed then [] else sr
  {
  }

  lemma CallsOfHalves<R, I>(chunk: seq<I>, net: (nat, seq<I>) -> Reply<R>, k: nat, l: seq<I>, r: seq<I>, left: Outcome<R, I>, n: nat,
                            right: Outcome<R, I>, o: Outcome<R, I>)
    requires net(k, chunk).TooLong? && |chunk| > 1 && l == FirstHalf(chunk) && r == SecondHalf(chunk)
    requires left == ResilientChunk(l, net, k + 1) && n == k + 1 + left.calls && right == ResilientChunk(r, net, n)
    requires o == ResilientChunk(chunk, net, k)
    ensures o.calls == 1 + left.calls + if left.failed then 0 else right.calls
  {
  }

  /** So many calls, numbered in turn from `k`. */
  ghost predicate Counted<I>(sent: seq<(nat, seq<I>)>, calls: nat, k: nat) {
    |sent| == calls && Numbered(sent, k)
  }

  /** The calls are numbered in turn, and these are all of them. */
  lemma {:induction false} SentNumbered<R, I>(chunk: seq<I>, net: (nat, seq<I>) -> Reply<R>, k: nat, sent: seq<(nat, seq<I>)>, o: Outcome<R, I>)
    requires chunk != [] && sent == SentBatches(chunk, net, k) && o == ResilientChunk(chunk, net, k)
    ensures Counted(sent, o.calls, k)
    decreases |chunk|
  {
    if net(k, chunk).TooLong? && |chunk| > 1 {
      var l, r := FirstHalf(chunk), SecondHalf(chunk);
      var left := ResilientChunk(l, net, k + 1);
      var n := k + 1 + left.calls;
      var right, sl, sr := ResilientChunk(r, net, n), SentBatches(l, net, k + 1), SentBatches(r, net, n);
      SentNumbered(l, net, k + 1, sl, left);
      SentNumbered(r, net, n, sr, right);
      SentHalves(chunk, net, k, l, r, left, n, sent, sl, sr);
      CallsOfHalves(chunk, net, k, l, r, left, n, right, o);
      CountedHalves((k, chunk), sl, sr, left.calls, right.calls, left.failed);
    }
  }

  lemma CountedHalves<I>(first: (nat, seq<I>), s: seq<(nat, seq<I>)>, t: seq<(nat, seq<I>)>, m: nat, n: nat, failed: bool)
    requires Counted(s, m, first.0 + 1) && Counted(t, n, first.0 + 1 + m)
    ensures Counted([first] + s + if failed then [] else t, 1 + m + if failed then 0 else n, first.0)
  {
    NumberedHalves([first], s, if failed then [] else t, first.0);
  }

  lemma NumberedHalves<I>(first: seq<(nat, seq<I>)>, s: seq<(nat, seq<I>)>, t: seq<(nat, seq<I>)>, k: nat)
    requires |first| == 1 && Numbered(first, k) && Numbered(s, k + 1) && Numbered(t, k + 1 + |s|)
    ensures Numbered(first + s + t, k)
  {
    NumberedConcat(first, s, k, k + 1);
    NumberedConcat(first + s, t, k, k + 1 + |s|);
  }

  /** The fate of every segment was decided by a call that was made, with exactly this segment. */
  ghost predicate WasSent<R, I>(seg: Segment<R, I>, sent: seq<(nat, seq<I>)>) {
    (seg.call, seg.items) in sent
  }

  ghost predicate AllSent<R, I>(segs: seq<Segment<R, I>>, sent: seq<(nat, seq<I>)>) {
    forall i :: 0 <= i < |segs| ==> WasSent(segs[i], sent)
  }

  lemma {:induction false} SegmentsSent<R, I>(chunk: seq<I>, net: (nat, seq<I>) -> Reply<R>, k: nat, sent: seq<(nat, seq<I>)>, o: Outcome<R, I>)
      returns (segs: seq<Segment<R, I>>)
    requires chunk != [] && sent == SentBatches(chunk, net, k) && o == ResilientChunk(chunk, net, k) && !o.failed
    ensures Explains(segs, chunk, o, net, k) && AllSent(segs, sent)
    decreases |chunk|
  {
    if net(k, chunk).TooLong? && |chunk| > 1 {
      var l, r := FirstHalf(chunk), SecondHalf(chunk);
      var left := ResilientChunk(l, net, k + 1);
      var n := k + 1 + left.calls;
      var right, sl, sr := ResilientChunk(r, net, n), SentBatches(l, net, k + 1), SentBatches(r, net, n);
      SentHalves(chunk, net, k, l, r, left, n, sent, sl, sr);
      OutcomeHalves(chunk, net, k, l, r, left, right, o);
      var ls := SegmentsSent(l, net, k + 1, sl, left);
      var rs := SegmentsSent(r, net, n, sr, right);
      segs := ls + rs;
      JoinExplained(chunk, l, r, ls, rs, left, right, o, net, k);
      SentJoin(ls, rs, sl, sr, (k, chunk));
    } else {
      segs := LeafSegment(chunk, net, k);
      SentLeaf(segs, chunk, k);
    }
  }

  lemma OutcomeHalves<R, I>(chunk: seq<I>, net: (nat, seq<I>) -> Reply<R>, k: nat, l: seq<I>, r: seq<I>,
                            left: Outcome<R, I>, right: Outcome<R, I>, o: Outcome<R, I>)
    requires net(k, chunk).TooLong? && |chunk| > 1 && l == FirstHalf(chunk) && r == SecondHalf(chunk)
    requires left == ResilientChunk(l, net, k + 1) && right == ResilientChunk(r, net, k + 1 + left.calls)
    requires o == ResilientChunk(chunk, net, k) && !o.failed
    ensures !left.failed && !right.failed && o == Combined(left, right) && chunk == l + r
  {
    HalvesOutcome(chunk, net, k, left, right);
  }

  lemma JoinExplained<R, I>(chunk: seq<I>, l: seq<I>, r: seq<I>, ls: seq<Segment<R, I>>, rs: seq<Segment<R, I>>,
                            left: Outcome<R, I>, right: Outcome<R, I>, o: Outcome<R, I>, net: (nat, seq<I>) -> Reply<R>, k: nat)
    requires chunk == l + r && o == Combined(left, right)
    requires Explains(ls, l, left, net, k + 1) && Explains(rs, r, right, net, k + 1 + left.calls)
    ensures Explains(ls + rs, chunk, o, net, k)
  {
    ExplainsJoin(ls, rs, l, r, left, right, net, k);
  }

  lemma SentJoin<R, I>(ls: seq<Segment<R, I>>, rs: seq<Segment<R, I>>, s: seq<(nat, seq<I>)>, t: seq<(nat, seq<I>)>, first: (nat, seq<I>))
    requires AllSent(ls, s) && AllSent(rs, t)
    ensures AllSent(ls + rs, [first] + s + t)
  {
    forall i | 0 <= i < |ls + rs| ensures WasSent((ls + rs)[i], [first] + s + t) {
      if i < |ls| { assert WasSent(ls[i], s); } else { assert WasSent(rs[i - |ls|], t); }
    }
  }

  lemma SentLeaf<R, I>(segs: seq<Segment<R, I>>, chunk: seq<I>, k: nat)
    requires |segs| == 1 && segs[0].items == chunk && segs[0].call == k
    ensures AllSent(segs, [(k, chunk)])
  {
    assert [(k, chunk)][0] == (k, chunk);
  }

  /** Some call among these ended in an unexpected error. */
  predicate HitsOtherError<R, I>(sent: seq<(nat, seq<I>)>, net: (nat, seq<I>) -> Reply<R>) {
    sent != [] && (net(sent[0].0, sent[0].1).OtherError? || HitsOtherError(sent[1..], net))
  }

  lemma {:induction false} HitsConcat<R, I>(s: seq<(nat, seq<I>)>, t: seq<(nat, seq<I>)>, net: (nat, seq<I>) -> Reply<R>)
    ensures HitsOtherError(s + t, net) <==> HitsOtherError(s, net) || HitsOtherError(t, net)
  {
    if s == [] {
      assert s + t == t;
    } else {
      assert (s + t)[1..] == s[1..] + t;
      HitsConcat(s[1..], t, net);
    }
  }

  lemma HitsOne<R, I>(k: nat, chunk: seq<I>, net: (nat, seq<I>) -> Reply<R>)
    ensures HitsOtherError([(k, chunk)], net) <==> net(k, chunk).OtherError?
  {
    assert [(k, chunk)][1..] == [];
  }

  lemma HitsInHalves<R, I>(first: (nat, seq<I>), s: seq<(nat, seq<I>)>, t: seq<(nat, seq<I>)>, net: (nat, seq<I>) -> Reply<R>)
    ensures HitsOtherError([first] + s + t, net) <==> net(first.0, first.1).OtherError? || HitsOtherError(s, net) || HitsOtherError(t, net)
  {
    HitsOne(first.0, first.1, net);
    HitsConcat([first], s, net);
    HitsConcat([first] + s, t, net);
  }

  lemma {:induction false} HitsIff<R, I>(sent: seq<(nat, seq<I>)>, net: (nat, seq<I>) -> Reply<R>)
    ensures HitsOtherError(sent, net) <==> exists i :: 0 <= i < |sent| && net(sent[i].0, sent[i].1).OtherError?
  {
    if sent != [] {
      HitsIff(sent[1..], net);
      if i :| 0 <= i < |sent| - 1 && net(sent[1..][i].0, sent[1..][i].1).OtherError? { assert sent[i + 1] == sent[1..][i]; }
      if i :| 0 <= i < |sent| && net(sent[i].0, sent[i].1).OtherError? && i > 0 { assert sent[1..][i - 1] == sent[i]; }
    }
  }

  lemma FailedHalves<R, I>(chunk: seq<I>, net: (nat, seq<I>) -> Reply<R>, k: nat, l: seq<I>, r: seq<I>, left: Outcome<R, I>, n: nat,
                           right: Outcome<R, I>, o: Outcome<R, I>)
    requires net(k, chunk).TooLong? && |chunk| > 1 && l == FirstHalf(chunk) && r == SecondHalf(chunk)
    requires left == ResilientChunk(l, net, k + 1) && n == k + 1 + left.calls && right == ResilientChunk(r, net, n)
    requires o == ResilientChunk(chunk, net, k)
    ensures o.failed <==> left.failed || right.failed
  {
  }

  lemma {:induction false} RethrowsFrom<R, I>(chunk: seq<I>, net: (nat, seq<I>) -> Reply<R>, k: nat, sent: seq<(nat, seq<I>)>, o: Outcome<R, I>)
    requires chunk != [] && sent == SentBatches(chunk, net, k) && o == ResilientChunk(chunk, net, k)
    ensures o.failed <==> HitsOtherError(sent, net)
    decreases |chunk|
  {
    if net(k, chunk).TooLong? && |chunk| > 1 {
      var l, r := FirstHalf(chunk), SecondHalf(chunk);
      var left := ResilientChunk(l, net, k + 1);
      var n := k + 1 + left.calls;
      var right, sl, sr := ResilientChunk(r, net, n), SentBatches(l, net, k + 1), SentBatches(r, net, n);
      RethrowsFrom(l, net, k + 1, sl, left);
      RethrowsFrom(r, net, n, sr, right);
      SentHalves(chunk, net, k, l, r, left, n, sent, sl, sr);
      FailedHalves(chunk, net, k, l, r, left, n, right, o);
      HitsInHalves((k, chunk), sl, if left.failed then [] else sr, net);
    } else {
      HitsOne(k, chunk, net);
    }
  }

  /** The error is rethrown exactly when one of the calls made ended in an unexpected error. */
  lemma RethrowsOtherErrors<R, I>(chunk: seq<I>, net: (nat, seq<I>) -> Reply<R>, k: nat)
    requires chunk != []
    ensures ResilientChunk(chunk, net, k).failed <==> HitsOtherError(SentBatches(chunk, net, k), net)
  {
    RethrowsFrom(chunk, net, k, SentBatches(chunk, net, k), ResilientChunk(chunk, net, k));
  }

  // ---------------------------------------------------------------- many batches

  /** `value` if it is at least one after rounding down, else the fallback: a batch size is never zero. */
  function SanitizePositiveInt(value: Option<real>, fallback: nat): (r: nat)
    requires fallback >= 1
    ensures r >= 1
    ensures if value.Some? && value.value >= 1.0 then r as real <= value.value < r as real + 1.0 else r == fallback
  {
    if value.Some? && value.value.Floor >= 1 then value.value.Floor else fallback
  }

  /** One batch after the other; `nets(b)` answers the calls of batch number `b`, whenever they run. */
  function RunAll<R, I>(batches: seq<seq<I>>, nets: nat -> (nat, seq<I>) -> Reply<R>, b: nat): Outcome<R, I>
    requires NoneEmpty(batches)
    decreases |batches|
  {
    if batches == [] then Outcome(false, [], [], 0)
    else
      var first := ResilientChunk(batches[0], nets(b), 0);
      var rest := RunAll(batches[1..], nets, b + 1);
      Join(first, rest)
  }

  function Join<R, I>(a: Outcome<R, I>, b: Outcome<R, I>): Outcome<R, I> {
    Outcome(a.failed || b.failed, a.collected + b.collected, a.needsReview + b.needsReview, a.calls + b.calls)
  }

  lemma JoinAssociative<R, I>(a: Outcome<R, I>, b: Outcome<R, I>, c: Outcome<R, I>)
    ensures Join(Join(a, b), c) == Join(a, Join(b, c))
  {
    assert (a.collected + b.collected) + c.collected == a.collected + (b.collected + c.collected);
    assert (a.needsReview + b.needsReview) + c.needsReview == a.needsReview + (b.needsReview + c.needsReview);
  }

  /** Slices the items into batches, runs every batch, and joins the outcomes in order. */
  method RunBatches<R, I>(items: seq<I>, batchSize: nat, nets: nat -> (nat, seq<I>) -> Reply<R>)
      returns (o: Outcome<R, I>, batches: seq<seq<I>>)
    requires batchSize >= 1
    ensures batches == Chunks(items, batchSize) && NoneEmpty(batches)
    ensures o == RunAll(batches, nets, 0)
    ensures items == [] ==> o == Outcome(false, [], [], 0)
  {
    batches := SliceBatches(items, batchSize);
    o := Outcome(false, [], [], 0);
    var b := 0;
    while b < |batches|
      invariant 0 <= b <= |batches|
      invariant NoneEmpty(batches)
      invariant Join(o, RunAll(batches[b..], nets, b)) == RunAll(batches, nets, 0)
    {
      assert batches[b..][1..] == batches[b + 1..];
      var one := ResilientChunk(batches[b], nets(b), 0);
      JoinAssociative(o, one, RunAll(batches[b + 1..], nets, b + 1));
      o := Join(o, one);
      b := b + 1;
    }
  }

  /** Over any number of batches: at most 2n calls less one per batch, and every item is answered for once. */
  lemma {:induction false} BatchesPartitioned<R, I>(batches: seq<seq<I>>, nets: nat -> (nat, seq<I>) -> Reply<R>, b: nat)
      returns (segs: seq<Segment<R, I>>)
    requires NoneEmpty(batches)
    ensures var o := RunAll(batches, nets, b);
      && o.calls <= 2 * |Flatten(batches)| - |batches|
      && (!o.failed ==>
            && Items(segs) == Flatten(batches) && o.collected == Results(segs) && o.needsReview == Reviewed(segs)
            && (forall i :: 0 <= i < |segs| ==> exists n {:trigger nets(n)} :: b <= n < b + |batches| && Genuine(segs[i], nets(n))))
    decreases |batches|
  {
    if batches == [] {
      segs := [];
    } else {
      var first := ChunkPartitioned(batches[0], nets(b), 0);
      var rest := BatchesPartitioned(batches[1..], nets, b + 1);
      segs := first + rest;
      SegmentsConcat(first, rest);
      var o := RunAll(batches, nets, b);
      if !o.failed {
        forall i | 0 <= i < |segs|
          ensures exists n {:trigger nets(n)} :: b <= n < b + |batches| && Genuine(segs[i], nets(n))
        {
          if i < |first| { assert Genuine(first[i], nets(b)); } else { assert segs[i] == rest[i - |first|]; }
        }
      }
    }
  }

  /** Many batches fail exactly when one of them does: one of its calls ended in an unexpected error. */
  lemma {:induction false} AllRethrow<R, I>(batches: seq<seq<I>>, nets: nat -> (nat, seq<I>) -> Reply<R>, b: nat, o: Outcome<R, I>)
    requires NoneEmpty(batches) && o == RunAll(batches, nets, b)
    ensures o.failed <==> exists i :: 0 <= i < |batches| && BatchHits(batches, nets, b, i)
    decreases |batches|
  {
    if batches != [] {
      var rest, c := batches[1..], b + 1;
      RethrowsOtherErrors(batches[0], nets(b), 0);
      AllRethrow(rest, nets, c, RunAll(rest, nets, c));
      HitsShift(batches, rest, nets, b, c);
    }
  }

  lemma HitsShift<R, I>(batches: seq<seq<I>>, rest: seq<seq<I>>, nets: nat -> (nat, seq<I>) -> Reply<R>, b: nat, c: nat)
    requires NoneEmpty(batches) && batches != [] && rest == batches[1..] && c == b + 1
    ensures BatchHits(batches, nets, b, 0) <==> HitsOtherError(SentBatches(batches[0], nets(b), 0), nets(b))
    ensures (exists i :: 0 <= i < |batches| && BatchHits(batches, nets, b, i))
       <==> BatchHits(batches, nets, b, 0) || exists i :: 0 <= i < |rest| && BatchHits(rest, nets, c, i)
  {
    assert b + 0 == b;
    forall i: nat | i < |rest| ensures BatchHits(rest, nets, c, i) <==> BatchHits(batches, nets, b, i + 1) {
      assert rest[i] == batches[i + 1] && c + i == b + (i + 1);
    }
    if i :| 0 <= i < |rest| && BatchHits(rest, nets, c, i) { assert BatchHits(batches, nets, b, i + 1); }
    if i :| 0 <= i < |batches| && BatchHits(batches, nets, b, i) && i > 0 { assert BatchHits(rest, nets, c, i - 1); }
  }

  /** Some call made for batch number `i` ended in an unexpected error; its calls are answered by `nets(b + i)`. */
  ghost predicate BatchHits<R, I>(batches: seq<seq<I>>, nets: nat -> (nat, seq<I>) -> Reply<R>, b: nat, i: nat)
    requires NoneEmpty(batches) && i < |batches|
  {
    HitsOtherError(SentBatches(batches[i], nets(b + i), 0), nets(b + i))
  }
}
