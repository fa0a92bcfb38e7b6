/** From streamed candidates to snapshot rows: first-seen keys go to labelling, the merged rows take the labels back. */
module ExpandSnapshot {
  import opened Base
  import opened Normalize
  import Sorting
  import Strings
  import ResilientBatch
  import AdsExpansion
  import Labels = IntentLabels
  import Stream = IntentStream
  import Store = IntentStore
  import Timeline = IntentTimeline

  /** The keys a batch shows for the first time, in order. */
  function Fresh<M>(done: seq<Candidate<M>>, batch: seq<Candidate<M>>, norm: Norm): seq<string> {
    UniqueGrows(Keys(done, norm), Keys(batch, norm));
    Unique(Keys(done, norm) + Keys(batch, norm))[|Unique(Keys(done, norm))|..]
  }

  /** What the labelling stream consumes: the non-empty lists of fresh keys. */
  function FreshBatches<M>(parts: seq<seq<Candidate<M>>>, norm: Norm): seq<seq<string>> {
    if parts == [] then []
    else
      var before := parts[..|parts| - 1];
      var unseen := Fresh(Flatten(before), Last(parts), norm);
      FreshBatches(before, norm) + (if unseen == [] then [] else [unseen])
  }

  lemma KeysConcat<M>(a: seq<Candidate<M>>, b: seq<Candidate<M>>, norm: Norm)
    ensures Keys(a + b, norm) == Keys(a, norm) + Keys(b, norm)
  {
  }

  /** The stream carries every key of the candidates exactly once, in first-seen order. */
  lemma {:induction false} FreshAreTheKeys<M>(parts: seq<seq<Candidate<M>>>, norm: Norm)
    ensures Flatten(FreshBatches(parts, norm)) == Unique(Keys(Flatten(parts), norm))
  {
    if parts != [] {
      var before, last := parts[..|parts| - 1], Last(parts);
      assert parts == before + [last];
      FlattenSnoc(before, last);
      KeysConcat(Flatten(before), last, norm);
      FreshAreTheKeys(before, norm);
      UniqueGrows(Keys(Flatten(before), norm), Keys(last, norm));
      var unseen := Fresh(Flatten(before), last, norm);
      if unseen == [] { assert FreshBatches(before, norm) + [] == FreshBatches(before, norm); }
      else { FlattenSnoc(FreshBatches(before, norm), unseen); }
    }
  }

  /** Collects the candidates and passes on the keys not seen before. */
  method Texts<M>(parts: seq<seq<Candidate<M>>>, norm: Norm) returns (cands: seq<Candidate<M>>, batches: seq<seq<string>>)
    ensures cands == Flatten(parts) && batches == FreshBatches(parts, norm)
  {
    cands, batches := [], [];
    var seen: set<string> := {};
    for b := 0 to |parts|
      invariant cands == Flatten(parts[..b]) && batches == FreshBatches(parts[..b], norm)
      invariant seen == set k | k in Unique(Keys(cands, norm))
    {
      assert parts[..b + 1][..b] == parts[..b] && parts[..b + 1] == parts[..b] + [parts[b]];
      FlattenSnoc(parts[..b], parts[b]);
      var unseen;
      unseen, seen := FreshKeys(cands, parts[b], seen, norm);
      KeysConcat(cands, parts[b], norm);
      if |unseen| > 0 { batches := batches + [unseen]; }
      else { assert FreshBatches(parts[..b + 1], norm) == FreshBatches(parts[..b], norm) + []; }
      cands := cands + parts[b];
    }
    assert parts[..|parts|] == parts;
  }

  method FreshKeys<M>(ghost done: seq<Candidate<M>>, batch: seq<Candidate<M>>, seenBefore: set<string>, norm: Norm)
      returns (unseen: seq<string>, seen: set<string>)
    requires seenBefore == set k | k in Unique(Keys(done, norm))
    ensures unseen == Fresh(done, batch, norm)
    ensures seen == set k | k in Unique(Keys(done, norm) + Keys(batch, norm))
  {
    unseen, seen := [], seenBefore;
    ghost var before := Keys(done, norm);
    assert before + Keys(batch[..0], norm) == before;
    for i := 0 to |batch|
      invariant Unique(before + Keys(batch[..i], norm)) == Unique(before) + unseen
      invariant seen == set k | k in Unique(before) + unseen
    {
      var key := norm(batch[i].text);
      assert (before + Keys(batch[..i + 1], norm)) == before + Keys(batch[..i], norm) + [key];
      assert (before + Keys(batch[..i], norm) + [key])[..|before| + i] == before + Keys(batch[..i], norm);
      if key !in seen {
        assert Unique(before) + unseen + [key] == Unique(before) + (unseen + [key]);
        unseen, seen := unseen + [key], seen + {key};
      }
    }
    assert batch[..|batch|] == batch;
  }

  // ---------------------------------------------------------------- rows with labels

  /** Labels by keyword, the last row of a keyword counting. */
  function ByKeyword(labeled: seq<Labels.Row>): map<string, seq<string>> {
    if labeled == [] then map[] else ByKeyword(labeled[..|labeled| - 1])[Last(labeled).keyword := Last(labeled).labels]
  }

  datatype SnapshotRow<M> = SnapshotRow(keyword: Candidate<M>, key: string, intent: seq<string>)

  function Intent(byKeyword: map<string, seq<string>>, key: string): seq<string> {
    Sorting.Sort(Strings.StrLe, if key in byKeyword then byKeyword[key] else [])
  }

  function SnapshotRows<M>(rows: seq<Candidate<M>>, labeled: seq<Labels.Row>, norm: Norm): (r: seq<SnapshotRow<M>>)
    ensures |r| == |rows|
  {
    var byKeyword := ByKeyword(labeled);
    seq(|rows|, i requires 0 <= i < |rows| => SnapshotRow(rows[i], norm(rows[i].text), Intent(byKeyword, norm(rows[i].text))))
  }

  datatype Fetched<M> =
    | Complete(rows: seq<SnapshotRow<M>>)
    | Partial(rows: seq<SnapshotRow<M>>)   // a terminal error after some candidates: kept, unlabelled
    | Rethrown

  /** Expand mode: label while expanding, merge once the stream has ended, degrade on a terminal error. */
  method FetchAndLabel<M>(y: AdsExpansion.Yielded<M>, terminal: bool, size: nat, cache: Store.IntentCache, gaps: Timeline.Gaps,
                          nets: Stream.Nets, all: Stream.Nets, lost: nat -> (set<string>, set<string>), norm: Norm)
      returns (r: Fetched<M>)
    requires size >= 1
    modifies cache
    ensures var texts := FreshBatches(y.batches, norm);
      var labels := Stream.Stream(texts, size, Timeline.LookupsOf(old(Timeline.TablesOf(cache)), texts, gaps, all, norm), nets, norm);
      var rows := Dedupe(Flatten(y.batches), norm);
      r == if y.ok && !labels.failed then Complete(SnapshotRows(rows, labels.labeled, norm))
           else if terminal && Flatten(y.batches) != [] then Partial(SnapshotRows(rows, [], norm))
           else Rethrown
  {
    var cands, texts := Texts(y.batches, norm);
    var labels, _ := Timeline.LabelStream(texts, size, cache, gaps, nets, all, lost, norm, _ => []);
    if !y.ok || labels.failed {
      if !terminal || |cands| == 0 { return Rethrown; }
      var rows := DedupeMerge(cands, norm);
      return Partial(SnapshotRows(rows, [], norm));
    }
    var rows := DedupeMerge(cands, norm);
    r := Complete(SnapshotRows(rows, labels.labeled, norm));
  }

  lemma {:induction false} ByKeywordDistinct(labeled: seq<Labels.Row>, i: nat)
    requires i < |labeled|
    requires forall j, k :: 0 <= j < k < |labeled| ==> labeled[j].keyword != labeled[k].keyword
    ensures labeled[i].keyword in ByKeyword(labeled) && ByKeyword(labeled)[labeled[i].keyword] == labeled[i].labels
  {
    if i < |labeled| - 1 { ByKeywordDistinct(labeled[..|labeled| - 1], i); }
  }

  /** Row `i` takes the labels of input `i`, in alphabetical order: at least one, all valid, none twice. */
  ghost predicate WellLabelled<M>(row: SnapshotRow<M>, labels: seq<string>) {
    && multiset(row.intent) == multiset(labels)
    && row.intent != [] && (forall l :: l in row.intent ==> l in {"informational", "commercial", "transactional", "navigational"})
    && forall a, b :: 0 <= a < b < |row.intent| ==> row.intent[a] == row.intent[b] || Strings.StrLt(row.intent[a], row.intent[b])
  }

  lemma IntentSorted(byKeyword: map<string, seq<string>>, key: string)
    ensures var intent := Intent(byKeyword, key);
      forall a, b :: 0 <= a < b < |intent| ==> intent[a] == intent[b] || Strings.StrLt(intent[a], intent[b])
  {
    var labels := if key in byKeyword then byKeyword[key] else [];
    forall x, y, z ensures Strings.StrLe(x, y) || Strings.StrLe(y, x)
      ensures Strings.StrLe(x, y) && Strings.StrLe(y, x) ==> x == y
      ensures Strings.StrLe(x, y) && Strings.StrLe(y, z) ==> Strings.StrLe(x, z)
    {
      Strings.StrOrders(x, y, z);
    }
    Sorting.SortSorted(Strings.StrLe, labels);
    var intent := Intent(byKeyword, key);
    forall a, b | 0 <= a < b < |intent| ensures intent[a] == intent[b] || Strings.StrLt(intent[a], intent[b]) {
      assert Strings.StrLe(intent[a], intent[b]);
    }
  }

  /** A row of a snapshot: the merged keyword as it is, under its normalised text; without labels when it is a partial one. */
  lemma SnapshotRowIs<M>(rows: seq<Candidate<M>>, labeled: seq<Labels.Row>, norm: Norm, i: nat)
    requires i < |rows|
    ensures var row := SnapshotRows(rows, labeled, norm)[i];
      row.keyword == rows[i] && row.key == norm(rows[i].text) && (labeled == [] ==> row.intent == [])
  {
  }

  lemma RowLabelled<M>(rows: seq<Candidate<M>>, keys: seq<string>, results: seq<Labels.Row>, norm: Norm, i: nat)
    requires |rows| == |keys| && (forall j :: 0 <= j < |rows| ==> norm(rows[j].text) == keys[j])
    requires Distinct(keys)
    requires i < |rows|
    ensures var labeled := Labels.PostProcess(keys, results, norm);
      WellLabelled(SnapshotRows(rows, labeled, norm)[i], labeled[i].labels)
  {
    var labeled := Labels.PostProcess(keys, results, norm);
    ByKeywordDistinct(labeled, i);
    Labels.EveryInputLabelled(keys, results, norm, i);
    IntentSorted(ByKeyword(labeled), norm(rows[i].text));
    var intent := SnapshotRows(rows, labeled, norm)[i].intent;
    Sorting.SameElements(intent, labeled[i].labels);
  }

  /** What the stream returns is some list of results, aligned with its inputs. */
  lemma StreamAligns(batches: seq<seq<string>>, size: nat, lookup: Stream.Lookups, nets: Stream.Nets, norm: Norm)
      returns (results: seq<Labels.Row>)
    requires size >= 1 && !Stream.Stream(batches, size, lookup, nets, norm).failed
    ensures Stream.Stream(batches, size, lookup, nets, norm).labeled == Labels.PostProcess(Flatten(batches), results, norm)
  {
    results := Stream.SiftAll(batches, lookup, norm).hits
               + ResilientBatch.RunAll(Stream.Dispatched(batches, size, lookup, norm), nets, 0).collected;
  }

  /** The merged rows are keyed by the distinct keys, in order. */
  lemma RowKeys<M>(cands: seq<Candidate<M>>, norm: Norm)
    ensures Keys(Dedupe(cands, norm), norm) == Unique(Keys(cands, norm))
  {
    forall j: nat | j < |Dedupe(cands, norm)|
      ensures j < |Unique(Keys(cands, norm))| && norm(Dedupe(cands, norm)[j].text) == Unique(Keys(cands, norm))[j]
    {
      DedupeRow(cands, norm, j);
    }
    FoldGroups(cands, norm);
  }

  /**
   * Every row of a complete expand snapshot carries at least one valid intent label: the labels the stream found
   * for its own key.
   */
  lemma CompleteRowsLabelled<M>(parts: seq<seq<Candidate<M>>>, size: nat, lookup: Stream.Lookups, nets: Stream.Nets, norm: Norm, i: nat)
    requires size >= 1 && i < |Dedupe(Flatten(parts), norm)|
    requires !Stream.Stream(FreshBatches(parts, norm), size, lookup, nets, norm).failed
    ensures var labeled := Stream.Stream(FreshBatches(parts, norm), size, lookup, nets, norm).labeled;
      var rows := SnapshotRows(Dedupe(Flatten(parts), norm), labeled, norm);
      && |labeled| == |rows| && labeled[i].keyword == rows[i].key
      && rows[i].keyword == Dedupe(Flatten(parts), norm)[i] && rows[i].key == norm(rows[i].keyword.text)
      && WellLabelled(rows[i], labeled[i].labels)
  {
    var results := StreamAligns(FreshBatches(parts, norm), size, lookup, nets, norm);
    FreshAreTheKeys(parts, norm);
    UniqueFacts(Keys(Flatten(parts), norm));
    RowKeys(Flatten(parts), norm);
    var rows, keys := Dedupe(Flatten(parts), norm), Unique(Keys(Flatten(parts), norm));
    assert forall j :: 0 <= j < |rows| ==> norm(rows[j].text) == Keys(rows, norm)[j];
    RowLabelled(rows, keys, results, norm, i);
  }

  /**
   * The same for exact mode, and for any other rows with distinct keys: whatever batches the keys are streamed in
   * (exact mode uses a single one), every row ends with at least one valid label.
   */
  lemma DistinctRowsLabelled<M>(rows: seq<Candidate<M>>, batches: seq<seq<string>>, size: nat, lookup: Stream.Lookups,
                                nets: Stream.Nets, norm: Norm, i: nat)
    requires size >= 1 && i < |rows| && Flatten(batches) == Keys(rows, norm)
    requires Distinct(Keys(rows, norm))
    requires !Stream.Stream(batches, size, lookup, nets, norm).failed
    ensures var labeled := Stream.Stream(batches, size, lookup, nets, norm).labeled;
      |labeled| == |rows| && WellLabelled(SnapshotRows(rows, labeled, norm)[i], labeled[i].labels)
  {
    var results := StreamAligns(batches, size, lookup, nets, norm);
    RowLabelled(rows, Keys(rows, norm), results, norm, i);
  }
}
