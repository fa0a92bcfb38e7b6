/** Merging candidate keywords that share a normalised text. */
module Normalize {
  import opened Base

  datatype Source = Seed | Expanded

  /** `M` is the mapped metrics record; a missing record or origin list is `None`. */
  datatype Candidate<M> = Candidate(text: string, source: Source, metrics: Option<M>, origins: Option<seq<string>>)

  /** A map that remembers the order in which its keys were first set. */
  datatype Table<M> = Table(order: seq<string>, row: map<string, Candidate<M>>)

  // ---------------------------------------------------------------- merging two candidates of one key

  function MergeOrigins(a: Option<seq<string>>, b: Option<seq<string>>): Option<seq<string>> {
    if a.None? && b.None? then None
    else Some(Unique((if a.Some? then a.value else []) + (if b.Some? then b.value else [])))
  }

  method MergeSeedOrigins(a: Option<seq<string>>, b: Option<seq<string>>) returns (merged: Option<seq<string>>)
    ensures merged == MergeOrigins(a, b)
  {
    if a.None? && b.None? { return None; }
    var all := (if a.Some? then a.value else []) + (if b.Some? then b.value else []);
    var out := [];
    for i := 0 to |all|
      invariant out == Unique(all[..i])
    {
      assert all[..i + 1][..i] == all[..i];
      if all[i] !in out { out := out + [all[i]]; }
    }
    assert all[..|all|] == all;
    merged := Some(out);
  }

  /** Whose text and source the merged row takes. */
  predicate TakesIncoming<M>(existing: Candidate<M>, incoming: Candidate<M>) {
    if incoming.source != existing.source then incoming.source.Seed?
    else incoming.metrics.Some? && existing.metrics.None?
  }

  function MergeInto<M>(existing: Candidate<M>, incoming: Candidate<M>): Candidate<M> {
    var rep := if TakesIncoming(existing, incoming) then incoming else existing;
    Candidate(rep.text, rep.source, if existing.metrics.Some? then existing.metrics else incoming.metrics,
              MergeOrigins(existing.origins, incoming.origins))
  }

  // ---------------------------------------------------------------- the merging loop

  function Put<M>(t: Table<M>, c: Candidate<M>, norm: Norm): Table<M> {
    var key := norm(c.text);
    if key in t.row then Table(t.order, t.row[key := MergeInto(t.row[key], c)])
    else Table(t.order + [key], t.row[key := c])
  }

  function FoldFrom<M>(t: Table<M>, cands: seq<Candidate<M>>, norm: Norm): Table<M>
    decreases |cands|
  {
    if cands == [] then t else Put(FoldFrom(t, cands[..|cands| - 1], norm), Last(cands), norm)
  }

  function Fold<M>(cands: seq<Candidate<M>>, norm: Norm): Table<M> {
    FoldFrom(Table([], map[]), cands, norm)
  }

  ghost predicate WellFormed<M>(t: Table<M>, norm: Norm) {
    && (forall k :: k in t.order <==> k in t.row)
    && (forall i, j :: 0 <= i < j < |t.order| ==> t.order[i] != t.order[j])
    && (forall k :: k in t.row ==> norm(t.row[k].text) == k)
  }

  lemma PutWellFormed<M>(t: Table<M>, c: Candidate<M>, norm: Norm)
    requires WellFormed(t, norm)
    ensures WellFormed(Put(t, c, norm), norm)
  {
  }

  lemma {:induction false} FoldWellFormed<M>(cands: seq<Candidate<M>>, norm: Norm)
    ensures WellFormed(Fold(cands, norm), norm)
  {
    if cands != [] {
      FoldWellFormed(cands[..|cands| - 1], norm);
      PutWellFormed(Fold(cands[..|cands| - 1], norm), Last(cands), norm);
    }
  }

  /** The merged rows in first-seen order. */
  function Dedupe<M>(cands: seq<Candidate<M>>, norm: Norm): (r: seq<Candidate<M>>)
    ensures |r| == |Fold(cands, norm).order|
  {
    FoldWellFormed(cands, norm);
    Rows(Fold(cands, norm))
  }

  function Rows<M>(t: Table<M>): (r: seq<Candidate<M>>)
    requires forall k :: k in t.order ==> k in t.row
    ensures |r| == |t.order|
  {
    seq(|t.order|, i requires 0 <= i < |t.order| => t.row[t.order[i]])
  }

  method DedupeMerge<M>(cands: seq<Candidate<M>>, norm: Norm) returns (rows: seq<Candidate<M>>)
    ensures rows == Dedupe(cands, norm)
  {
    var order: seq<string>, row: map<string, Candidate<M>> := [], map[];
    for i := 0 to |cands|
      invariant Table(order, row) == Fold(cands[..i], norm)
    {
      assert cands[..i + 1][..i] == cands[..i];
      var c := cands[i];
      var key := norm(c.text);
      if key !in row {
        order, row := order + [key], row[key := c];
      } else {
        var existing := row[key];
        var origins := MergeSeedOrigins(existing.origins, c.origins);
        var rep := if TakesIncoming(existing, c) then c else existing;
        row := row[key := Candidate(rep.text, rep.source, if existing.metrics.Some? then existing.metrics else c.metrics, origins)];
      }
    }
    assert cands[..|cands|] == cands;
    FoldWellFormed(cands, norm);
    rows := seq(|order|, i requires 0 <= i < |order| => row[order[i]]);
  }

  // ---------------------------------------------------------------- what the loop computes

  function Keys<M>(cands: seq<Candidate<M>>, norm: Norm): (r: seq<string>)
    ensures |r| == |cands|
  {
    seq(|cands|, i requires 0 <= i < |cands| => norm(cands[i].text))
  }

  function Group<M>(cands: seq<Candidate<M>>, key: string, norm: Norm): seq<Candidate<M>> {
    if cands == [] then []
    else Group(cands[..|cands| - 1], key, norm) + (if norm(Last(cands).text) == key then [Last(cands)] else [])
  }

  function MergeAll<M>(group: seq<Candidate<M>>): Candidate<M>
    requires group != []
    decreases |group|
  {
    if |group| == 1 then group[0] else MergeInto(MergeAll(group[..|group| - 1]), Last(group))
  }

  /** One row per key, keys in first-seen order, each row the merge of exactly the candidates with its key. */
  lemma {:induction false} FoldGroups<M>(cands: seq<Candidate<M>>, norm: Norm)
    ensures Fold(cands, norm).order == Unique(Keys(cands, norm))
    ensures forall k :: k in Fold(cands, norm).row <==> Group(cands, k, norm) != []
    ensures forall k :: k in Fold(cands, norm).row ==> Fold(cands, norm).row[k] == MergeAll(Group(cands, k, norm))
  {
    if cands != [] {
      var before, c := cands[..|cands| - 1], Last(cands);
      FoldGroups(before, norm);
      FoldWellFormed(before, norm);
      assert Keys(cands, norm)[..|cands| - 1] == Keys(before, norm);
      assert Last(Keys(cands, norm)) == norm(c.text);
      var key, g := norm(c.text), Group(before, norm(c.text), norm);
      assert (g + [c])[..|g|] == g && Last(g + [c]) == c;
      forall k | k != key ensures Group(cands, k, norm) == Group(before, k, norm) {}
    }
  }

  function FirstSeed<M>(g: seq<Candidate<M>>): (r: nat)
    ensures r <= |g| && (forall i :: 0 <= i < r ==> g[i].source.Expanded?) && (r < |g| ==> g[r].source.Seed?)
  {
    if g == [] then 0 else
    var r := FirstSeed(g[..|g| - 1]);
    if r < |g| - 1 || Last(g).source.Seed? then r else |g|
  }

  function FirstMetrics<M>(g: seq<Candidate<M>>): (r: nat)
    ensures r <= |g| && (forall i :: 0 <= i < r ==> g[i].metrics.None?) && (r < |g| ==> g[r].metrics.Some?)
  {
    if g == [] then 0 else
    var r := FirstMetrics(g[..|g| - 1]);
    if r < |g| - 1 || Last(g).metrics.Some? then r else |g|
  }

  /**
   * Whose text survives. Without a seed: the first candidate with metrics, else the first. With one: the first
   * seed, unless the very first metrics of the group arrive later and on a seed.
   */
  function Representative<M>(g: seq<Candidate<M>>): nat {
    var s, m := FirstSeed(g), FirstMetrics(g);
    if s == |g| then (if m < |g| then m else 0)
    else if s < m < |g| && g[m].source.Seed? then m else s
  }

  lemma {:induction false} RepresentativeSurvives<M>(g: seq<Candidate<M>>)
    requires g != []
    ensures Representative(g) < |g|
    ensures MergeAll(g).text == g[Representative(g)].text
    ensures MergeAll(g).source.Seed? <==> exists i :: 0 <= i < |g| && g[i].source.Seed?
    ensures MergeAll(g).metrics == if FirstMetrics(g) < |g| then g[FirstMetrics(g)].metrics else None
    decreases |g|
  {
    if |g| > 1 {
      var before := g[..|g| - 1];
      RepresentativeSurvives(before);
      MergedSource(before);
    }
    MergedSource(g);
    assert FirstSeed(g) < |g| <==> exists i :: 0 <= i < |g| && g[i].source.Seed?;
  }

  lemma {:induction false} MergedSource<M>(g: seq<Candidate<M>>)
    requires g != []
    ensures MergeAll(g).source.Seed? <==> FirstSeed(g) < |g|
    decreases |g|
  {
    if |g| > 1 { MergedSource(g[..|g| - 1]); }
  }

  function AllOrigins<M>(g: seq<Candidate<M>>): seq<string> {
    if g == [] then [] else AllOrigins(g[..|g| - 1]) + (if Last(g).origins.Some? then Last(g).origins.value else [])
  }

  ghost predicate NoOrigins<M>(g: seq<Candidate<M>>) {
    forall i :: 0 <= i < |g| ==> g[i].origins.None?
  }

  /** A row merged from several candidates carries the ordered union of their origins. */
  lemma {:induction false} OriginsUnion<M>(g: seq<Candidate<M>>)
    requires |g| >= 2
    ensures MergeAll(g).origins == if NoOrigins(g) then None else Some(Unique(AllOrigins(g)))
    decreases |g|
  {
    var before, c := g[..|g| - 1], Last(g);
    var mine := if c.origins.Some? then c.origins.value else [];
    assert forall i :: 0 <= i < |before| ==> before[i] == g[i];
    if |g| == 2 {
      assert before[..0] == [] && MergeAll(before) == g[0] && c == g[1];
      assert AllOrigins(before) == if g[0].origins.Some? then g[0].origins.value else [];
      assert NoOrigins(g) <==> g[0].origins.None? && g[1].origins.None?;
    } else {
      OriginsUnion(before);
      UniqueAbsorbs(AllOrigins(before), mine);
      if NoOrigins(before) { NoOriginsEmpty(before); }
    }
  }

  lemma {:induction false} NoOriginsEmpty<M>(g: seq<Candidate<M>>)
    requires NoOrigins(g)
    ensures AllOrigins(g) == []
  {
    if g != [] {
      var before := g[..|g| - 1];
      forall i | 0 <= i < |before| ensures before[i].origins.None? { assert g[i].origins.None?; }
      NoOriginsEmpty(before);
    }
  }

  /**
   * The promised ordered union fails for exactly one kind of row: a lone candidate whose own list repeats itself
   * is copied as it is.
   */
  lemma OriginsAreUnionIff<M>(g: seq<Candidate<M>>)
    requires g != [] && !NoOrigins(g)
    ensures MergeAll(g).origins == Some(Unique(AllOrigins(g)))
       <==> |g| >= 2 || Unique(g[0].origins.value) == g[0].origins.value
  {
    if |g| >= 2 {
      OriginsUnion(g);
    } else {
      assert g == [g[0]] && AllOrigins(g[..0]) == [];
      assert AllOrigins(g) == [] + g[0].origins.value == g[0].origins.value;
    }
  }

  // ---------------------------------------------------------------- merging batch by batch

  lemma {:induction false} FoldConcat<M>(t: Table<M>, a: seq<Candidate<M>>, b: seq<Candidate<M>>, norm: Norm)
    ensures FoldFrom(t, a + b, norm) == FoldFrom(FoldFrom(t, a, norm), b, norm)
    decreases |b|
  {
    if b == [] {
      assert a + b == a;
    } else {
      assert (a + b)[..|a| + |b| - 1] == a + b[..|b| - 1];
      FoldConcat(t, a, b[..|b| - 1], norm);
    }
  }

  function FirstRows<M>(t: Table<M>, n: nat): Table<M>
    requires n <= |t.order| && forall k :: k in t.order ==> k in t.row
  {
    Table(t.order[..n], map k | k in t.order[..n] :: t.row[k])
  }

  /** Merging rows that are already merged changes nothing. */
  lemma {:induction false} Refold<M>(t: Table<M>, n: nat, norm: Norm)
    requires WellFormed(t, norm) && n <= |t.order|
    ensures Fold(Rows(t)[..n], norm) == FirstRows(t, n)
  {
    if n > 0 {
      Refold(t, n - 1, norm);
      assert Rows(t)[..n][..n - 1] == Rows(t)[..n - 1];
      assert Last(Rows(t)[..n]) == t.row[t.order[n - 1]];
      RefoldStep(t, n, norm);
    }
  }

  lemma RefoldStep<M>(t: Table<M>, n: nat, norm: Norm)
    requires WellFormed(t, norm) && 0 < n <= |t.order|
    ensures Put(FirstRows(t, n - 1), t.row[t.order[n - 1]], norm) == FirstRows(t, n)
  {
    var key := t.order[n - 1];
    assert t.order[..n] == t.order[..n - 1] + [key];
    assert key !in FirstRows(t, n - 1).row;
  }

  /** Merging a first batch on its own and then the rest gives the same rows as merging everything at once. */
  lemma LeftBatchLaw<M>(a: seq<Candidate<M>>, b: seq<Candidate<M>>, norm: Norm)
    ensures Dedupe(Dedupe(a, norm) + b, norm) == Dedupe(a + b, norm)
  {
    var t := Fold(a, norm);
    FoldWellFormed(a, norm);
    Refold(t, |t.order|, norm);
    assert Rows(t)[..|t.order|] == Rows(t) && t.order[..|t.order|] == t.order;
    assert FirstRows(t, |t.order|).row == t.row;
    FoldConcat(Table([], map[]), Rows(t), b, norm);
    FoldConcat(Table([], map[]), a, b, norm);
  }

  /** On the right the law fails: a merged batch can hand its text to a seed that the single pass would have kept. */
  lemma RightBatchLawFails()
    ensures exists a: seq<Candidate<int>>, b: seq<Candidate<int>>, norm: Norm ::
      Dedupe(a + Dedupe(b, norm), norm) != Dedupe(a + b, norm)
  {
    var norm: Norm := s => "key";
    var x, y, z := Candidate("shoes", Seed, None, None), Candidate("SHOES", Expanded, Some(1), None), Candidate("Shoes", Seed, None, None);
    var m := Candidate("Shoes", Seed, Some(1), None);
    DedupeTwo(y, z, norm);
    assert Dedupe([y, z], norm) == [m];
    DedupeTwo(x, m, norm);
    assert Dedupe([x] + [m], norm)[0].text == "Shoes";
    DedupeTwo(x, y, norm);
    FoldConcat(Table([], map[]), [x, y], [z], norm);
    assert [x, y] + [z] == [x] + [y, z];
    assert [z][..0] == [];
    assert Dedupe([x] + [y, z], norm)[0].text == "shoes";
  }

  lemma DedupeTwo(a: Candidate<int>, b: Candidate<int>, norm: Norm)
    requires norm(a.text) == norm(b.text)
    ensures Fold([a] + [b], norm) == Table([norm(a.text)], map[norm(a.text) := MergeInto(a, b)])
    ensures [a] + [b] == [a, b]
  {
    assert ([a] + [b])[..1] == [a] && [a][..0] == [];
    assert Fold([a][..0], norm) == Table([], map[]);
    assert [] + [norm(a.text)] == [norm(a.text)];
    assert Fold([a], norm) == Table([norm(a.text)], map[norm(a.text) := a]);
  }

  /** Everything a merged row says, row by row, in terms of the candidates alone. */
  lemma DedupeRow<M>(cands: seq<Candidate<M>>, norm: Norm, i: nat)
    requires i < |Dedupe(cands, norm)|
    ensures |Dedupe(cands, norm)| == |Unique(Keys(cands, norm))|
    ensures var key := Unique(Keys(cands, norm))[i];
      var g := Group(cands, key, norm);
      var row := Dedupe(cands, norm)[i];
      && g != [] && norm(row.text) == key
      && row == MergeAll(g)
      && Representative(g) < |g| && row.text == g[Representative(g)].text
      && (row.source.Seed? <==> exists j :: 0 <= j < |g| && g[j].source.Seed?)
      && row.metrics == (if FirstMetrics(g) < |g| then g[FirstMetrics(g)].metrics else None)
      && (|g| >= 2 ==> row.origins == if NoOrigins(g) then None else Some(Unique(AllOrigins(g))))
  {
    FoldGroups(cands, norm);
    FoldWellFormed(cands, norm);
    var key := Unique(Keys(cands, norm))[i];
    assert key in Fold(cands, norm).order;
    var g := Group(cands, key, norm);
    RepresentativeSurvives(g);
    if |g| >= 2 { OriginsUnion(g); }
  }
}
