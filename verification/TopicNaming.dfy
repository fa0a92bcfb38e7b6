/** Naming clusters of keywords with an LLM: every cluster gets exactly one naming, in input order. */
module TopicNaming {
  import opened Base
  import Resilient = ResilientBatch

  /** An unverified field of the model's answer. */
  datatype Field = Text(text: string) | NotText

  datatype RawTopic = RawTopic(name: Field, parent: Field, intent: Field, kind: Field, reason: Field)

  datatype Reply =
    | Topics(topics: seq<Option<RawTopic>>)   // an entry may be null
    | NoTopics      // nothing parsed
    | OddTopics     // `topics` present but not a list
    | Refused
    | TooLong
    | Filtered
    | OtherError

  datatype Cluster = Cluster(clusterLabel: int, representatives: seq<string>)

  datatype Naming = Naming(clusterLabel: int, topicName: string, parentTopic: string, intent: string, kind: string,
                           reason: string, degraded: bool)

  const INTENTS: set<string> := {"informational", "commercial", "transactional", "navigational"}

  predicate Space(c: char) {
    var n := c as int;
    n == 0x20 || 0x9 <= n <= 0xd || n == 0xa0 || n == 0x1680 || 0x2000 <= n <= 0x200a
    || n == 0x2028 || n == 0x2029 || n == 0x202f || n == 0x205f || n == 0x3000 || n == 0xfeff
  }

  predicate Blank(s: string) {
    forall i :: 0 <= i < |s| ==> Space(s[i])
  }

  predicate Meaningful(f: Field) {
    f.Text? && !Blank(f.text)
  }

  function CleanIntent(f: Field): (r: string)
    ensures r in INTENTS
    ensures f.Text? && f.text in INTENTS ==> r == f.text
  {
    if f.Text? && f.text in INTENTS then f.text else "informational"
  }

  function Fallback(c: Cluster, cause: string): Naming {
    Naming(c.clusterLabel, if c.representatives != [] then c.representatives[0] else "cluster " + IntText(c.clusterLabel),
           "", "informational", "unknown", "degraded: " + cause, true)
  }

  function NameOne(c: Cluster, t: RawTopic): Naming {
    if !Meaningful(t.name) then Fallback(c, "invalid entry")
    else Naming(c.clusterLabel, t.name.text, if t.parent.Text? then t.parent.text else "", CleanIntent(t.intent),
                if Meaningful(t.kind) then t.kind.text else "unknown", if t.reason.Text? then t.reason.text else "", false)
  }

  function Cause(reply: Reply): string {
    match reply
    case Topics(_) => "count mismatch"
    case OddTopics => "count mismatch"
    case Refused => "refusal"
    case TooLong => "length"
    case Filtered => "content_filter"
    case _ => "malformed"
  }

  /** The answer is usable as a whole: one topic per cluster, matched by position. */
  predicate Aligned(clusters: seq<Cluster>, reply: Reply) {
    reply.Topics? && |reply.topics| == |clusters|
  }

  /** Reading the name of a null entry throws; a misaligned answer is never read. */
  predicate Unreadable(clusters: seq<Cluster>, reply: Reply) {
    Aligned(clusters, reply) && None in reply.topics
  }

  function ReconcileOne(clusters: seq<Cluster>, reply: Reply, i: nat): Naming
    requires i < |clusters| && !Unreadable(clusters, reply)
  {
    if Aligned(clusters, reply) then NameOne(clusters[i], reply.topics[i].value) else Fallback(clusters[i], Cause(reply))
  }

  /** The validation boundary: aligns the answer with the clusters by position, or degrades all of them, or throws. */
  function Reconcile(clusters: seq<Cluster>, reply: Reply): (r: Option<seq<Naming>>)
    ensures r.Some? ==> |r.value| == |clusters|
  {
    if Unreadable(clusters, reply) then None
    else Some(seq(|clusters|, i requires 0 <= i < |clusters| => ReconcileOne(clusters, reply, i)))
  }

  /**
   * It throws exactly when the answer has one entry per cluster and one of them is null. Otherwise every cluster keeps
   * its label and gets a known intent; it is degraded exactly when its own answer is unusable.
   */
  lemma ReconcileAligns(clusters: seq<Cluster>, reply: Reply, i: nat)
    requires i < |clusters|
    ensures Reconcile(clusters, reply).None? <==>
              reply.Topics? && |reply.topics| == |clusters| && exists k :: 0 <= k < |clusters| && reply.topics[k].None?
    ensures Reconcile(clusters, reply).Some? ==>
      var n := Reconcile(clusters, reply).value[i];
      var topic := if Aligned(clusters, reply) then reply.topics[i] else None;
      && n.clusterLabel == clusters[i].clusterLabel && n.intent in INTENTS
      && (!n.degraded <==> topic.Some? && Meaningful(topic.value.name))
      && (!n.degraded ==> n.topicName == topic.value.name.text)
      && (!n.degraded && topic.value.intent.Text? && topic.value.intent.text in INTENTS ==> n.intent == topic.value.intent.text)
      && (!n.degraded && Meaningful(topic.value.kind) ==> n.kind == topic.value.kind.text)
      && (n.degraded ==> n.intent == "informational" && n.kind == "unknown" && n.parentTopic == "")
      && (n.degraded && clusters[i].representatives != [] ==> n.topicName == clusters[i].representatives[0])
  {
    if Aligned(clusters, reply) {
      assert None in reply.topics <==> exists k :: 0 <= k < |clusters| && reply.topics[k].None?;
    }
  }

  /** White space as `trim` sees it, code unit by code unit. */
  lemma SpacesAre(c: char)
    ensures Space(c) <==> c as int in {0x09, 0x0a, 0x0b, 0x0c, 0x0d, 0x20, 0xa0, 0x1680, 0x2000, 0x2001, 0x2002, 0x2003, 0x2004, 0x2005,
                                       0x2006, 0x2007, 0x2008, 0x2009, 0x200a, 0x2028, 0x2029, 0x202f, 0x205f, 0x3000, 0xfeff}
  {
  }

  /** A text with more than white space in it. */
  ghost predicate Says(f: Field, s: string) {
    f == Text(s) && exists i :: 0 <= i < |s| && !Space(s[i])
  }

  /** What an answer's own entry makes of its cluster, field by field. */
  ghost predicate Entitled(n: Naming, c: Cluster, t: RawTopic) {
    && n.clusterLabel == c.clusterLabel && !n.degraded && Says(t.name, n.topicName)
    && n.parentTopic == (if t.parent.Text? then t.parent.text else "")
    && n.reason == (if t.reason.Text? then t.reason.text else "")
    && (if exists s :: Says(t.kind, s) then Says(t.kind, n.kind) else n.kind == "unknown")
    && (if t.intent.Text? && t.intent.text in ["informational", "commercial", "transactional", "navigational"]
        then n.intent == t.intent.text else n.intent == "informational")
  }

  /** A cluster nobody named: its first representative stands in. */
  ghost predicate Degraded(n: Naming, c: Cluster, cause: string) {
    && n.clusterLabel == c.clusterLabel && n.degraded && n.reason == "degraded: " + cause
    && n.parentTopic == "" && n.intent == "informational" && n.kind == "unknown"
    && n.topicName == if |c.representatives| > 0 then c.representatives[0] else "cluster " + IntText(c.clusterLabel)
  }

  /**
   * Every answer that does not throw: an entry with a name names its cluster; an entry without one, or an answer that is
   * missing, cut short, refused, filtered or of the wrong length, degrades it, and the reason says which.
   */
  lemma ReconcileMeans(clusters: seq<Cluster>, reply: Reply, i: nat)
    requires i < |clusters| && Reconcile(clusters, reply).Some?
    ensures var n := Reconcile(clusters, reply).value[i];
      match reply
      case Topics(topics) =>
        if |topics| != |clusters| then Degraded(n, clusters[i], "count mismatch")
        else topics[i].Some? && if exists s :: Says(topics[i].value.name, s) then Entitled(n, clusters[i], topics[i].value)
                                else Degraded(n, clusters[i], "invalid entry")
      case OddTopics => Degraded(n, clusters[i], "count mismatch")
      case NoTopics => Degraded(n, clusters[i], "malformed")
      case Refused => Degraded(n, clusters[i], "refusal")
      case TooLong => Degraded(n, clusters[i], "length")
      case Filtered => Degraded(n, clusters[i], "content_filter")
      case OtherError => n.degraded
  {
    if Aligned(clusters, reply) {
      assert reply.topics[i] in reply.topics;
      SaysIff(reply.topics[i].value.name);
      SaysIff(reply.topics[i].value.kind);
    }
  }

  lemma SaysIff(f: Field)
    ensures Meaningful(f) <==> exists s :: Says(f, s)
    ensures Meaningful(f) ==> Says(f, f.text)
  {
    if Meaningful(f) { assert Says(f, f.text); }
  }

  datatype Named = Named(failed: bool, namings: seq<Naming>, calls: nat)

  /** One batch, halved as long as the answer is too long. */
  function NameBatch(batch: seq<Cluster>, net: (nat, seq<Cluster>) -> Reply, k: nat): Named
    requires batch != []
    decreases |batch|
  {
    var reply := net(k, batch);
    if reply.OtherError? || Unreadable(batch, reply) then Named(true, [], 1)
    else if !reply.TooLong? || |batch| == 1 then Named(false, Reconcile(batch, reply).value, 1)
    else
      var left := NameBatch(FirstHalf(batch), net, k + 1);
      if left.failed then Named(true, [], 1 + left.calls)
      else
        var right := NameBatch(SecondHalf(batch), net, k + 1 + left.calls);
        if right.failed then Named(true, [], 1 + left.calls + right.calls)
        else Named(false, left.namings + right.namings, 1 + left.calls + right.calls)
  }

  /** `n` is what the answer to call number `call`, which carried `part`, prescribes for its cluster number `at`. */
  ghost predicate NamedBy(n: Naming, c: Cluster, net: (nat, seq<Cluster>) -> Reply, part: seq<Cluster>, call: nat, at: nat) {
    at < |part| && part[at] == c && !Unreadable(part, net(call, part)) && n == Reconcile(part, net(call, part)).value[at]
    && (net(call, part).TooLong? ==> |part| == 1) && !net(call, part).OtherError?
  }

  ghost predicate NamedByCall(n: Naming, c: Cluster, net: (nat, seq<Cluster>) -> Reply) {
    exists part: seq<Cluster>, call: nat, at: nat :: NamedBy(n, c, net, part, call, at)
  }

  /** One naming per cluster, in order, under the cluster's own label, each decided by one genuine answer. */
  ghost predicate EveryClusterNamed(namings: seq<Naming>, clusters: seq<Cluster>, nets: nat -> (nat, seq<Cluster>) -> Reply) {
    && |namings| == |clusters|
    && forall i :: 0 <= i < |namings| ==>
         namings[i].clusterLabel == clusters[i].clusterLabel && NamedBySomeBatch(namings[i], clusters[i], nets)
  }

  ghost predicate NamedBySomeBatch(n: Naming, c: Cluster, nets: nat -> (nat, seq<Cluster>) -> Reply) {
    exists b {:trigger nets(b)} :: NamedByCall(n, c, nets(b))
  }

  lemma NamedConcat(n1: seq<Naming>, n2: seq<Naming>, c1: seq<Cluster>, c2: seq<Cluster>, nets: nat -> (nat, seq<Cluster>) -> Reply)
    requires EveryClusterNamed(n1, c1, nets) && EveryClusterNamed(n2, c2, nets)
    ensures EveryClusterNamed(n1 + n2, c1 + c2, nets)
  {
  }

  lemma NamedWhole(n: seq<Naming>, c: seq<Cluster>, n1: seq<Naming>, n2: seq<Naming>, c1: seq<Cluster>, c2: seq<Cluster>,
                   nets: nat -> (nat, seq<Cluster>) -> Reply)
    requires EveryClusterNamed(n1, c1, nets) && EveryClusterNamed(n2, c2, nets)
    requires n == n1 + n2 && c == c1 + c2
    ensures EveryClusterNamed(n, c, nets)
  {
    NamedConcat(n1, n2, c1, c2, nets);
  }

  lemma LeafNamed(batch: seq<Cluster>, nets: nat -> (nat, seq<Cluster>) -> Reply, b: nat, k: nat)
    requires var reply := nets(b)(k, batch); !reply.OtherError? && !Unreadable(batch, reply) && (reply.TooLong? ==> |batch| == 1)
    ensures EveryClusterNamed(Reconcile(batch, nets(b)(k, batch)).value, batch, nets)
  {
    var r := Reconcile(batch, nets(b)(k, batch)).value;
    forall i | 0 <= i < |r|
      ensures r[i].clusterLabel == batch[i].clusterLabel && NamedBySomeBatch(r[i], batch[i], nets)
    {
      ReconcileAligns(batch, nets(b)(k, batch), i);
      assert NamedBy(r[i], batch[i], nets(b), batch, k, i);
      assert NamedByCall(r[i], batch[i], nets(b));
    }
  }

  /** The call count of one batch: at most 2n-1, however the answers fall. */
  lemma {:induction false} BatchCallsBounded(batch: seq<Cluster>, net: (nat, seq<Cluster>) -> Reply, k: nat)
    requires batch != []
    ensures 1 <= NameBatch(batch, net, k).calls <= 2 * |batch| - 1
    decreases |batch|
  {
    if net(k, batch).TooLong? && |batch| > 1 {
      BatchCallsBounded(FirstHalf(batch), net, k + 1);
      BatchCallsBounded(SecondHalf(batch), net, k + 1 + NameBatch(FirstHalf(batch), net, k + 1).calls);
    }
  }

  /** What a halved batch comes to, in terms of its halves. */
  lemma HalvesJoin(batch: seq<Cluster>, net: (nat, seq<Cluster>) -> Reply, k: nat, left: Named, right: Named, o: Named)
    requires net(k, batch).TooLong? && |batch| > 1 && o == NameBatch(batch, net, k)
    requires left == NameBatch(FirstHalf(batch), net, k + 1)
    requires right == NameBatch(SecondHalf(batch), net, k + 1 + left.calls)
    ensures o.failed <==> left.failed || right.failed
    ensures !o.failed ==> o.namings == left.namings + right.namings
  {
  }

  /** One batch: exactly one naming per cluster, in order. */
  lemma {:induction false} BatchNamesEveryCluster(batch: seq<Cluster>, nets: nat -> (nat, seq<Cluster>) -> Reply, b: nat, k: nat)
    requires batch != []
    requires !NameBatch(batch, nets(b), k).failed
    ensures EveryClusterNamed(NameBatch(batch, nets(b), k).namings, batch, nets)
    decreases |batch|
  {
    if nets(b)(k, batch).TooLong? && |batch| > 1 {
      var l, r := FirstHalf(batch), SecondHalf(batch);
      var left := NameBatch(l, nets(b), k + 1);
      var right := NameBatch(r, nets(b), k + 1 + left.calls);
      HalvesJoin(batch, nets(b), k, left, right, NameBatch(batch, nets(b), k));
      BatchNamesEveryCluster(l, nets, b, k + 1);
      BatchNamesEveryCluster(r, nets, b, k + 1 + left.calls);
      assert batch == l + r;
      NamedWhole(NameBatch(batch, nets(b), k).namings, batch, left.namings, right.namings, l, r, nets);
    } else {
      LeafNamed(batch, nets, b, k);
    }
  }

  /** The same calls as a plain bisection sees them: an answer that throws is an error, any other that ends a part answers it. */
  function Seen(net: (nat, seq<Cluster>) -> Reply): (nat, seq<Cluster>) -> Resilient.Reply<Naming> {
    (k: nat, part: seq<Cluster>) =>
      var reply := net(k, part);
      if reply.OtherError? || Unreadable(part, reply) then Resilient.OtherError
      else if reply.TooLong? && |part| != 1 then Resilient.TooLong
      else Resilient.Answer(Reconcile(part, reply).value)
  }

  lemma {:induction false} NamingBisects(batch: seq<Cluster>, net: (nat, seq<Cluster>) -> Reply, k: nat)
    requires batch != []
    ensures var o, n := Resilient.ResilientChunk(batch, Seen(net), k), NameBatch(batch, net, k);
      n.failed == o.failed && n.calls == o.calls && n.namings == o.collected
    decreases |batch|
  {
    if Seen(net)(k, batch).TooLong? {
      var l, r := FirstHalf(batch), SecondHalf(batch);
      NamingBisects(l, net, k + 1);
      NamingBisects(r, net, k + 1 + NameBatch(l, net, k + 1).calls);
    }
  }

  /**
   * A batch fails exactly when one of the calls it made, numbered in turn, hit an unexpected error or was answered with one
   * entry per cluster and a null among them.
   */
  lemma BatchFailsIff(batch: seq<Cluster>, net: (nat, seq<Cluster>) -> Reply, k: nat)
    requires batch != []
    ensures var sent := Resilient.SentBatches(batch, Seen(net), k);
      && |sent| == NameBatch(batch, net, k).calls && Resilient.Numbered(sent, k)
      && (NameBatch(batch, net, k).failed <==> exists i :: 0 <= i < |sent| && Throws(net(sent[i].0, sent[i].1), sent[i].1))
  {
    var sent := Resilient.SentBatches(batch, Seen(net), k);
    NamingBisects(batch, net, k);
    Resilient.SentNumbered(batch, Seen(net), k, sent, Resilient.ResilientChunk(batch, Seen(net), k));
    Resilient.RethrowsOtherErrors(batch, Seen(net), k);
    Resilient.HitsIff(sent, Seen(net));
    forall i | 0 <= i < |sent| ensures Seen(net)(sent[i].0, sent[i].1).OtherError? <==> Throws(net(sent[i].0, sent[i].1), sent[i].1) {
      NullThrows(net(sent[i].0, sent[i].1), sent[i].1);
    }
  }

  ghost predicate Throws(reply: Reply, part: seq<Cluster>) {
    reply.OtherError? || (reply.Topics? && |reply.topics| == |part| && exists j :: 0 <= j < |part| && reply.topics[j].None?)
  }

  lemma NullThrows(reply: Reply, part: seq<Cluster>)
    ensures Throws(reply, part) <==> reply.OtherError? || Unreadable(part, reply)
  {
  }

  function Join(a: Named, b: Named): Named {
    Named(a.failed || b.failed, a.namings + b.namings, a.calls + b.calls)
  }

  /** One batch after the other; `nets(b)` answers the calls of batch number `b`, whenever they run. */
  function NameAll(batches: seq<seq<Cluster>>, nets: nat -> (nat, seq<Cluster>) -> Reply, b: nat): Named
    requires NoneEmpty(batches)
    decreases |batches|
  {
    if batches == [] then Named(false, [], 0)
    else Join(NameBatch(batches[0], nets(b), 0), NameAll(batches[1..], nets, b + 1))
  }

  /** All batches together: one naming per cluster, in input order, unless some batch met an unexpected error. */
  lemma {:induction false} AllNamesEveryCluster(batches: seq<seq<Cluster>>, nets: nat -> (nat, seq<Cluster>) -> Reply, b: nat)
    requires NoneEmpty(batches)
    ensures var o := NameAll(batches, nets, b);
      o.calls <= 2 * |Flatten(batches)| - |batches| && (!o.failed ==> EveryClusterNamed(o.namings, Flatten(batches), nets))
    decreases |batches|
  {
    if batches != [] {
      BatchCallsBounded(batches[0], nets(b), 0);
      AllNamesEveryCluster(batches[1..], nets, b + 1);
      var one, rest := NameBatch(batches[0], nets(b), 0), NameAll(batches[1..], nets, b + 1);
      if !one.failed && !rest.failed {
        BatchNamesEveryCluster(batches[0], nets, b, 0);
        NamedConcat(one.namings, rest.namings, batches[0], Flatten(batches[1..]), nets);
      }
    }
  }

  lemma JoinAssociative(a: Named, b: Named, c: Named)
    ensures Join(Join(a, b), c) == Join(a, Join(b, c))
  {
    assert (a.namings + b.namings) + c.namings == a.namings + (b.namings + c.namings);
  }

  /** Names every batch in turn and joins the namings. */
  method NameBatches(batches: seq<seq<Cluster>>, nets: nat -> (nat, seq<Cluster>) -> Reply) returns (o: Named)
    requires NoneEmpty(batches)
    ensures o == NameAll(batches, nets, 0)
  {
    o := Named(false, [], 0);
    var b := 0;
    while b < |batches|
      invariant 0 <= b <= |batches|
      invariant Join(o, NameAll(batches[b..], nets, b)) == NameAll(batches, nets, 0)
    {
      assert batches[b..][1..] == batches[b + 1..];
      var one := NameBatch(batches[b], nets(b), 0);
      JoinAssociative(o, one, NameAll(batches[b + 1..], nets, b + 1));
      o := Join(o, one);
      b := b + 1;
    }
  }

  /** Slices the clusters, names every batch and joins the namings. */
  method NameClusters(clusters: seq<Cluster>, batchSize: nat, nets: nat -> (nat, seq<Cluster>) -> Reply) returns (o: Named)
    requires batchSize >= 1
    ensures o.calls <= 2 * |clusters| - CeilDiv(|clusters|, batchSize)
    ensures !o.failed ==> EveryClusterNamed(o.namings, clusters, nets)
    ensures NoneEmpty(Chunks(clusters, batchSize))
    ensures o.failed <==> exists b :: 0 <= b < |Chunks(clusters, batchSize)| && BatchFails(Chunks(clusters, batchSize), nets, 0, b)
  {
    var batches := SliceBatches(clusters, batchSize);
    o := NameBatches(batches, nets);
    AllNamesEveryCluster(batches, nets, 0);
    SomeBatchFails(batches, nets, 0);
  }

  lemma {:induction false} SomeBatchFails(batches: seq<seq<Cluster>>, nets: nat -> (nat, seq<Cluster>) -> Reply, b: nat)
    requires NoneEmpty(batches)
    ensures NameAll(batches, nets, b).failed <==> exists i :: 0 <= i < |batches| && BatchFails(batches, nets, b, i)
    decreases |batches|
  {
    if batches != [] {
      var rest, c := batches[1..], b + 1;
      SomeBatchFails(rest, nets, c);
      assert BatchFails(batches, nets, b, 0) <==> NameBatch(batches[0], nets(b), 0).failed;
      forall i: nat | i < |rest| ensures BatchFails(rest, nets, c, i) <==> BatchFails(batches, nets, b, i + 1) {
        assert rest[i] == batches[i + 1] && c + i == b + (i + 1);
      }
      if i :| 0 <= i < |rest| && BatchFails(rest, nets, c, i) { assert BatchFails(batches, nets, b, i + 1); }
      if i :| 0 <= i < |batches| && BatchFails(batches, nets, b, i) && i > 0 { assert BatchFails(rest, nets, c, i - 1); }
    }
  }

  /** Batch number `i` fails; its calls are answered by `nets(b + i)`. */
  ghost predicate BatchFails(batches: seq<seq<Cluster>>, nets: nat -> (nat, seq<Cluster>) -> Reply, b: nat, i: nat)
    requires NoneEmpty(batches) && i < |batches|
  {
    NameBatch(batches[i], nets(b + i), 0).failed
  }
}
