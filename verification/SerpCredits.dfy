/**
 * The three paid AI-answer channels of one job, governed by one credit ledger: a call is charged when it
 * is sent, whatever comes back, and a call that would exceed the budget is not sent.
 */
module SerpCredits {
  import opened Base

  /** The neutral row every source is mapped to. */
  datatype Capture = Capture(channel: string, query: string, body: string)

  datatype Channel = AiOverview | AiMode | BingCopilot

  datatype Engine = Google | GoogleAiOverview | GoogleAiMode | Bing

  datatype Sent = Sent(engine: Engine, query: string)

  function ChannelName(channel: Channel): string {
    match channel case AiOverview => "aiOverview" case AiMode => "aiMode" case BingCopilot => "bingCopilot"
  }

  /** What the mapper reads out of an answer, before it is filed under a channel. */
  datatype Content = Content(query: string, body: string)

  /** What the provider answers: an error or timeout, nothing usable, an answer, or a token for a second call. */
  datatype Reply = Failed | Nothing | Inline(content: Option<Content>) | Token

  datatype Row = Row(query: string, capture: Option<Capture>, creditsUsed: nat)

  /** The ledger and the calls sent so far; call number `n` will be answered by `net(n)`. */
  datatype Account = Account(spent: int, sent: seq<Sent>)

  datatype Fetched = Fetched(rows: seq<Row>, account: Account)

  datatype Flags = Flags(enabled: bool, aiMode: bool, bingCopilot: bool)

  function Charge(acc: Account, engine: Engine, query: string): Account {
    Account(acc.spent + 1, acc.sent + [Sent(engine, query)])
  }

  function CaptureOf(channel: Channel, r: Reply): Option<Capture> {
    if r.Inline? && r.content.Some? then Some(Capture(ChannelName(channel), r.content.value.query, r.content.value.body)) else None
  }

  function OverviewOne(query: string, acc: Account, budget: int, net: nat -> Reply): (Row, Account) {
    if acc.spent + 1 > budget then (Row(query, None, 0), acc)
    else
      var first := Charge(acc, Google, query);
      var reply := net(|acc.sent|);
      if !reply.Token? then (Row(query, CaptureOf(AiOverview, reply), 1), first)
      else if first.spent + 1 > budget then (Row(query, None, 1), first)
      else (Row(query, CaptureOf(AiOverview, net(|first.sent|)), 2), Charge(first, GoogleAiOverview, query))
  }

  function EngineOf(channel: Channel): Engine {
    match channel case AiOverview => Google case AiMode => GoogleAiMode case BingCopilot => Bing
  }

  function FetchOne(channel: Channel, query: string, acc: Account, budget: int, net: nat -> Reply): (Row, Account) {
    if channel.AiOverview? then OverviewOne(query, acc, budget, net)
    else if acc.spent + 1 > budget then (Row(query, None, 0), acc)
    else (Row(query, CaptureOf(channel, net(|acc.sent|)), 1), Charge(acc, EngineOf(channel), query))
  }

  function FetchAll(channel: Channel, keywords: seq<string>, acc: Account, budget: int, net: nat -> Reply): Fetched
    decreases |keywords|
  {
    if keywords == [] then Fetched([], acc)
    else
      var (row, next) := FetchOne(channel, keywords[0], acc, budget, net);
      var rest := FetchAll(channel, keywords[1..], next, budget, net);
      Fetched([row] + rest.rows, rest.account)
  }

  function TotalCredits(rows: seq<Row>): nat {
    if rows == [] then 0 else rows[0].creditsUsed + TotalCredits(rows[1..])
  }

  lemma {:induction false} TotalConcat(a: seq<Row>, b: seq<Row>)
    ensures TotalCredits(a + b) == TotalCredits(a) + TotalCredits(b)
  {
    if a == [] { assert a + b == b; } else { assert (a + b)[1..] == a[1..] + b; TotalConcat(a[1..], b); }
  }

  /** From the first query that was not sent on, no later one is. */
  ghost predicate StopsForGood(rows: seq<Row>) {
    forall i, j :: 0 <= i <= j < |rows| && rows[i].creditsUsed == 0 ==> rows[j].creditsUsed == 0
  }

  /** What a stretch of fetching does to the shared account. */
  ghost predicate Governed(rows: seq<Row>, before: Account, after: Account, budget: int) {
    && after.spent - before.spent == TotalCredits(rows) == |after.sent| - |before.sent|
    && before.sent <= after.sent
    && (before.spent <= budget ==> after.spent <= budget)
    && (before.spent >= budget ==> after == before)
    && StopsForGood(rows)
    && (forall i :: 0 <= i < |rows| && rows[i].creditsUsed == 0 ==> after.spent >= budget && rows[i].capture.None?)
  }

  lemma GovernedTransitive(r: seq<Row>, s: seq<Row>, a: Account, b: Account, c: Account, budget: int)
    requires Governed(r, a, b, budget) && Governed(s, b, c, budget)
    requires b.spent >= budget ==> NoneSent(s)
    ensures Governed(r + s, a, c, budget)
  {
    TotalConcat(r, s);
  }

  ghost predicate NoneSent(rows: seq<Row>) {
    forall i :: 0 <= i < |rows| ==> rows[i].creditsUsed == 0 && rows[i].capture.None?
  }

  lemma {:induction false} ExhaustedSkips(channel: Channel, keywords: seq<string>, acc: Account, budget: int, net: nat -> Reply)
    requires acc.spent >= budget
    ensures var f := FetchAll(channel, keywords, acc, budget, net);
      f.account == acc && NoneSent(f.rows)
    decreases |keywords|
  {
    if keywords != [] { ExhaustedSkips(channel, keywords[1..], acc, budget, net); }
  }

  /** One channel: a row per keyword in order, every credit a call, and never a call past the budget. */
  lemma {:induction false} FetchAllGoverned(channel: Channel, keywords: seq<string>, acc: Account, budget: int, net: nat -> Reply)
    ensures var f := FetchAll(channel, keywords, acc, budget, net);
      && |f.rows| == |keywords|
      && (forall i :: 0 <= i < |keywords| ==> f.rows[i].query == keywords[i])
      && Governed(f.rows, acc, f.account, budget)
    decreases |keywords|
  {
    if keywords != [] {
      var (row, next) := FetchOne(channel, keywords[0], acc, budget, net);
      var rest := FetchAll(channel, keywords[1..], next, budget, net);
      FetchAllGoverned(channel, keywords[1..], next, budget, net);
      assert TotalCredits([row]) == row.creditsUsed + TotalCredits([]);
      assert Governed([row], acc, next, budget);
      if next.spent >= budget { ExhaustedSkips(channel, keywords[1..], next, budget, net); }
      GovernedTransitive([row], rest.rows, acc, next, rest.account, budget);
    }
  }

  // ---------------------------------------------------------------- what a paid query brings back

  /** The answer's content filed under the channel's name, or nothing when the answer has none. */
  ghost predicate Files(name: string, capture: Option<Capture>, reply: Reply) {
    if reply.Inline? && reply.content.Some? then
      capture == Some(Capture(name, reply.content.value.query, reply.content.value.body))
    else capture.None?
  }

  /** A row charged nothing, one call or two, `spent` and `calls` being what was on the account before it. */
  ghost predicate PaidFor(channel: Channel, name: string, engine: Engine, query: string, row: Row, calls: nat, spent: int,
                          sent: seq<Sent>, budget: int, net: nat -> Reply) {
    && row.query == query && row.creditsUsed <= 2
    && (row.creditsUsed == 0 <==> spent >= budget)
    && (row.creditsUsed == 2 <==> channel.AiOverview? && spent + 2 <= budget && net(calls).Token?)
    && calls + row.creditsUsed <= |sent|
    && (row.creditsUsed == 0 ==> row.capture.None?)
    && (row.creditsUsed >= 1 ==> sent[calls] == Sent(engine, query))
    && (row.creditsUsed == 1 ==> Files(name, row.capture, net(calls)))
    && (row.creditsUsed == 2 ==> sent[calls + 1] == Sent(GoogleAiOverview, query) && Files(name, row.capture, net(calls + 1)))
  }

  /** Every row of a stretch, by the calls the rows before it were charged. */
  ghost predicate AllPaidFor(channel: Channel, name: string, engine: Engine, keywords: seq<string>, rows: seq<Row>,
                             calls: nat, spent: int, sent: seq<Sent>, budget: int, net: nat -> Reply) {
    && |rows| == |keywords|
    && forall i {:trigger PaidAfter(channel, name, engine, keywords, rows, i, calls, spent, sent, budget, net)} :: 0 <= i < |rows| ==>
         PaidAfter(channel, name, engine, keywords, rows, i, calls, spent, sent, budget, net)
  }

  ghost predicate PaidAfter(channel: Channel, name: string, engine: Engine, keywords: seq<string>, rows: seq<Row>, i: nat,
                            calls: nat, spent: int, sent: seq<Sent>, budget: int, net: nat -> Reply)
    requires i < |rows| == |keywords|
  {
    var charged := TotalCredits(rows[..i]);
    PaidFor(channel, name, engine, keywords[i], rows[i], calls + charged, spent + charged, sent, budget, net)
  }

  lemma FetchOneAnswers(channel: Channel, name: string, engine: Engine, query: string, acc: Account, budget: int,
                        net: nat -> Reply, sent: seq<Sent>)
    requires channel.AiOverview? ==> name == "aiOverview" && engine == Google
    requires channel.AiMode? ==> name == "aiMode" && engine == GoogleAiMode
    requires channel.BingCopilot? ==> name == "bingCopilot" && engine == Bing
    requires FetchOne(channel, query, acc, budget, net).1.sent <= sent
    ensures var (row, next) := FetchOne(channel, query, acc, budget, net);
      && PaidFor(channel, name, engine, query, row, |acc.sent|, acc.spent, sent, budget, net)
      && next.spent == acc.spent + row.creditsUsed && |next.sent| == |acc.sent| + row.creditsUsed
  {
    var (row, next) := FetchOne(channel, query, acc, budget, net);
    assert forall i :: 0 <= i < |next.sent| ==> sent[i] == next.sent[i];
  }

  /**
   * A query past the budget is not sent and brings nothing; a query that is sent goes to its channel's own engine and
   * brings the content of the answer, or of the overview page when the answer is a token and the budget allows a second call.
   */
  lemma {:induction false} FetchAllAnswers(channel: Channel, name: string, engine: Engine, keywords: seq<string>, acc: Account,
                                           budget: int, net: nat -> Reply, sent: seq<Sent>)
    requires channel.AiOverview? ==> name == "aiOverview" && engine == Google
    requires channel.AiMode? ==> name == "aiMode" && engine == GoogleAiMode
    requires channel.BingCopilot? ==> name == "bingCopilot" && engine == Bing
    requires FetchAll(channel, keywords, acc, budget, net).account.sent <= sent
    ensures AllPaidFor(channel, name, engine, keywords, FetchAll(channel, keywords, acc, budget, net).rows,
                       |acc.sent|, acc.spent, sent, budget, net)
    decreases |keywords|
  {
    if keywords != [] {
      var (row, next) := FetchOne(channel, keywords[0], acc, budget, net);
      var rest := FetchAll(channel, keywords[1..], next, budget, net);
      FetchAllGoverned(channel, keywords[1..], next, budget, net);
      FetchOneAnswers(channel, name, engine, keywords[0], acc, budget, net, sent);
      FetchAllAnswers(channel, name, engine, keywords[1..], next, budget, net, sent);
      PaidForCons(channel, name, engine, keywords, row, rest.rows, |acc.sent|, acc.spent, sent, budget, net);
    }
  }

  lemma PaidForCons(channel: Channel, name: string, engine: Engine, keywords: seq<string>, row: Row, rest: seq<Row>,
                    calls: nat, spent: int, sent: seq<Sent>, budget: int, net: nat -> Reply)
    requires keywords != [] && |rest| == |keywords| - 1 && PaidFor(channel, name, engine, keywords[0], row, calls, spent, sent, budget, net)
    requires AllPaidFor(channel, name, engine, keywords[1..], rest, calls + row.creditsUsed, spent + row.creditsUsed, sent, budget, net)
    ensures AllPaidFor(channel, name, engine, keywords, [row] + rest, calls, spent, sent, budget, net)
  {
    var rows := [row] + rest;
    forall i | 0 <= i < |rows| ensures PaidAfter(channel, name, engine, keywords, rows, i, calls, spent, sent, budget, net) {
      if i == 0 {
        assert rows[..0] == [];
      } else {
        assert PaidAfter(channel, name, engine, keywords[1..], rest, i - 1, calls + row.creditsUsed, spent + row.creditsUsed,
                         sent, budget, net);
        TotalCons(row, rest, i);
      }
    }
  }

  lemma TotalCons(row: Row, rest: seq<Row>, i: nat)
    requires 1 <= i <= |rest|
    ensures var rows := [row] + rest; TotalCredits(rows[..i]) == row.creditsUsed + TotalCredits(rest[..i - 1]) && rows[i] == rest[i - 1]
  {
    var rows := [row] + rest;
    assert rows[..i][1..] == rest[..i - 1];
  }

  // ---------------------------------------------------------------- the pull over all channels

  predicate Active(flags: Flags, channel: Channel) {
    flags.enabled && (channel.AiMode? ==> flags.aiMode) && (channel.BingCopilot? ==> flags.bingCopilot)
  }

  function SkippedRows(keywords: seq<string>): (r: seq<Row>)
    ensures |r| == |keywords|
    ensures forall i :: 0 <= i < |keywords| ==> r[i] == Row(keywords[i], None, 0)
  {
    seq(|keywords|, i requires 0 <= i < |keywords| => Row(keywords[i], None, 0))
  }

  /** One provider method: switched off, it answers without calling anyone. */
  function FetchChannel(channel: Channel, flags: Flags, keywords: seq<string>, acc: Account, budget: int, net: nat -> Reply): Fetched {
    if Active(flags, channel) then FetchAll(channel, keywords, acc, budget, net) else Fetched(SkippedRows(keywords), acc)
  }

  /** One provider method: with its switches on every row is as paid for, otherwise every row is empty and nobody is called. */
  lemma FetchChannelAnswers(channel: Channel, name: string, engine: Engine, on: bool, flags: Flags, keywords: seq<string>,
                            acc: Account, budget: int, net: nat -> Reply)
    requires channel.AiOverview? ==> name == "aiOverview" && engine == Google && on == flags.enabled
    requires channel.AiMode? ==> name == "aiMode" && engine == GoogleAiMode && on == (flags.enabled && flags.aiMode)
    requires channel.BingCopilot? ==> name == "bingCopilot" && engine == Bing && on == (flags.enabled && flags.bingCopilot)
    ensures var f := FetchChannel(channel, flags, keywords, acc, budget, net);
      if on then AllPaidFor(channel, name, engine, keywords, f.rows, |acc.sent|, acc.spent, f.account.sent, budget, net)
      else |f.rows| == |keywords| && (forall i :: 0 <= i < |keywords| ==> f.rows[i] == Row(keywords[i], None, 0)) && f.account == acc
  {
    if on { FetchAllAnswers(channel, name, engine, keywords, acc, budget, net, FetchAll(channel, keywords, acc, budget, net).account.sent); }
  }

  const CHANNEL_ORDER: seq<Channel> := [AiOverview, AiMode, BingCopilot]

  /** What a channel contributes to a job: nothing unless it is requested and switched on. */
  function ChannelRows(channel: Channel, wanted: set<Channel>, flags: Flags, keywords: seq<string>, acc: Account,
                       budget: int, net: nat -> Reply): Fetched {
    if channel in wanted && Active(flags, channel) then FetchAll(channel, keywords, acc, budget, net) else Fetched([], acc)
  }

  /** The rows of the channels in pull order, one account for all. */
  function PullRows(order: seq<Channel>, wanted: set<Channel>, flags: Flags, keywords: seq<string>, acc: Account,
                    budget: int, net: nat -> Reply): Fetched
    decreases |order|
  {
    if order == [] then Fetched([], acc)
    else
      var f := ChannelRows(order[0], wanted, flags, keywords, acc, budget, net);
      var rest := PullRows(order[1..], wanted, flags, keywords, f.account, budget, net);
      Fetched(f.rows + rest.rows, rest.account)
  }

  lemma {:induction false} ExhaustedPull(order: seq<Channel>, wanted: set<Channel>, flags: Flags, keywords: seq<string>,
                                         acc: Account, budget: int, net: nat -> Reply)
    requires acc.spent >= budget
    ensures NoneSent(PullRows(order, wanted, flags, keywords, acc, budget, net).rows)
    decreases |order|
  {
    if order != [] {
      ExhaustedSkips(order[0], keywords, acc, budget, net);
      ExhaustedPull(order[1..], wanted, flags, keywords, acc, budget, net);
      var f := ChannelRows(order[0], wanted, flags, keywords, acc, budget, net);
      assert f.account == acc && NoneSent(f.rows);
    }
  }

  lemma {:induction false} PullGoverned(order: seq<Channel>, wanted: set<Channel>, flags: Flags, keywords: seq<string>,
                                        acc: Account, budget: int, net: nat -> Reply)
    ensures var p := PullRows(order, wanted, flags, keywords, acc, budget, net); Governed(p.rows, acc, p.account, budget)
    decreases |order|
  {
    if order != [] {
      var f := ChannelRows(order[0], wanted, flags, keywords, acc, budget, net);
      var rest := PullRows(order[1..], wanted, flags, keywords, f.account, budget, net);
      FetchAllGoverned(order[0], keywords, acc, budget, net);
      assert Governed(f.rows, acc, f.account, budget);
      PullGoverned(order[1..], wanted, flags, keywords, f.account, budget, net);
      if f.account.spent >= budget { ExhaustedPull(order[1..], wanted, flags, keywords, f.account, budget, net); }
      GovernedTransitive(f.rows, rest.rows, acc, f.account, rest.account, budget);
    }
  }

  lemma PullInThreeParts(wanted: set<Channel>, flags: Flags, keywords: seq<string>, budget: int, net: nat -> Reply, sent: seq<Sent>)
    ensures var o := ChannelRows(AiOverview, wanted, flags, keywords, Account(0, sent), budget, net);
      var m := ChannelRows(AiMode, wanted, flags, keywords, o.account, budget, net);
      var b := ChannelRows(BingCopilot, wanted, flags, keywords, m.account, budget, net);
      Pull(wanted, flags, keywords, budget, net, sent) == Fetched(o.rows + m.rows + b.rows, b.account)
  {
    var o := ChannelRows(AiOverview, wanted, flags, keywords, Account(0, sent), budget, net);
    var m := ChannelRows(AiMode, wanted, flags, keywords, o.account, budget, net);
    var b := ChannelRows(BingCopilot, wanted, flags, keywords, m.account, budget, net);
    assert CHANNEL_ORDER[1..] == [AiMode, BingCopilot] && [AiMode, BingCopilot][1..] == [BingCopilot];
    assert PullRows([BingCopilot], wanted, flags, keywords, m.account, budget, net) == Fetched(b.rows + [], b.account);
    assert PullRows([AiMode, BingCopilot], wanted, flags, keywords, o.account, budget, net) == Fetched(m.rows + (b.rows + []), b.account);
    assert o.rows + (m.rows + (b.rows + [])) == o.rows + m.rows + b.rows;
  }

  function Captures(rows: seq<Row>): seq<Capture> {
    if rows == [] then []
    else (if rows[0].capture.Some? then [rows[0].capture.value] else []) + Captures(rows[1..])
  }

  lemma {:induction false} CapturesConcat(a: seq<Row>, b: seq<Row>)
    ensures Captures(a + b) == Captures(a) + Captures(b)
  {
    if a == [] { assert a + b == b; } else { assert (a + b)[1..] == a[1..] + b; CapturesConcat(a[1..], b); }
  }

  function Present(rows: seq<Row>): nat {
    if rows == [] then 0 else Present(rows[..|rows| - 1]) + if Last(rows).capture.Some? then 1 else 0
  }

  /** The captures the rows carry, in their order and nothing else. */
  ghost predicate InOrder(out: seq<Capture>, rows: seq<Row>) {
    && |out| == Present(rows)
    && forall i :: 0 <= i < |rows| && rows[i].capture.Some? ==>
         Present(rows[..i]) < |out| && out[Present(rows[..i])] == rows[i].capture.value
  }

  lemma InOrderSnoc(out: seq<Capture>, rows: seq<Row>, row: Row)
    requires InOrder(out, rows)
    ensures InOrder(out + if row.capture.Some? then [row.capture.value] else [], rows + [row])
  {
    var all := rows + [row];
    assert all[..|rows|] == rows;
    forall i | 0 <= i < |all| && all[i].capture.Some?
      ensures Present(all[..i]) < |out| + 1
      ensures Present(all[..i]) < |out| ==> i < |rows| && out[Present(all[..i])] == all[i].capture.value
      ensures Present(all[..i]) >= |out| ==> i == |rows|
    {
      if i < |rows| { assert all[..i] == rows[..i]; }
    }
  }

  lemma {:induction false} CapturesInOrder(rows: seq<Row>)
    ensures InOrder(Captures(rows), rows)
    decreases |rows|
  {
    if rows != [] {
      var front := rows[..|rows| - 1];
      CapturesInOrder(front);
      CapturesConcat(front, [Last(rows)]);
      assert rows == front + [Last(rows)];
      assert [Last(rows)][1..] == [];
      InOrderSnoc(Captures(front), front, Last(rows));
    }
  }

  lemma {:induction false} SkippedHaveNoCaptures(rows: seq<Row>)
    requires forall i :: 0 <= i < |rows| ==> rows[i].capture.None?
    ensures Captures(rows) == []
  {
    if rows != [] { SkippedHaveNoCaptures(rows[1..]); }
  }

  /** The whole pull of one job: a ledger of its own, on a provider that may have sent calls for earlier jobs. */
  function Pull(wanted: set<Channel>, flags: Flags, keywords: seq<string>, budget: int, net: nat -> Reply, sent: seq<Sent>): Fetched {
    PullRows(CHANNEL_ORDER, wanted, flags, keywords, Account(0, sent), budget, net)
  }

  /**
   * Across all channels of a job: the credits spent are the calls it sent and the credits reported, they stay
   * within the budget, and after one query is refused for budget no later query in any channel is sent.
   */
  lemma PullWithinBudget(wanted: set<Channel>, flags: Flags, keywords: seq<string>, budget: nat, net: nat -> Reply, sent: seq<Sent>)
    ensures var p := Pull(wanted, flags, keywords, budget, net, sent);
      && 0 <= p.account.spent <= budget
      && p.account.spent == TotalCredits(p.rows) == |p.account.sent| - |sent|
      && sent <= p.account.sent
      && StopsForGood(p.rows)
  {
    PullGoverned(CHANNEL_ORDER, wanted, flags, keywords, Account(0, sent), budget, net);
  }

  /** What one channel contributes: nothing unless asked for, else a row a keyword, each paid for in turn. */
  ghost predicate Delivers(asked: bool, channel: Channel, name: string, engine: Engine, keywords: seq<string>, rows: seq<Row>,
                           before: nat, spent: int, sent: seq<Sent>, budget: int, net: nat -> Reply) {
    if asked then AllPaidFor(channel, name, engine, keywords, rows, before, spent, sent, budget, net) else rows == []
  }

  ghost predicate Moved(before: Account, f: Fetched) {
    && before.sent <= f.account.sent
    && |f.account.sent| == |before.sent| + TotalCredits(f.rows) && f.account.spent == before.spent + TotalCredits(f.rows)
  }

  lemma ChannelDelivers(channel: Channel, name: string, engine: Engine, asked: bool, wanted: set<Channel>, flags: Flags,
                        keywords: seq<string>, acc: Account, budget: int, net: nat -> Reply, sent: seq<Sent>, f: Fetched)
    requires channel.AiOverview? ==> name == "aiOverview" && engine == Google && asked == (channel in wanted && flags.enabled)
    requires channel.AiMode? ==>
      name == "aiMode" && engine == GoogleAiMode && asked == (channel in wanted && flags.enabled && flags.aiMode)
    requires channel.BingCopilot? ==>
      name == "bingCopilot" && engine == Bing && asked == (channel in wanted && flags.enabled && flags.bingCopilot)
    requires f == ChannelRows(channel, wanted, flags, keywords, acc, budget, net) && f.account.sent <= sent
    ensures Delivers(asked, channel, name, engine, keywords, f.rows, |acc.sent|, acc.spent, sent, budget, net)
    ensures Moved(acc, f)
  {
    if asked { FetchAllAnswers(channel, name, engine, keywords, acc, budget, net, sent); }
    FetchAllGoverned(channel, keywords, acc, budget, net);
  }

  /** The rows of a pull: overviews, modes, copilots, each channel's calls following those of the channels before it. */
  ghost predicate PullDelivered(o: seq<Row>, m: seq<Row>, b: seq<Row>, overviews: bool, modes: bool, copilots: bool,
                                keywords: seq<string>, calls: nat, sent: seq<Sent>, budget: int, net: nat -> Reply) {
    var c, d := TotalCredits(o), TotalCredits(o) + TotalCredits(m);
    && Delivers(overviews, AiOverview, "aiOverview", Google, keywords, o, calls, 0, sent, budget, net)
    && Delivers(modes, AiMode, "aiMode", GoogleAiMode, keywords, m, calls + c, c, sent, budget, net)
    && Delivers(copilots, BingCopilot, "bingCopilot", Bing, keywords, b, calls + d, d, sent, budget, net)
  }

  /** Every channel asked for and switched on answers every keyword by what its paid calls brought; no other channel is called. */
  lemma PullDelivers(wanted: set<Channel>, flags: Flags, keywords: seq<string>, budget: int, net: nat -> Reply, sent: seq<Sent>)
      returns (o: seq<Row>, m: seq<Row>, b: seq<Row>)
    ensures var p := Pull(wanted, flags, keywords, budget, net, sent);
      && p.rows == o + m + b && sent <= p.account.sent
      && PullDelivered(o, m, b, AiOverview in wanted && flags.enabled, AiMode in wanted && flags.enabled && flags.aiMode,
                       BingCopilot in wanted && flags.enabled && flags.bingCopilot, keywords, |sent|, p.account.sent, budget, net)
      && |p.account.sent| == |sent| + p.account.spent && p.account.spent == TotalCredits(o) + TotalCredits(m) + TotalCredits(b)
  {
    var fo := ChannelRows(AiOverview, wanted, flags, keywords, Account(0, sent), budget, net);
    var fm := ChannelRows(AiMode, wanted, flags, keywords, fo.account, budget, net);
    var fb := ChannelRows(BingCopilot, wanted, flags, keywords, fm.account, budget, net);
    PullInThreeParts(wanted, flags, keywords, budget, net, sent);
    ThreeDeliver(wanted, flags, keywords, budget, net, sent, fo, fm, fb);
    o, m, b := fo.rows, fm.rows, fb.rows;
  }

  lemma ThreeDeliver(wanted: set<Channel>, flags: Flags, keywords: seq<string>, budget: int, net: nat -> Reply, sent: seq<Sent>,
                     o: Fetched, m: Fetched, b: Fetched)
    requires o == ChannelRows(AiOverview, wanted, flags, keywords, Account(0, sent), budget, net)
    requires m == ChannelRows(AiMode, wanted, flags, keywords, o.account, budget, net)
    requires b == ChannelRows(BingCopilot, wanted, flags, keywords, m.account, budget, net)
    ensures PullDelivered(o.rows, m.rows, b.rows, AiOverview in wanted && flags.enabled,
                          AiMode in wanted && flags.enabled && flags.aiMode,
                          BingCopilot in wanted && flags.enabled && flags.bingCopilot, keywords, |sent|, b.account.sent, budget, net)
    ensures sent <= b.account.sent && |b.account.sent| == |sent| + b.account.spent
    ensures b.account.spent == TotalCredits(o.rows) + TotalCredits(m.rows) + TotalCredits(b.rows)
  {
    var all := b.account.sent;
    CopilotsDeliver(wanted, flags, keywords, m.account, budget, net, all, b);
    ModesDeliver(wanted, flags, keywords, o.account, budget, net, all, m);
    PrefixOfPrefix(o.account.sent, m.account.sent, all);
    OverviewsDeliver(wanted, flags, keywords, Account(0, sent), budget, net, all, o);
    PrefixOfPrefix(sent, o.account.sent, all);
  }

  lemma PrefixOfPrefix(a: seq<Sent>, b: seq<Sent>, c: seq<Sent>)
    ensures a <= b <= c ==> a <= c
  {
  }

  lemma OverviewsDeliver(wanted: set<Channel>, flags: Flags, keywords: seq<string>, acc: Account, budget: int, net: nat -> Reply,
                         sent: seq<Sent>, f: Fetched)
    requires f == ChannelRows(AiOverview, wanted, flags, keywords, acc, budget, net) && f.account.sent <= sent
    ensures Delivers(AiOverview in wanted && flags.enabled, AiOverview, "aiOverview", Google, keywords, f.rows,
                     |acc.sent|, acc.spent, sent, budget, net)
    ensures Moved(acc, f)
  {
    ChannelDelivers(AiOverview, "aiOverview", Google, AiOverview in wanted && flags.enabled, wanted, flags, keywords, acc,
                    budget, net, sent, f);
  }

  lemma ModesDeliver(wanted: set<Channel>, flags: Flags, keywords: seq<string>, acc: Account, budget: int, net: nat -> Reply,
                     sent: seq<Sent>, f: Fetched)
    requires f == ChannelRows(AiMode, wanted, flags, keywords, acc, budget, net) && f.account.sent <= sent
    ensures Delivers(AiMode in wanted && flags.enabled && flags.aiMode, AiMode, "aiMode", GoogleAiMode, keywords, f.rows,
                     |acc.sent|, acc.spent, sent, budget, net)
    ensures Moved(acc, f)
  {
    ChannelDelivers(AiMode, "aiMode", GoogleAiMode, AiMode in wanted && flags.enabled && flags.aiMode, wanted, flags, keywords, acc,
                    budget, net, sent, f);
  }

  lemma CopilotsDeliver(wanted: set<Channel>, flags: Flags, keywords: seq<string>, acc: Account, budget: int, net: nat -> Reply,
                        sent: seq<Sent>, f: Fetched)
    requires f == ChannelRows(BingCopilot, wanted, flags, keywords, acc, budget, net) && f.account.sent <= sent
    ensures Delivers(BingCopilot in wanted && flags.enabled && flags.bingCopilot, BingCopilot, "bingCopilot", Bing, keywords, f.rows,
                     |acc.sent|, acc.spent, sent, budget, net)
    ensures Moved(acc, f)
  {
    ChannelDelivers(BingCopilot, "bingCopilot", Bing, BingCopilot in wanted && flags.enabled && flags.bingCopilot, wanted, flags,
                    keywords, acc, budget, net, sent, f);
  }

  // ---------------------------------------------------------------- the provider

  /** Rows already fetched, and what is still to come. */
  function Continue(rows: seq<Row>, rest: Fetched): Fetched {
    Fetched(rows + rest.rows, rest.account)
  }

  lemma FetchStep(channel: Channel, keywords: seq<string>, i: nat, rows: seq<Row>, acc: Account, budget: int, net: nat -> Reply)
    requires i < |keywords|
    ensures var (row, next) := FetchOne(channel, keywords[i], acc, budget, net);
      Continue(rows, FetchAll(channel, keywords[i..], acc, budget, net))
      == Continue(rows + [row], FetchAll(channel, keywords[i + 1..], next, budget, net))
  {
    assert keywords[i..][1..] == keywords[i + 1..];
    var (row, next) := FetchOne(channel, keywords[i], acc, budget, net);
    var rest := FetchAll(channel, keywords[i + 1..], next, budget, net);
    assert rows + ([row] + rest.rows) == (rows + [row]) + rest.rows;
  }

  method CollectCaptures(results: seq<Row>) returns (out: seq<Capture>)
    ensures out == Captures(results)
  {
    out := [];
    var i := 0;
    while i < |results|
      invariant 0 <= i <= |results|
      invariant out + Captures(results[i..]) == Captures(results)
    {
      assert results[i..][1..] == results[i + 1..];
      if results[i].capture.Some? {
        out := out + [results[i].capture.value];
      }
      i := i + 1;
    }
  }

  class Ledger {
    var spent: int

    constructor ()
      ensures spent == 0
    {
      spent := 0;
    }
  }

  class Provider {
    const budget: int
    const flags: Flags
    const net: nat -> Reply
    var sent: seq<Sent>

    constructor (budget: int, flags: Flags, net: nat -> Reply, sent: seq<Sent>)
      ensures this.budget == budget && this.flags == flags && this.net == net && this.sent == sent
    {
      this.budget, this.flags, this.net, this.sent := budget, flags, net, sent;
    }

    function View(ledger: Ledger): Account
      reads this`sent, ledger
    {
      Account(ledger.spent, sent)
    }

    method FetchAiOverviews(keywords: seq<string>, ledger: Ledger) returns (results: seq<Row>)
      modifies this`sent, ledger
      ensures Fetched(results, View(ledger)) == FetchChannel(AiOverview, flags, keywords, old(View(ledger)), budget, net)
    {
      if !flags.enabled {
        return SkippedRows(keywords);
      }
      results := [];
      var i := 0;
      while i < |keywords|
        invariant 0 <= i <= |keywords|
        invariant Continue(results, FetchAll(AiOverview, keywords[i..], View(ledger), budget, net))
               == FetchAll(AiOverview, keywords, old(View(ledger)), budget, net)
      {
        FetchStep(AiOverview, keywords, i, results, View(ledger), budget, net);
        var row := FetchOverview(keywords[i], ledger);
        results := results + [row];
        i := i + 1;
      }
      assert keywords[i..] == [] && results + [] == results;
    }

    /** One query: the search, then the overview page when the search only hands out a token for it. */
    method FetchOverview(query: string, ledger: Ledger) returns (row: Row)
      modifies this`sent, ledger
      ensures (row, View(ledger)) == OverviewOne(query, old(View(ledger)), budget, net)
    {
      var capture: Option<Capture> := None;
      var creditsUsed := 0;
      if ledger.spent + 1 <= budget {
        ledger.spent := ledger.spent + 1;
        creditsUsed := 1;
        var response := net(|sent|);
        sent := sent + [Sent(Google, query)];
        if response.Inline? {
          capture := CaptureOf(AiOverview, response);
        } else if response.Token? {
          if ledger.spent + 1 <= budget {
            ledger.spent := ledger.spent + 1;
            creditsUsed := 2;
            capture := CaptureOf(AiOverview, net(|sent|));
            sent := sent + [Sent(GoogleAiOverview, query)];
          }
        }
      }
      row := Row(query, capture, creditsUsed);
    }

    method FetchAiModes(keywords: seq<string>, ledger: Ledger) returns (results: seq<Row>)
      modifies this`sent, ledger
      ensures Fetched(results, View(ledger)) == FetchChannel(AiMode, flags, keywords, old(View(ledger)), budget, net)
    {
      if !flags.enabled || !flags.aiMode {
        return SkippedRows(keywords);
      }
      results := RunTopLevelEngine(keywords, AiMode, ledger);
    }

    method FetchBingCopilot(keywords: seq<string>, ledger: Ledger) returns (results: seq<Row>)
      modifies this`sent, ledger
      ensures Fetched(results, View(ledger)) == FetchChannel(BingCopilot, flags, keywords, old(View(ledger)), budget, net)
    {
      if !flags.enabled || !flags.bingCopilot {
        return SkippedRows(keywords);
      }
      results := RunTopLevelEngine(keywords, BingCopilot, ledger);
    }

    /** Single-call engines: one credit per query sent. */
    method RunTopLevelEngine(keywords: seq<string>, channel: Channel, ledger: Ledger) returns (rows: seq<Row>)
      requires !channel.AiOverview?
      modifies this`sent, ledger
      ensures Fetched(rows, View(ledger)) == FetchAll(channel, keywords, old(View(ledger)), budget, net)
    {
      rows := [];
      var i := 0;
      while i < |keywords|
        invariant 0 <= i <= |keywords|
        invariant Continue(rows, FetchAll(channel, keywords[i..], View(ledger), budget, net))
               == FetchAll(channel, keywords, old(View(ledger)), budget, net)
      {
        FetchStep(channel, keywords, i, rows, View(ledger), budget, net);
        if ledger.spent + 1 > budget {
          rows := rows + [Row(keywords[i], None, 0)];
        } else {
          ledger.spent := ledger.spent + 1;
          var capture := CaptureOf(channel, net(|sent|));
          sent := sent + [Sent(EngineOf(channel), keywords[i])];
          rows := rows + [Row(keywords[i], capture, 1)];
        }
        i := i + 1;
      }
      assert keywords[i..] == [] && rows + [] == rows;
    }

    /** One channel of the pull; an unrequested channel is never called, and skipped queries leave no capture. */
    method PullChannel(wanted: set<Channel>, channel: Channel, keywords: seq<string>, ledger: Ledger) returns (out: seq<Capture>)
      modifies this`sent, ledger
      ensures var f := ChannelRows(channel, wanted, flags, keywords, old(View(ledger)), budget, net);
        out == Captures(f.rows) && View(ledger) == f.account
    {
      if channel !in wanted {
        return [];
      }
      var results: seq<Row>;
      match channel {
        case AiOverview => results := FetchAiOverviews(keywords, ledger);
        case AiMode => results := FetchAiModes(keywords, ledger);
        case BingCopilot => results := FetchBingCopilot(keywords, ledger);
      }
      if !Active(flags, channel) {
        SkippedHaveNoCaptures(results);
      }
      out := CollectCaptures(results);
    }

    /** The job's pull: one ledger for all three channels. */
    method PullSerpapi(wanted: set<Channel>, keywords: seq<string>) returns (out: seq<Capture>, spent: int)
      modifies this`sent
      ensures var p := Pull(wanted, flags, keywords, budget, net, old(sent));
        out == Captures(p.rows) && InOrder(out, p.rows) && Account(spent, sent) == p.account
    {
      var ledger := new Ledger();
      var overviews := PullChannel(wanted, AiOverview, keywords, ledger);
      var modes := PullChannel(wanted, AiMode, keywords, ledger);
      var copilots := PullChannel(wanted, BingCopilot, keywords, ledger);
      out := overviews + modes + copilots;
      spent := ledger.spent;
      PullInThreeParts(wanted, flags, keywords, budget, net, old(sent));
      ghost var o := ChannelRows(AiOverview, wanted, flags, keywords, Account(0, old(sent)), budget, net);
      ghost var m := ChannelRows(AiMode, wanted, flags, keywords, o.account, budget, net);
      ghost var b := ChannelRows(BingCopilot, wanted, flags, keywords, m.account, budget, net);
      CapturesConcat(o.rows, m.rows);
      CapturesConcat(o.rows + m.rows, b.rows);
      CapturesInOrder(o.rows + m.rows + b.rows);
    }
  }
}
