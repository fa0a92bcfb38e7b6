/**
 * One AI-search job across crashes and re-deliveries: a delivery is a run of stages, any of which may throw or be cut
 * off by the death of the worker. The paid pull is never repeated once its rows are durable, and what a delivery
 * reports as the run's status stays.
 */
module AiSearchJob {
  import opened Base
  import opened SerpCredits

  datatype Status = Running | Completed | Partial | Failed

  /** The operations of one delivery. */
  datatype Stage =
    | MarkRunning | ReportPulling | ReadPersisted | DeleteRows | ReportCollecting | CollectExtension | PullPaid
    | PersistingTick | Persist | ReportAnalyzing | Analyze | MarkTerminal | DoneTick

  /** How an operation ends: normally, by an exception, or with the worker dead; `after` its effect or before. */
  datatype Fault = Fine | Throws(after: bool) | Dies(after: bool)

  /** The job as queued: its requested channels and keywords, the provider's switches and budget, the attempts it has. */
  datatype Job = Job(keywords: seq<string>, flags: Flags, budget: nat, channels: seq<string>, attempts: nat)

  /** The requested channels that are paid for. */
  function Wanted(channels: seq<string>): set<Channel> {
    set c: Channel | ChannelName(c) in channels
  }

  /** What the outside world does during one delivery of the job. */
  datatype Delivery = Delivery(
    started: nat,              // which delivery of this job it is, crashed ones counted
    batch: nat,                // what its persist stamps on the rows it stores
    lastAttempt: bool,         // an exception now would not be retried
    extension: seq<Capture>,   // what the extension has pushed so far
    sent: seq<Sent>,           // calls the provider has sent for other jobs and earlier deliveries
    net: nat -> Reply,         // the provider's answers
    chargedIfKilled: nat,      // calls already sent when the worker dies inside the paid pull
    needsReview: nat,          // degraded inputs the analysis reports
    faults: Stage -> Fault,
    failureWritten: bool)      // whether the best-effort failure write goes through

  /** A durable row, tagged with the delivery that persisted it. */
  datatype Stored = Stored(batch: nat, capture: Capture)

  datatype World = World(rows: seq<Stored>, credits: nat, statuses: seq<Status>)

  datatype End = Open | Threw | Died

  /** A delivery under way: the stores, the captures it has merged, and whether it has ended. */
  datatype Local = Local(w: World, merged: seq<Capture>, end: End)

  /** The stages whose errors are swallowed: both progress ticks that stand where an error would do harm. */
  const BEST_EFFORT: set<Stage> := {PersistingTick, DoneTick}

  /** The provider turns errors into missing captures, so the paid pull never throws. */
  predicate Possible(d: Delivery) {
    d.started >= 1 && !d.faults(PullPaid).Throws?
  }

  function PullOf(job: Job, d: Delivery): Fetched {
    Pull(Wanted(job.channels), job.flags, job.keywords, job.budget, d.net, d.sent)
  }

  function SpentBy(job: Job, d: Delivery): (c: nat)
    ensures c <= job.budget
  {
    PullWithinBudget(Wanted(job.channels), job.flags, job.keywords, job.budget, d.net, d.sent);
    PullOf(job, d).account.spent
  }

  function Tag(batch: nat, captures: seq<Capture>): (r: seq<Stored>)
    ensures |r| == |captures|
    ensures forall i :: 0 <= i < |r| ==> r[i] == Stored(batch, captures[i])
  {
    seq(|captures|, i requires 0 <= i < |captures| => Stored(batch, captures[i]))
  }

  function Untag(rows: seq<Stored>): (r: seq<Capture>)
    ensures |r| == |rows|
  {
    seq(|rows|, i requires 0 <= i < |rows| => rows[i].capture)
  }

  /** Everything a delivery that fetches has to store. */
  function Gathered(job: Job, d: Delivery): seq<Capture> {
    d.extension + Captures(PullOf(job, d).rows)
  }

  predicate Covered(channels: seq<string>, merged: seq<Capture>) {
    forall c :: c in channels ==> exists i :: 0 <= i < |merged| && merged[i].channel == c
  }

  function FinalStatus(job: Job, merged: seq<Capture>, d: Delivery): Status {
    if !Covered(job.channels, merged) || d.needsReview > 0 then Partial else Completed
  }

  // ---------------------------------------------------------------- a delivery

  function Effect(job: Job, l: Local, s: Stage, d: Delivery): Local {
    match s
    case MarkRunning => l.(w := l.w.(statuses := l.w.statuses + [Running]))
    case ReadPersisted => l.(merged := Untag(l.w.rows))
    case DeleteRows => l.(w := l.w.(rows := []))
    case CollectExtension => l.(merged := l.merged + d.extension)
    case PullPaid => l.(w := l.w.(credits := l.w.credits + SpentBy(job, d)), merged := l.merged + Captures(PullOf(job, d).rows))
    case Persist => l.(w := l.w.(rows := l.w.rows + Tag(d.batch, l.merged)))
    case MarkTerminal => l.(w := l.w.(statuses := l.w.statuses + [FinalStatus(job, l.merged, d)]))
    case _ => l
  }

  /** An operation that is cut off: a pull in progress has been charged for the calls it sent. */
  function CutOff(job: Job, l: Local, s: Stage, d: Delivery): Local {
    var spent := SpentBy(job, d);
    if s.PullPaid? then l.(w := l.w.(credits := l.w.credits + if d.chargedIfKilled <= spent then d.chargedIfKilled else spent))
    else l
  }

  /** One stage; a delivery that has ended does nothing more. Errors of the `swallowed` stages do not end it. */
  function Attempt(job: Job, l: Local, s: Stage, d: Delivery, swallowed: set<Stage>): Local {
    if !l.end.Open? then l
    else match d.faults(s)
      case Fine => Effect(job, l, s, d)
      case Throws(after) =>
        var l' := if after then Effect(job, l, s, d) else l;
        if s in swallowed then l' else l'.(end := Threw)
      case Dies(after) => (if after then Effect(job, l, s, d) else CutOff(job, l, s, d)).(end := Died)
  }

  function Stages(job: Job, l: Local, stages: seq<Stage>, d: Delivery, swallowed: set<Stage>): Local
    decreases |stages|
  {
    if stages == [] then l
    else Attempt(job, Stages(job, l, stages[..|stages| - 1], d, swallowed), Last(stages), d, swallowed)
  }

  /** Rows of an earlier delivery are reused: no clean slate, no collecting, no paid pull, no persist. */
  predicate Reuses(rows: seq<Stored>, d: Delivery) {
    d.started > 1 && rows != []
  }

  function Gathering(rows: seq<Stored>, d: Delivery): seq<Stage> {
    (if d.started > 1 then [ReadPersisted] else [])
    + (if Reuses(rows, d) then []
       else [DeleteRows, ReportCollecting, CollectExtension] + [PullPaid] + [PersistingTick, Persist])
  }

  function BeforeTerminal(rows: seq<Stored>, d: Delivery): seq<Stage> {
    [MarkRunning, ReportPulling] + Gathering(rows, d) + [ReportAnalyzing, Analyze]
  }

  function Catch(l: Local, d: Delivery): World {
    if l.end.Threw? && d.lastAttempt && d.failureWritten then l.w.(statuses := l.w.statuses + [Status.Failed]) else l.w
  }

  function DeliverWith(job: Job, w: World, d: Delivery, swallowed: set<Stage>): World {
    Catch(Stages(job, Local(w, [], Open), BeforeTerminal(w.rows, d) + [MarkTerminal, DoneTick], d, swallowed), d)
  }

  function Deliver(job: Job, w: World, d: Delivery): World {
    DeliverWith(job, w, d, BEST_EFFORT)
  }

  function Run(job: Job, w: World, ds: seq<Delivery>): World
    decreases |ds|
  {
    if ds == [] then w else Run(job, Deliver(job, w, ds[0]), ds[1..])
  }

  /** The deliveries of one job, none overlapping another: the `k`-th is started as number `first + k`. */
  ghost predicate Sequential(ds: seq<Delivery>, first: nat) {
    forall k :: 0 <= k < |ds| ==> Possible(ds[k]) && ds[k].started == first + k
  }

  lemma {:induction false} StagesConcat(job: Job, l: Local, a: seq<Stage>, b: seq<Stage>, d: Delivery, swallowed: set<Stage>)
    ensures Stages(job, l, a + b, d, swallowed) == Stages(job, Stages(job, l, a, d, swallowed), b, d, swallowed)
    decreases |b|
  {
    if b == [] {
      assert a + b == a;
    } else {
      assert (a + b)[..|a| + |b| - 1] == a + b[..|b| - 1];
      StagesConcat(job, l, a, b[..|b| - 1], d, swallowed);
    }
  }

  lemma OneStage(job: Job, l: Local, s: Stage, d: Delivery, swallowed: set<Stage>)
    ensures Stages(job, l, [s], d, swallowed) == Attempt(job, l, s, d, swallowed)
  {
    assert [s][..0] == [] && Stages(job, l, [], d, swallowed) == l;
  }

  // ---------------------------------------------------------------- rows and credits

  /** Stages that neither touch the stored rows nor pay. */
  lemma {:induction false} QuietStages(job: Job, l: Local, stages: seq<Stage>, d: Delivery, swallowed: set<Stage>)
    requires PullPaid !in stages
    ensures var l' := Stages(job, l, stages, d, swallowed);
      && l'.w.credits == l.w.credits
      && (DeleteRows !in stages && Persist !in stages ==> l'.w.rows == l.w.rows)
    decreases |stages|
  {
    if stages != [] {
      assert stages == stages[..|stages| - 1] + [Last(stages)];
      QuietStages(job, l, stages[..|stages| - 1], d, swallowed);
    }
  }

  /** A run of stages with one paid pull in it. */
  lemma PaidOnce(job: Job, l: Local, before: seq<Stage>, after: seq<Stage>, d: Delivery, swallowed: set<Stage>)
    requires PullPaid !in before && PullPaid !in after
    ensures l.w.credits <= Stages(job, l, before + [PullPaid] + after, d, swallowed).w.credits <= l.w.credits + job.budget
  {
    StagesConcat(job, l, before + [PullPaid], after, d, swallowed);
    StagesConcat(job, l, before, [PullPaid], d, swallowed);
    QuietStages(job, l, before, d, swallowed);
    OneStage(job, Stages(job, l, before, d, swallowed), PullPaid, d, swallowed);
    QuietStages(job, Stages(job, l, before + [PullPaid], d, swallowed), after, d, swallowed);
  }

  lemma ReuseIsFree(job: Job, w: World, d: Delivery)
    requires Reuses(w.rows, d)
    ensures Deliver(job, w, d).credits == w.credits && Deliver(job, w, d).rows == w.rows
  {
    var all := BeforeTerminal(w.rows, d) + [MarkTerminal, DoneTick];
    assert all == [MarkRunning, ReportPulling, ReadPersisted, ReportAnalyzing, Analyze, MarkTerminal, DoneTick];
    QuietStages(job, Local(w, [], Open), all, d, BEST_EFFORT);
  }

  /** One delivery never charges more than the job's budget, wherever it stops; with reused rows it charges nothing. */
  lemma ChargedWithinBudget(job: Job, w: World, d: Delivery)
    ensures w.credits <= Deliver(job, w, d).credits <= w.credits + job.budget
    ensures Reuses(w.rows, d) ==> Deliver(job, w, d).credits == w.credits && Deliver(job, w, d).rows == w.rows
  {
    if Reuses(w.rows, d) {
      ReuseIsFree(job, w, d);
    } else {
      var read: seq<Stage> := if d.started > 1 then [ReadPersisted] else [];
      var before := [MarkRunning, ReportPulling] + read + [DeleteRows, ReportCollecting, CollectExtension];
      var after := [PersistingTick, Persist] + [ReportAnalyzing, Analyze] + [MarkTerminal, DoneTick];
      assert BeforeTerminal(w.rows, d) + [MarkTerminal, DoneTick] == before + [PullPaid] + after;
      PaidOnce(job, Local(w, [], Open), before, after, d, BEST_EFFORT);
    }
  }

  lemma {:induction false} DurableRowsEndCharges(job: Job, w: World, ds: seq<Delivery>, first: nat)
    requires first > 1 && Sequential(ds, first) && w.rows != []
    ensures Run(job, w, ds).rows == w.rows && Run(job, w, ds).credits == w.credits
    decreases |ds|
  {
    if ds != [] {
      ChargedWithinBudget(job, w, ds[0]);
      assert Sequential(ds[1..], first + 1);
      DurableRowsEndCharges(job, Deliver(job, w, ds[0]), ds[1..], first + 1);
    }
  }

  lemma {:induction false} RunSplit(job: Job, w: World, ds: seq<Delivery>, es: seq<Delivery>)
    ensures Run(job, w, ds + es) == Run(job, Run(job, w, ds), es)
    decreases |ds|
  {
    if ds == [] {
      assert ds + es == es;
    } else {
      assert (ds + es)[1..] == ds[1..] + es;
      RunSplit(job, Deliver(job, w, ds[0]), ds[1..], es);
    }
  }

  /**
   * Once some delivery of the job has ended with durable rows, no later delivery, however it fails, sends a
   * paid call or replaces a row.
   */
  lemma NeverPaidAgain(job: Job, w: World, ds: seq<Delivery>, es: seq<Delivery>)
    requires Sequential(ds + es, 1) && ds != [] && Run(job, w, ds).rows != []
    ensures Run(job, w, ds + es).credits == Run(job, w, ds).credits
    ensures Run(job, w, ds + es).rows == Run(job, w, ds).rows
  {
    RunSplit(job, w, ds, es);
    forall k | 0 <= k < |es| ensures Possible(es[k]) && es[k].started == 1 + |ds| + k {
      assert es[k] == (ds + es)[|ds| + k];
    }
    DurableRowsEndCharges(job, Run(job, w, ds), es, 1 + |ds|);
  }

  /** Stages that leave the rows and the merged captures alone. */
  lemma {:induction false} IdleStages(job: Job, l: Local, stages: seq<Stage>, d: Delivery, swallowed: set<Stage>)
    requires forall s :: s in stages ==> !(s.DeleteRows? || s.Persist? || s.ReadPersisted? || s.CollectExtension? || s.PullPaid?)
    ensures var l' := Stages(job, l, stages, d, swallowed); l'.w.rows == l.w.rows && l'.merged == l.merged
    ensures Stages(job, l, stages, d, swallowed).end.Open? ==> l.end.Open?
    decreases |stages|
  {
    if stages != [] {
      assert stages == stages[..|stages| - 1] + [Last(stages)];
      IdleStages(job, l, stages[..|stages| - 1], d, swallowed);
    }
  }

  /** Where a delivery that fetches stands before its clean slate: nothing is merged and the old rows are still there. */
  lemma BeforeCleanSlate(job: Job, w: World, d: Delivery, swallowed: set<Stage>)
    requires !Reuses(w.rows, d)
    ensures var l := Stages(job, Local(w, [], Open), [MarkRunning, ReportPulling] + (if d.started > 1 then [ReadPersisted] else []), d, swallowed);
      l.w.rows == w.rows && l.merged == []
  {
    var l := Local(w, [], Open);
    IdleStages(job, l, [MarkRunning, ReportPulling], d, swallowed);
    if d.started > 1 {
      StagesConcat(job, l, [MarkRunning, ReportPulling], [ReadPersisted], d, swallowed);
      OneStage(job, Stages(job, l, [MarkRunning, ReportPulling], d, swallowed), ReadPersisted, d, swallowed);
    } else {
      assert [MarkRunning, ReportPulling] + [] == [MarkRunning, ReportPulling];
    }
  }

  /** After a clean slate whose errors end the delivery, a delivery still open has no rows. */
  lemma CleanSlate(job: Job, l: Local, d: Delivery, swallowed: set<Stage>)
    requires DeleteRows !in swallowed
    ensures var l' := Stages(job, l, [DeleteRows], d, swallowed);
      l'.merged == l.merged && (l'.w.rows == l.w.rows || l'.w.rows == []) && (l'.end.Open? ==> l'.w.rows == [])
  {
    OneStage(job, l, DeleteRows, d, swallowed);
  }

  /** Between clean slate and persist the rows stay, and a delivery still open has merged all there is. */
  lemma Collects(job: Job, l: Local, d: Delivery, swallowed: set<Stage>)
    requires l.merged == [] && CollectExtension !in swallowed && PullPaid !in swallowed
    ensures var l' := Stages(job, l, [ReportCollecting, CollectExtension, PullPaid, PersistingTick], d, swallowed);
      l'.w.rows == l.w.rows && (l'.end.Open? ==> l.end.Open? && l'.merged == Gathered(job, d))
  {
    var all := [ReportCollecting, CollectExtension, PullPaid, PersistingTick];
    var l1 := Stages(job, l, [ReportCollecting], d, swallowed);
    var l2 := Attempt(job, l1, CollectExtension, d, swallowed);
    var l3 := Attempt(job, l2, PullPaid, d, swallowed);
    assert all == ([ReportCollecting] + [CollectExtension]) + ([PullPaid] + [PersistingTick]);
    StagesConcat(job, l, [ReportCollecting] + [CollectExtension], [PullPaid] + [PersistingTick], d, swallowed);
    StagesConcat(job, l, [ReportCollecting], [CollectExtension], d, swallowed);
    OneStage(job, l1, CollectExtension, d, swallowed);
    StagesConcat(job, l2, [PullPaid], [PersistingTick], d, swallowed);
    OneStage(job, l2, PullPaid, d, swallowed);
    IdleStages(job, l, [ReportCollecting], d, swallowed);
    IdleStages(job, l3, [PersistingTick], d, swallowed);
    assert [] + d.extension == d.extension;
  }

  /** The fetching part of a delivery: the rows end as they were, or gone, or as exactly what this delivery gathered. */
  lemma FetchRows(job: Job, l: Local, d: Delivery, swallowed: set<Stage>)
    requires l.merged == [] && DeleteRows !in swallowed && CollectExtension !in swallowed && PullPaid !in swallowed
    ensures var rows := Stages(job, l, [DeleteRows] + [ReportCollecting, CollectExtension, PullPaid, PersistingTick] + [Persist], d, swallowed).w.rows;
      rows == l.w.rows || rows == [] || rows == Tag(d.batch, Gathered(job, d))
  {
    var collecting := [ReportCollecting, CollectExtension, PullPaid, PersistingTick];
    var l1 := Stages(job, l, [DeleteRows], d, swallowed);
    var l2 := Stages(job, l1, collecting, d, swallowed);
    StagesConcat(job, l, [DeleteRows] + collecting, [Persist], d, swallowed);
    StagesConcat(job, l, [DeleteRows], collecting, d, swallowed);
    CleanSlate(job, l, d, swallowed);
    Collects(job, l1, d, swallowed);
    OneStage(job, l2, Persist, d, swallowed);
    assert [] + Tag(d.batch, Gathered(job, d)) == Tag(d.batch, Gathered(job, d));
  }

  lemma DeliveredRows(job: Job, w: World, d: Delivery)
    ensures var rows := Deliver(job, w, d).rows;
      rows == w.rows || rows == [] || rows == Tag(d.batch, Gathered(job, d))
  {
    if Reuses(w.rows, d) {
      ReuseIsFree(job, w, d);
    } else {
      var start := Local(w, [], Open);
      var before := [MarkRunning, ReportPulling] + (if d.started > 1 then [ReadPersisted] else []);
      var fetch := [DeleteRows] + [ReportCollecting, CollectExtension, PullPaid, PersistingTick] + [Persist];
      var after := [ReportAnalyzing, Analyze] + [MarkTerminal, DoneTick];
      assert BeforeTerminal(w.rows, d) + [MarkTerminal, DoneTick] == before + fetch + after;
      StagesConcat(job, start, before + fetch, after, d, BEST_EFFORT);
      StagesConcat(job, start, before, fetch, d, BEST_EFFORT);
      BeforeCleanSlate(job, w, d, BEST_EFFORT);
      FetchRows(job, Stages(job, start, before, d, BEST_EFFORT), d, BEST_EFFORT);
      IdleStages(job, Stages(job, start, before + fetch, d, BEST_EFFORT), after, d, BEST_EFFORT);
    }
  }

  /**
   * Inserting appends, and still the rows of a job are always those of one single persist, all of what its delivery
   * gathered: however deliveries fail, rows of two of them never mix and none is stored twice.
   */
  lemma {:induction false} RowsFromOnePersist(job: Job, w: World, ds: seq<Delivery>)
    ensures var rows := Run(job, w, ds).rows;
      rows == w.rows || rows == []
      || exists k :: 0 <= k < |ds| && rows == Tag(ds[k].batch, ds[k].extension + Captures(PullOf(job, ds[k]).rows))
    decreases |ds|
  {
    if ds != [] {
      var w' := Deliver(job, w, ds[0]);
      DeliveredRows(job, w, ds[0]);
      RowsFromOnePersist(job, w', ds[1..]);
      var rows := Run(job, w, ds).rows;
      if k :| 0 <= k < |ds| - 1 && rows == Tag(ds[1..][k].batch, ds[1..][k].extension + Captures(PullOf(job, ds[1..][k]).rows)) {
        assert ds[k + 1] == ds[1..][k];
      }
    }
  }

  /** A first delivery in which nothing fails but the clean slate. */
  predicate OnlySlateFails(d: Delivery, fault: Fault) {
    d.started == 1 && d.faults(DeleteRows) == fault && forall s :: s != DeleteRows ==> d.faults(s).Fine?
  }

  /** Such a delivery, cut where the clean slate has been tried. */
  lemma SlateSplit(job: Job, w: World, d: Delivery, swallowed: set<Stage>)
    requires OnlySlateFails(d, Throws(false))
    ensures var l := Local(Stages(job, Local(w, [], Open), [MarkRunning, ReportPulling], d, swallowed).w, [],
                           if DeleteRows in swallowed then Open else Threw);
      && l.w.rows == w.rows
      && Stages(job, Local(w, [], Open), BeforeTerminal(w.rows, d) + [MarkTerminal, DoneTick], d, swallowed)
         == Stages(job, l, AfterSlate(), d, swallowed)
  {
    var start := Local(w, [], Open);
    var before := [MarkRunning, ReportPulling] + [DeleteRows];
    assert BeforeTerminal(w.rows, d) + [MarkTerminal, DoneTick] == before + AfterSlate();
    StagesConcat(job, start, before, AfterSlate(), d, swallowed);
    StagesConcat(job, start, [MarkRunning, ReportPulling], [DeleteRows], d, swallowed);
    IdleStages(job, start, [MarkRunning, ReportPulling], d, swallowed);
    StagesPass(job, start, [MarkRunning, ReportPulling], d, swallowed);
    OneStage(job, Stages(job, start, [MarkRunning, ReportPulling], d, swallowed), DeleteRows, d, swallowed);
  }

  function AfterSlate(): seq<Stage> {
    [ReportCollecting, CollectExtension, PullPaid, PersistingTick]
    + ([Persist] + ([ReportAnalyzing, Analyze] + [MarkTerminal, DoneTick]))
  }

  lemma AfterSlateRows(job: Job, l: Local, d: Delivery, swallowed: set<Stage>)
    requires OnlySlateFails(d, Throws(false)) && l.merged == [] && l.end.Open?
    ensures Stages(job, l, AfterSlate(), d, swallowed).w.rows == l.w.rows + Tag(d.batch, Gathered(job, d))
  {
    var collecting := [ReportCollecting, CollectExtension, PullPaid, PersistingTick];
    var after := [ReportAnalyzing, Analyze] + [MarkTerminal, DoneTick];
    FineCollects(job, l, d, swallowed);
    StagesConcat(job, l, collecting, [Persist] + after, d, swallowed);
    var l2 := Stages(job, l, collecting, d, swallowed);
    StagesConcat(job, l2, [Persist], after, d, swallowed);
    OneStage(job, l2, Persist, d, swallowed);
    IdleStages(job, Stages(job, l2, [Persist], d, swallowed), after, d, swallowed);
  }

  /** The clean slate is what keeps them apart: were its errors swallowed, one such error would mix two persists. */
  lemma SwallowedCleanSlateMixes(job: Job, w: World, d: Delivery)
    requires OnlySlateFails(d, Throws(false))
    ensures DeliverWith(job, w, d, BEST_EFFORT).rows == w.rows
    ensures DeliverWith(job, w, d, BEST_EFFORT + {DeleteRows}).rows == w.rows + Tag(d.batch, Gathered(job, d))
  {
    var start := Local(w, [], Open);
    var mixing := BEST_EFFORT + {DeleteRows};
    SlateSplit(job, w, d, BEST_EFFORT);
    SlateSplit(job, w, d, mixing);
    EndedStays(job, Local(Stages(job, start, [MarkRunning, ReportPulling], d, BEST_EFFORT).w, [], Threw), AfterSlate(), d, BEST_EFFORT);
    AfterSlateRows(job, Local(Stages(job, start, [MarkRunning, ReportPulling], d, mixing).w, [], Open), d, mixing);
  }

  lemma FineCollects(job: Job, l: Local, d: Delivery, swallowed: set<Stage>)
    requires l.end.Open? && l.merged == [] && forall s :: s != DeleteRows ==> d.faults(s).Fine?
    ensures var l' := Stages(job, l, [ReportCollecting, CollectExtension, PullPaid, PersistingTick], d, swallowed);
      l'.end.Open? && l'.w.rows == l.w.rows && l'.merged == Gathered(job, d) && l'.w.credits == l.w.credits + SpentBy(job, d)
  {
    var all := [ReportCollecting, CollectExtension, PullPaid, PersistingTick];
    assert all == ([ReportCollecting] + [CollectExtension]) + ([PullPaid] + [PersistingTick]);
    StagesConcat(job, l, [ReportCollecting] + [CollectExtension], [PullPaid] + [PersistingTick], d, swallowed);
    StagesConcat(job, l, [ReportCollecting], [CollectExtension], d, swallowed);
    OneStage(job, l, ReportCollecting, d, swallowed);
    OneStage(job, l, CollectExtension, d, swallowed);
    var l2 := Attempt(job, l, CollectExtension, d, swallowed);
    StagesConcat(job, l2, [PullPaid], [PersistingTick], d, swallowed);
    OneStage(job, l2, PullPaid, d, swallowed);
    OneStage(job, Attempt(job, l2, PullPaid, d, swallowed), PersistingTick, d, swallowed);
    assert [] + d.extension == d.extension;
  }

  lemma {:induction false} EndedStays(job: Job, l: Local, stages: seq<Stage>, d: Delivery, swallowed: set<Stage>)
    requires !l.end.Open?
    ensures Stages(job, l, stages, d, swallowed) == l
    decreases |stages|
  {
    if stages != [] { EndedStays(job, l, stages[..|stages| - 1], d, swallowed); }
  }

  /** What a delivery does up to its persist. */
  function Fetching(d: Delivery): seq<Stage> {
    [MarkRunning, ReportPulling] + (if d.started > 1 then [ReadPersisted] else []) + [DeleteRows]
    + [ReportCollecting, CollectExtension, PullPaid, PersistingTick]
  }

  lemma FineFetch(job: Job, w: World, d: Delivery)
    requires w.rows == [] && forall s :: d.faults(s).Fine?
    ensures var l := Stages(job, Local(w, [], Open), Fetching(d), d, BEST_EFFORT);
      l.end.Open? && l.w.rows == [] && l.merged == Gathered(job, d) && l.w.credits == w.credits + SpentBy(job, d)
  {
    var start := Local(w, [], Open);
    var read := [MarkRunning, ReportPulling] + (if d.started > 1 then [ReadPersisted] else []);
    BeforeCleanSlate(job, w, d, BEST_EFFORT);
    StagesPass(job, start, read, d, BEST_EFFORT);
    QuietStages(job, start, read, d, BEST_EFFORT);
    StagesConcat(job, start, read + [DeleteRows], [ReportCollecting, CollectExtension, PullPaid, PersistingTick], d, BEST_EFFORT);
    StagesConcat(job, start, read, [DeleteRows], d, BEST_EFFORT);
    OneStage(job, Stages(job, start, read, d, BEST_EFFORT), DeleteRows, d, BEST_EFFORT);
    FineCollects(job, Stages(job, start, read + [DeleteRows], d, BEST_EFFORT), d, BEST_EFFORT);
  }

  /**
   * All of this is about deliveries one after the other. A worker that lost its job to a second delivery and goes on beside
   * it does mix two persists, and both pulls are paid, with nothing failing at all.
   */
  lemma OverlapMixes(job: Job, w: World, d: Delivery, e: Delivery)
    requires w.rows == [] && forall s :: d.faults(s).Fine? && e.faults(s).Fine?
    ensures var first := Stages(job, Local(w, [], Open), Fetching(d), d, BEST_EFFORT);
      var second := Stages(job, Local(first.w, [], Open), Fetching(e), e, BEST_EFFORT);
      var first' := Attempt(job, first.(w := second.w), Persist, d, BEST_EFFORT);
      var second' := Attempt(job, second.(w := first'.w), Persist, e, BEST_EFFORT);
      && second'.w.rows == Tag(d.batch, Gathered(job, d)) + Tag(e.batch, Gathered(job, e))
      && second'.w.credits == w.credits + SpentBy(job, d) + SpentBy(job, e)
  {
    FineFetch(job, w, d);
    FineFetch(job, Stages(job, Local(w, [], Open), Fetching(d), d, BEST_EFFORT).w, e);
    assert [] + Tag(d.batch, Gathered(job, d)) == Tag(d.batch, Gathered(job, d));
  }

  /** How many deliveries ended without a durable row. */
  function EmptyEnds(job: Job, w: World, ds: seq<Delivery>): nat
    decreases |ds|
  {
    if ds == [] then 0
    else
      var w' := Deliver(job, w, ds[0]);
      (if w'.rows == [] then 1 else 0) + EmptyEnds(job, w', ds[1..])
  }

  lemma OneBudgetMore(b: nat, n: nat)
    ensures b * (1 + (1 + n)) == b + b * (1 + n)
    ensures b * (1 + n) >= b
  {
  }

  lemma {:induction false} CreditsFrom(job: Job, w: World, ds: seq<Delivery>, first: nat)
    requires first >= 1 && Sequential(ds, first)
    ensures Run(job, w, ds).credits <= w.credits + job.budget * (1 + EmptyEnds(job, w, ds))
    decreases |ds|
  {
    if ds == [] {
      OneBudgetMore(job.budget, 0);
    } else {
      var w' := Deliver(job, w, ds[0]);
      var n := EmptyEnds(job, w', ds[1..]);
      OneBudgetMore(job.budget, n);
      ChargedWithinBudget(job, w, ds[0]);
      assert Sequential(ds[1..], first + 1);
      if w'.rows == [] {
        CreditsFrom(job, w', ds[1..], first + 1);
      } else {
        DurableRowsEndCharges(job, w', ds[1..], first + 1);
      }
    }
  }

  /** Total spending: one budget, plus one for every delivery that ended with nothing durable. */
  lemma TotalCreditsBounded(job: Job, w: World, ds: seq<Delivery>)
    requires Sequential(ds, 1)
    ensures Run(job, w, ds).credits - w.credits <= job.budget * (1 + EmptyEnds(job, w, ds))
  {
    CreditsFrom(job, w, ds, 1);
  }

  // ---------------------------------------------------------------- the status a delivery reports

  /** The stage does not end the delivery. */
  predicate Passes(d: Delivery, s: Stage, swallowed: set<Stage>) {
    d.faults(s).Fine? || (d.faults(s).Throws? && s in swallowed)
  }

  /** No stage before the terminal write ends the delivery. */
  predicate Reaches(rows: seq<Stored>, d: Delivery, swallowed: set<Stage>) {
    AllPass(BeforeTerminal(rows, d), d, swallowed)
  }

  predicate TakesEffect(f: Fault) {
    f.Fine? || (f.Throws? && f.after) || (f.Dies? && f.after)
  }

  /** The stage throws on: the delivery ends in the catch handler. */
  predicate ThrowsOn(d: Delivery, s: Stage, swallowed: set<Stage>) {
    d.faults(s).Throws? && s !in swallowed
  }

  /** The terminal status is written, and an error still reaches the catch handler. */
  predicate FailsAfterTerminal(rows: seq<Stored>, d: Delivery, swallowed: set<Stage>) {
    && Reaches(rows, d, swallowed) && TakesEffect(d.faults(MarkTerminal))
    && (ThrowsOn(d, MarkTerminal, swallowed) || (Passes(d, MarkTerminal, swallowed) && ThrowsOn(d, DoneTick, swallowed)))
  }

  predicate AllPass(stages: seq<Stage>, d: Delivery, swallowed: set<Stage>) {
    forall s :: s in stages ==> Passes(d, s, swallowed)
  }

  lemma AttemptPasses(job: Job, l: Local, s: Stage, d: Delivery, swallowed: set<Stage>)
    ensures Attempt(job, l, s, d, swallowed).end.Open? <==> l.end.Open? && Passes(d, s, swallowed)
  {
  }

  lemma {:induction false} StagesPass(job: Job, l: Local, stages: seq<Stage>, d: Delivery, swallowed: set<Stage>)
    requires l.end.Open?
    ensures Stages(job, l, stages, d, swallowed).end.Open? <==> AllPass(stages, d, swallowed)
    decreases |stages|
  {
    if stages != [] {
      var before := stages[..|stages| - 1];
      assert forall s :: s in stages <==> s in before || s == Last(stages) by { assert stages == before + [Last(stages)]; }
      StagesPass(job, l, before, d, swallowed);
      AttemptPasses(job, Stages(job, l, before, d, swallowed), Last(stages), d, swallowed);
      assert AllPass(stages, d, swallowed) <==> AllPass(before, d, swallowed) && Passes(d, Last(stages), swallowed);
    }
  }

  lemma {:induction false} NoStatusWritten(job: Job, l: Local, stages: seq<Stage>, d: Delivery, swallowed: set<Stage>)
    requires MarkRunning !in stages && MarkTerminal !in stages
    ensures Stages(job, l, stages, d, swallowed).w.statuses == l.w.statuses
    decreases |stages|
  {
    if stages != [] {
      assert stages == stages[..|stages| - 1] + [Last(stages)];
      NoStatusWritten(job, l, stages[..|stages| - 1], d, swallowed);
    }
  }

  /** Up to the terminal write the one status written is `running`. */
  lemma OnlyRunningBefore(job: Job, w: World, d: Delivery, swallowed: set<Stage>)
    ensures Stages(job, Local(w, [], Open), BeforeTerminal(w.rows, d), d, swallowed).w.statuses
         == w.statuses + if TakesEffect(d.faults(MarkRunning)) then [Running] else []
  {
    var rest := [ReportPulling] + Gathering(w.rows, d) + [ReportAnalyzing, Analyze];
    assert BeforeTerminal(w.rows, d) == [MarkRunning] + rest;
    StagesConcat(job, Local(w, [], Open), [MarkRunning], rest, d, swallowed);
    OneStage(job, Local(w, [], Open), MarkRunning, d, swallowed);
    NoStatusWritten(job, Stages(job, Local(w, [], Open), [MarkRunning], d, swallowed), rest, d, swallowed);
  }

  /** The captures a delivery that gets that far judges its final status by. */
  function Judged(job: Job, w: World, d: Delivery, swallowed: set<Stage>): seq<Capture> {
    Stages(job, Local(w, [], Open), BeforeTerminal(w.rows, d), d, swallowed).merged
  }

  /** Everything a delivery writes to the status, for any choice of swallowed stages. */
  lemma StatusesWritten(job: Job, w: World, d: Delivery, swallowed: set<Stage>)
    ensures DeliverWith(job, w, d, swallowed).statuses
         == w.statuses + (if TakesEffect(d.faults(MarkRunning)) then [Running] else [])
            + (if Reaches(w.rows, d, swallowed) && TakesEffect(d.faults(MarkTerminal))
               then [FinalStatus(job, Judged(job, w, d, swallowed), d)] else [])
            + (if Stages(job, Local(w, [], Open), BeforeTerminal(w.rows, d) + [MarkTerminal, DoneTick], d, swallowed).end.Threw?
                  && d.lastAttempt && d.failureWritten
               then [Status.Failed] else [])
  {
    var start, before := Local(w, [], Open), BeforeTerminal(w.rows, d);
    var mid := Stages(job, start, before, d, swallowed);
    StagesPass(job, start, before, d, swallowed);
    OnlyRunningBefore(job, w, d, swallowed);
    LastStages(job, start, before, d, swallowed);
  }

  lemma LastStages(job: Job, start: Local, before: seq<Stage>, d: Delivery, swallowed: set<Stage>)
    ensures Stages(job, start, before + [MarkTerminal, DoneTick], d, swallowed)
         == Attempt(job, Attempt(job, Stages(job, start, before, d, swallowed), MarkTerminal, d, swallowed), DoneTick, d, swallowed)
  {
    assert before + [MarkTerminal, DoneTick] == (before + [MarkTerminal]) + [DoneTick];
    StagesConcat(job, start, before + [MarkTerminal], [DoneTick], d, swallowed);
    StagesConcat(job, start, before, [MarkTerminal], d, swallowed);
    OneStage(job, Stages(job, start, before, d, swallowed), MarkTerminal, d, swallowed);
    OneStage(job, Stages(job, start, before + [MarkTerminal], d, swallowed), DoneTick, d, swallowed);
  }

  lemma ThrewIff(job: Job, w: World, d: Delivery, swallowed: set<Stage>)
    requires Reaches(w.rows, d, swallowed)
    ensures Stages(job, Local(w, [], Open), BeforeTerminal(w.rows, d) + [MarkTerminal, DoneTick], d, swallowed).end.Threw?
       <==> ThrowsOn(d, MarkTerminal, swallowed) || (Passes(d, MarkTerminal, swallowed) && ThrowsOn(d, DoneTick, swallowed))
  {
    StagesPass(job, Local(w, [], Open), BeforeTerminal(w.rows, d), d, swallowed);
    LastStages(job, Local(w, [], Open), BeforeTerminal(w.rows, d), d, swallowed);
  }

  /** Some stage throws on after all before it have passed. */
  ghost predicate SomeThrows(stages: seq<Stage>, d: Delivery, swallowed: set<Stage>) {
    exists k :: 0 <= k < |stages| && ThrowsOn(d, stages[k], swallowed) && AllPass(stages[..k], d, swallowed)
  }

  lemma SomeThrowsSnoc(before: seq<Stage>, last: Stage, d: Delivery, swallowed: set<Stage>)
    ensures SomeThrows(before + [last], d, swallowed)
       <==> SomeThrows(before, d, swallowed) || (AllPass(before, d, swallowed) && ThrowsOn(d, last, swallowed))
  {
    var all := before + [last];
    assert forall k :: 0 <= k <= |before| ==> all[..k] == before[..k];
    assert before[..|before|] == before && all[|before|] == last;
    if SomeThrows(before, d, swallowed) {
      var k :| 0 <= k < |before| && ThrowsOn(d, before[k], swallowed) && AllPass(before[..k], d, swallowed);
      assert ThrowsOn(d, all[k], swallowed) && AllPass(all[..k], d, swallowed);
    }
    if AllPass(before, d, swallowed) && ThrowsOn(d, last, swallowed) {
      assert ThrowsOn(d, all[|before|], swallowed) && AllPass(all[..|before|], d, swallowed);
    }
    if SomeThrows(all, d, swallowed) {
      var k :| 0 <= k < |all| && ThrowsOn(d, all[k], swallowed) && AllPass(all[..k], d, swallowed);
      assert k < |before| ==> all[k] == before[k];
    }
  }

  lemma {:induction false} ThrewExactly(job: Job, l: Local, stages: seq<Stage>, d: Delivery, swallowed: set<Stage>)
    requires l.end.Open?
    ensures Stages(job, l, stages, d, swallowed).end.Threw? <==> SomeThrows(stages, d, swallowed)
    decreases |stages|
  {
    if stages != [] {
      var before := stages[..|stages| - 1];
      assert stages == before + [Last(stages)];
      ThrewExactly(job, l, before, d, swallowed);
      StagesPass(job, l, before, d, swallowed);
      SomeThrowsSnoc(before, Last(stages), d, swallowed);
      AttemptThrows(job, Stages(job, l, before, d, swallowed), Last(stages), d, swallowed);
    }
  }

  lemma AttemptThrows(job: Job, l: Local, s: Stage, d: Delivery, swallowed: set<Stage>)
    ensures Attempt(job, l, s, d, swallowed).end.Threw? <==> l.end.Threw? || (l.end.Open? && ThrowsOn(d, s, swallowed))
  {
  }

  /** The statuses of one delivery: `running` at most, then at most one final status. */
  ghost predicate OnceAndLast(writes: seq<Status>) {
    forall i :: 0 <= i < |writes| - 1 ==> writes[i] == Running
  }

  function StatusWrites(job: Job, w: World, d: Delivery, swallowed: set<Stage>): seq<Status> {
    StatusesWritten(job, w, d, swallowed);
    DeliverWith(job, w, d, swallowed).statuses[|w.statuses|..]
  }

  /**
   * For any choice of swallowed stages: the final status is written once and last exactly when no error reaches the
   * catch handler of a last attempt after the terminal status has been written.
   */
  lemma FinalStatusOnceAndLastIff(job: Job, w: World, d: Delivery, swallowed: set<Stage>)
    ensures OnceAndLast(StatusWrites(job, w, d, swallowed))
       <==> !(FailsAfterTerminal(w.rows, d, swallowed) && d.lastAttempt && d.failureWritten)
  {
    StatusesWritten(job, w, d, swallowed);
    var running: seq<Status> := if TakesEffect(d.faults(MarkRunning)) then [Running] else [];
    var writes := StatusWrites(job, w, d, swallowed);
    if Reaches(w.rows, d, swallowed) && TakesEffect(d.faults(MarkTerminal)) {
      ThrewIff(job, w, d, swallowed);
      var final := FinalStatus(job, Judged(job, w, d, swallowed), d);
      if FailsAfterTerminal(w.rows, d, swallowed) && d.lastAttempt && d.failureWritten {
        assert writes == running + [final] + [Status.Failed];
        assert writes[|running|] == final != Running;
      } else {
        assert writes == running + [final];
      }
    } else {
      assert writes == running || writes == running + [Status.Failed];
    }
  }

  /**
   * With both ticks swallowed, as the program does: only a terminal write that took effect but whose answer was lost
   * can be followed by `failed`; the ticks never lead there. A final status is a faithful one: `completed` needs full
   * coverage and nothing to review, `failed` an error that some stage of the last attempt throws on.
   */
  lemma FinalStatusWrittenOnceAndLast(job: Job, w: World, d: Delivery)
    ensures OnceAndLast(StatusWrites(job, w, d, BEST_EFFORT))
       <==> !(Reaches(w.rows, d, BEST_EFFORT) && d.faults(MarkTerminal) == Throws(true) && d.lastAttempt && d.failureWritten)
    ensures var writes := StatusWrites(job, w, d, BEST_EFFORT);
      && (Completed in writes <==> Reaches(w.rows, d, BEST_EFFORT) && TakesEffect(d.faults(MarkTerminal))
                                   && d.needsReview == 0
                                   && (forall c :: c in job.channels ==>
                                         exists i :: 0 <= i < |Judged(job, w, d, BEST_EFFORT)|
                                                     && Judged(job, w, d, BEST_EFFORT)[i].channel == c))
      && (Status.Failed in writes <==> d.lastAttempt && d.failureWritten
                                       && SomeThrows(BeforeTerminal(w.rows, d) + [MarkTerminal, DoneTick], d, BEST_EFFORT))
  {
    FinalStatusOnceAndLastIff(job, w, d, BEST_EFFORT);
    StatusesWritten(job, w, d, BEST_EFFORT);
    var start, all := Local(w, [], Open), BeforeTerminal(w.rows, d) + [MarkTerminal, DoneTick];
    var running: seq<Status> := if TakesEffect(d.faults(MarkRunning)) then [Running] else [];
    var final := FinalStatus(job, Judged(job, w, d, BEST_EFFORT), d);
    var finals: seq<Status> := if Reaches(w.rows, d, BEST_EFFORT) && TakesEffect(d.faults(MarkTerminal)) then [final] else [];
    var failed: seq<Status> := if Stages(job, start, all, d, BEST_EFFORT).end.Threw? && d.lastAttempt && d.failureWritten
                               then [Status.Failed] else [];
    assert StatusWrites(job, w, d, BEST_EFFORT) == running + finals + failed;
    ThrewExactly(job, start, all, d, BEST_EFFORT);
  }

  /** What a delivery that gets to its terminal write judges: the stored captures, or the extension's and the paid ones. */
  lemma JudgedMeans(job: Job, w: World, d: Delivery)
    requires Reaches(w.rows, d, BEST_EFFORT)
    ensures var merged := Judged(job, w, d, BEST_EFFORT);
      if d.started > 1 && w.rows != [] then
        |merged| == |w.rows| && forall i :: 0 <= i < |merged| ==> merged[i] == w.rows[i].capture
      else merged == d.extension + Captures(PullOf(job, d).rows)
  {
    var start := Local(w, [], Open);
    if Reuses(w.rows, d) {
      var all := BeforeTerminal(w.rows, d);
      assert all == [MarkRunning, ReportPulling] + [ReadPersisted] + [ReportAnalyzing, Analyze];
      StagesConcat(job, start, [MarkRunning, ReportPulling] + [ReadPersisted], [ReportAnalyzing, Analyze], d, BEST_EFFORT);
      StagesConcat(job, start, [MarkRunning, ReportPulling], [ReadPersisted], d, BEST_EFFORT);
      IdleStages(job, start, [MarkRunning, ReportPulling], d, BEST_EFFORT);
      var l := Stages(job, start, [MarkRunning, ReportPulling], d, BEST_EFFORT);
      OneStage(job, l, ReadPersisted, d, BEST_EFFORT);
      StagesPass(job, start, all, d, BEST_EFFORT);
      var l2 := Stages(job, start, [MarkRunning, ReportPulling] + [ReadPersisted], d, BEST_EFFORT);
      IdleStages(job, l2, [ReportAnalyzing, Analyze], d, BEST_EFFORT);
      assert ReadPersisted in all;
    } else {
      JudgedFetched(job, w, d);
    }
  }

  lemma JudgedFetched(job: Job, w: World, d: Delivery)
    requires Reaches(w.rows, d, BEST_EFFORT) && !Reuses(w.rows, d)
    ensures Judged(job, w, d, BEST_EFFORT) == d.extension + Captures(PullOf(job, d).rows)
  {
    var start := Local(w, [], Open);
    var before := [MarkRunning, ReportPulling] + (if d.started > 1 then [ReadPersisted] else []);
    var rest := [ReportCollecting, CollectExtension, PullPaid, PersistingTick] + ([Persist] + [ReportAnalyzing, Analyze]);
    assert BeforeTerminal(w.rows, d) == (before + [DeleteRows]) + rest;
    BeforeCleanSlate(job, w, d, BEST_EFFORT);
    StagesConcat(job, start, before + [DeleteRows], rest, d, BEST_EFFORT);
    StagesConcat(job, start, before, [DeleteRows], d, BEST_EFFORT);
    CleanSlate(job, Stages(job, start, before, d, BEST_EFFORT), d, BEST_EFFORT);
    StagesPass(job, start, BeforeTerminal(w.rows, d), d, BEST_EFFORT);
    CollectedStays(job, Stages(job, start, before + [DeleteRows], d, BEST_EFFORT), d);
  }

  lemma CollectedStays(job: Job, l: Local, d: Delivery)
    requires l.merged == []
    ensures var l' := Stages(job, l, [ReportCollecting, CollectExtension, PullPaid, PersistingTick]
                                     + ([Persist] + [ReportAnalyzing, Analyze]), d, BEST_EFFORT);
      l'.end.Open? ==> l'.merged == Gathered(job, d)
  {
    var collecting := [ReportCollecting, CollectExtension, PullPaid, PersistingTick];
    Collects(job, l, d, BEST_EFFORT);
    StagesConcat(job, l, collecting, [Persist] + [ReportAnalyzing, Analyze], d, BEST_EFFORT);
    var l1 := Stages(job, l, collecting, d, BEST_EFFORT);
    StagesConcat(job, l1, [Persist], [ReportAnalyzing, Analyze], d, BEST_EFFORT);
    OneStage(job, l1, Persist, d, BEST_EFFORT);
    IdleStages(job, Stages(job, l1, [Persist], d, BEST_EFFORT), [ReportAnalyzing, Analyze], d, BEST_EFFORT);
  }

  // ---------------------------------------------------------------- a delivery in which nothing fails

  ghost predicate AllFine(d: Delivery) {
    forall s :: d.faults(s).Fine?
  }

  /** `completed` when every requested channel has a capture and nothing needs review. */
  ghost function StatusFor(channels: seq<string>, merged: seq<Capture>, needsReview: nat): Status {
    if needsReview == 0 && forall c :: c in channels ==> exists i :: 0 <= i < |merged| && merged[i].channel == c then Completed
    else Partial
  }

  lemma FineStatuses(job: Job, w: World, d: Delivery)
    requires AllFine(d)
    ensures Reaches(w.rows, d, BEST_EFFORT)
    ensures Deliver(job, w, d).statuses
         == w.statuses + [Running, StatusFor(job.channels, Judged(job, w, d, BEST_EFFORT), d.needsReview)]
  {
    StatusesWritten(job, w, d, BEST_EFFORT);
    ThrewIff(job, w, d, BEST_EFFORT);
    assert Deliver(job, w, d).statuses == w.statuses + [Running] + [FinalStatus(job, Judged(job, w, d, BEST_EFFORT), d)] + [];
  }

  /** Rows of an earlier delivery are stored already: they are judged as they are, and nothing is fetched or stored. */
  lemma FineDeliveryReuses(job: Job, w: World, d: Delivery, stored: seq<Capture>)
    requires AllFine(d) && d.started > 1 && w.rows != []
    requires |stored| == |w.rows| && forall i :: 0 <= i < |stored| ==> stored[i] == w.rows[i].capture
    ensures Deliver(job, w, d)
         == World(w.rows, w.credits, w.statuses + [Running, StatusFor(job.channels, stored, d.needsReview)])
  {
    ReuseIsFree(job, w, d);
    FineStatuses(job, w, d);
    JudgedMeans(job, w, d);
    assert Judged(job, w, d, BEST_EFFORT) == stored;
  }

  lemma FineRows(job: Job, w: World, d: Delivery)
    requires AllFine(d) && !Reuses(w.rows, d)
    ensures Deliver(job, w, d).rows == Tag(d.batch, Gathered(job, d)) && Deliver(job, w, d).credits == w.credits + SpentBy(job, d)
  {
    var start := Local(w, [], Open);
    var read := [MarkRunning, ReportPulling] + (if d.started > 1 then [ReadPersisted] else []);
    var collecting := [ReportCollecting, CollectExtension, PullPaid, PersistingTick];
    var after := [ReportAnalyzing, Analyze] + [MarkTerminal, DoneTick];
    assert BeforeTerminal(w.rows, d) + [MarkTerminal, DoneTick] == read + ([DeleteRows] + (collecting + ([Persist] + after)));
    StagesConcat(job, start, read, [DeleteRows] + (collecting + ([Persist] + after)), d, BEST_EFFORT);
    BeforeCleanSlate(job, w, d, BEST_EFFORT);
    StagesPass(job, start, read, d, BEST_EFFORT);
    QuietStages(job, start, read, d, BEST_EFFORT);
    FineTail(job, Stages(job, start, read, d, BEST_EFFORT), d, after);
  }

  lemma FineTail(job: Job, l: Local, d: Delivery, after: seq<Stage>)
    requires AllFine(d) && l.end.Open? && l.merged == [] && after == [ReportAnalyzing, Analyze] + [MarkTerminal, DoneTick]
    ensures var w' := Stages(job, l, [DeleteRows] + ([ReportCollecting, CollectExtension, PullPaid, PersistingTick]
                                                     + ([Persist] + after)), d, BEST_EFFORT).w;
      w'.rows == Tag(d.batch, Gathered(job, d)) && w'.credits == l.w.credits + SpentBy(job, d)
  {
    var collecting := [ReportCollecting, CollectExtension, PullPaid, PersistingTick];
    StagesConcat(job, l, [DeleteRows], collecting + ([Persist] + after), d, BEST_EFFORT);
    OneStage(job, l, DeleteRows, d, BEST_EFFORT);
    FineStore(job, Stages(job, l, [DeleteRows], d, BEST_EFFORT), d, after);
  }

  lemma FineStore(job: Job, l: Local, d: Delivery, after: seq<Stage>)
    requires AllFine(d) && l.end.Open? && l.merged == [] && l.w.rows == []
    requires after == [ReportAnalyzing, Analyze] + [MarkTerminal, DoneTick]
    ensures var w' := Stages(job, l, [ReportCollecting, CollectExtension, PullPaid, PersistingTick] + ([Persist] + after), d, BEST_EFFORT).w;
      w'.rows == Tag(d.batch, Gathered(job, d)) && w'.credits == l.w.credits + SpentBy(job, d)
  {
    var collecting := [ReportCollecting, CollectExtension, PullPaid, PersistingTick];
    StagesConcat(job, l, collecting, [Persist] + after, d, BEST_EFFORT);
    FineCollects(job, l, d, BEST_EFFORT);
    FinePersist(job, Stages(job, l, collecting, d, BEST_EFFORT), d, after);
  }

  lemma FinePersist(job: Job, l: Local, d: Delivery, after: seq<Stage>)
    requires AllFine(d) && l.end.Open? && l.w.rows == [] && after == [ReportAnalyzing, Analyze] + [MarkTerminal, DoneTick]
    ensures var w' := Stages(job, l, [Persist] + after, d, BEST_EFFORT).w;
      w'.rows == Tag(d.batch, l.merged) && w'.credits == l.w.credits
  {
    StagesConcat(job, l, [Persist], after, d, BEST_EFFORT);
    OneStage(job, l, Persist, d, BEST_EFFORT);
    IdleStages(job, Stages(job, l, [Persist], d, BEST_EFFORT), after, d, BEST_EFFORT);
    QuietStages(job, Stages(job, l, [Persist], d, BEST_EFFORT), after, d, BEST_EFFORT);
    assert [] + Tag(d.batch, l.merged) == Tag(d.batch, l.merged);
  }

  /**
   * No rows of an earlier delivery: exactly what the extension pushed and what the paid calls brought is stored, each
   * call is charged once, and the run ends by what was stored.
   */
  lemma FineDeliveryFetches(job: Job, w: World, d: Delivery)
      returns (pulled: seq<Capture>, o: seq<Row>, m: seq<Row>, b: seq<Row>, sent: seq<Sent>)
    requires AllFine(d) && (d.started <= 1 || w.rows == [])
    ensures PullDelivered(o, m, b, "aiOverview" in job.channels && job.flags.enabled,
                          "aiMode" in job.channels && job.flags.enabled && job.flags.aiMode,
                          "bingCopilot" in job.channels && job.flags.enabled && job.flags.bingCopilot,
                          job.keywords, |d.sent|, sent, job.budget, d.net)
    ensures InOrder(pulled, o + m + b)
    ensures Deliver(job, w, d)
         == World(Tag(d.batch, d.extension + pulled), w.credits + TotalCredits(o) + TotalCredits(m) + TotalCredits(b),
                  w.statuses + [Running, StatusFor(job.channels, d.extension + pulled, d.needsReview)])
  {
    o, m, b := PullDelivers(Wanted(job.channels), job.flags, job.keywords, job.budget, d.net, d.sent);
    pulled, sent := Captures(o + m + b), PullOf(job, d).account.sent;
    CapturesInOrder(o + m + b);
    FineRows(job, w, d);
    FineStatuses(job, w, d);
    JudgedMeans(job, w, d);
  }

  /** A worker killed inside the paid pull: the calls it had sent are charged, at most all of them, and no row is kept. */
  lemma KilledPullCharges(job: Job, w: World, d: Delivery)
    requires d.started <= 1 && d.faults(PullPaid) == Dies(false) && forall s :: s != PullPaid ==> d.faults(s).Fine?
    ensures var spent := SpentBy(job, d);
      Deliver(job, w, d) == World([], w.credits + if d.chargedIfKilled <= spent then d.chargedIfKilled else spent, w.statuses + [Running])
  {
    var start := Local(w, [], Open);
    var before := [MarkRunning, ReportPulling, DeleteRows, ReportCollecting, CollectExtension];
    var after := [PersistingTick, Persist] + [ReportAnalyzing, Analyze] + [MarkTerminal, DoneTick];
    assert BeforeTerminal(w.rows, d) + [MarkTerminal, DoneTick] == (before + [PullPaid]) + after;
    StagesConcat(job, start, before + [PullPaid], after, d, BEST_EFFORT);
    StagesConcat(job, start, before, [PullPaid], d, BEST_EFFORT);
    SlateTaken(job, w, d, before);
    OneStage(job, Stages(job, start, before, d, BEST_EFFORT), PullPaid, d, BEST_EFFORT);
    EndedStays(job, Stages(job, start, before + [PullPaid], d, BEST_EFFORT), after, d, BEST_EFFORT);
  }

  lemma SlateTaken(job: Job, w: World, d: Delivery, before: seq<Stage>)
    requires before == [MarkRunning, ReportPulling, DeleteRows, ReportCollecting, CollectExtension]
    requires forall s :: s != PullPaid ==> d.faults(s).Fine?
    ensures var l := Stages(job, Local(w, [], Open), before, d, BEST_EFFORT);
      l.end.Open? && l.w == World([], w.credits, w.statuses + [Running])
  {
    var start := Local(w, [], Open);
    var first, rest := [MarkRunning] + [ReportPulling], [DeleteRows] + [ReportCollecting, CollectExtension];
    assert before == first + rest;
    StagesConcat(job, start, first, rest, d, BEST_EFFORT);
    StagesConcat(job, start, [MarkRunning], [ReportPulling], d, BEST_EFFORT);
    OneStage(job, start, MarkRunning, d, BEST_EFFORT);
    OneStage(job, Stages(job, start, [MarkRunning], d, BEST_EFFORT), ReportPulling, d, BEST_EFFORT);
    SlateAndCollect(job, Stages(job, start, first, d, BEST_EFFORT), d);
  }

  lemma SlateAndCollect(job: Job, l: Local, d: Delivery)
    requires l.end.Open? && forall s :: s != PullPaid ==> d.faults(s).Fine?
    ensures var l' := Stages(job, l, [DeleteRows] + [ReportCollecting, CollectExtension], d, BEST_EFFORT);
      l'.end.Open? && l'.w == l.w.(rows := [])
  {
    StagesConcat(job, l, [DeleteRows], [ReportCollecting, CollectExtension], d, BEST_EFFORT);
    OneStage(job, l, DeleteRows, d, BEST_EFFORT);
    var l2 := Stages(job, l, [DeleteRows], d, BEST_EFFORT);
    assert [ReportCollecting, CollectExtension] == [ReportCollecting] + [CollectExtension];
    StagesConcat(job, l2, [ReportCollecting], [CollectExtension], d, BEST_EFFORT);
    OneStage(job, l2, ReportCollecting, d, BEST_EFFORT);
    OneStage(job, l2, CollectExtension, d, BEST_EFFORT);
  }

  /** Without the swallowing, an error of the last tick alone flips a run already reported as completed to `failed`. */
  lemma UnswallowedDoneTickFlips(job: Job, w: World, d: Delivery)
    requires forall s :: s != DoneTick ==> d.faults(s).Fine?
    requires d.faults(DoneTick).Throws? && d.lastAttempt && d.failureWritten
    ensures OnceAndLast(StatusWrites(job, w, d, BEST_EFFORT))
    ensures !OnceAndLast(StatusWrites(job, w, d, {PersistingTick}))
    ensures var statuses := DeliverWith(job, w, d, {PersistingTick}).statuses; statuses != [] && Last(statuses) == Status.Failed
  {
    FinalStatusOnceAndLastIff(job, w, d, BEST_EFFORT);
    FinalStatusOnceAndLastIff(job, w, d, {PersistingTick});
    StatusesWritten(job, w, d, {PersistingTick});
    assert Reaches(w.rows, d, {PersistingTick}) by {
      assert DoneTick !in BeforeTerminal(w.rows, d);
    }
    ThrewIff(job, w, d, {PersistingTick});
  }

  // ---------------------------------------------------------------- the queue's retries

  function EndOf(job: Job, w: World, d: Delivery): End {
    Stages(job, Local(w, [], Open), BeforeTerminal(w.rows, d) + [MarkTerminal, DoneTick], d, BEST_EFFORT).end
  }

  /**
   * The queue's rule, `made` being the attempts counted so far: a delivery that throws counts, one whose worker dies does
   * not. After a success or the last counted attempt nothing more is delivered; and a delivery knows that it is the last.
   */
  predicate Retried(job: Job, w: World, ds: seq<Delivery>, made: nat)
    decreases |ds|
  {
    ds == []
    || (&& ds[0].lastAttempt == (made + 1 >= job.attempts)
        && (|ds| > 1 ==> EndOf(job, w, ds[0]).Died? || (EndOf(job, w, ds[0]).Threw? && made + 1 < job.attempts))
        && Retried(job, Deliver(job, w, ds[0]), ds[1..], made + if EndOf(job, w, ds[0]).Threw? then 1 else 0))
  }

  lemma FailedOnlyWhenOver(job: Job, w: World, d: Delivery)
    requires EndOf(job, w, d).Threw? ==> !d.lastAttempt
    ensures Status.Failed !in StatusWrites(job, w, d, BEST_EFFORT)
  {
    StatusesWritten(job, w, d, BEST_EFFORT);
  }

  lemma DeliverAppends(job: Job, w: World, d: Delivery)
    ensures Deliver(job, w, d).statuses == w.statuses + StatusWrites(job, w, d, BEST_EFFORT)
  {
    StatusesWritten(job, w, d, BEST_EFFORT);
  }

  /** Over a whole run `failed` is written by the last delivery only: never while the queue will still retry. */
  lemma {:induction false} FailedIsFinal(job: Job, w: World, ds: seq<Delivery>, made: nat)
    requires Retried(job, w, ds, made) && ds != [] && Status.Failed !in w.statuses
    ensures Status.Failed !in Run(job, w, ds[..|ds| - 1]).statuses
    ensures Status.Failed in Run(job, w, ds).statuses ==> Last(ds).lastAttempt
    decreases |ds|
  {
    var w' := Deliver(job, w, ds[0]);
    DeliverAppends(job, w, ds[0]);
    if |ds| == 1 {
      assert ds[1..] == [] && ds[..0] == [] && Last(ds) == ds[0];
      assert Run(job, w, ds) == w';
      FinalStatusWrittenOnceAndLast(job, w, ds[0]);
    } else {
      FailedOnlyWhenOver(job, w, ds[0]);
      FailedIsFinal(job, w', ds[1..], made + if EndOf(job, w, ds[0]).Threw? then 1 else 0);
      assert ds[..|ds| - 1][1..] == ds[1..][..|ds| - 2];
    }
  }

  // ---------------------------------------------------------------- the worker

  class Worker {
    const job: Job
    var rows: seq<Stored>
    var credits: nat
    var statuses: seq<Status>
    var merged: seq<Capture>
    var end: End

    constructor (job: Job, rows: seq<Stored>)
      ensures this.job == job && View() == World(rows, 0, [])
    {
      this.job, this.rows, credits, statuses, merged, end := job, rows, 0, [], [], Open;
    }

    function View(): World
      reads this
    {
      World(rows, credits, statuses)
    }

    function Now(): Local
      reads this
    {
      Local(View(), merged, end)
    }

    /** What a stage does to the stores. */
    method Perform(s: Stage, d: Delivery)
      modifies this
      ensures Now() == Effect(job, old(Now()), s, d)
    {
      match s {
        case MarkRunning =>
          statuses := statuses + [Running];
        case ReadPersisted =>
          merged := Untag(rows);
        case DeleteRows =>
          rows := [];
        case CollectExtension =>
          merged := merged + d.extension;
        case PullPaid =>
          var provider := new Provider(job.budget, job.flags, d.net, d.sent);
          var captures, spent := provider.PullSerpapi(Wanted(job.channels), job.keywords);
          assert spent == SpentBy(job, d);
          credits, merged := credits + spent, merged + captures;
        case Persist =>
          rows := rows + Tag(d.batch, merged);
        case MarkTerminal =>
          statuses := statuses + [FinalStatus(job, merged, d)];
        case _ =>
      }
    }

    /** Runs one stage, unless the delivery has already thrown or died. */
    method Do(s: Stage, d: Delivery)
      modifies this
      ensures Now() == Attempt(job, old(Now()), s, d, BEST_EFFORT)
    {
      if !end.Open? {
        return;
      }
      match d.faults(s)
      case Fine =>
        Perform(s, d);
      case Throws(after) =>
        if after {
          Perform(s, d);
        }
        if s !in BEST_EFFORT {
          end := Threw;
        }
      case Dies(after) =>
        if after {
          Perform(s, d);
        } else if s.PullPaid? {
          var spent := SpentBy(job, d);
          credits := credits + if d.chargedIfKilled <= spent then d.chargedIfKilled else spent;
        }
        end := Died;
    }

    /** Some stages in a row. */
    method DoAll(stages: seq<Stage>, d: Delivery)
      modifies this
      ensures Now() == Stages(job, old(Now()), stages, d, BEST_EFFORT)
    {
      for i := 0 to |stages|
        invariant Now() == Stages(job, old(Now()), stages[..i], d, BEST_EFFORT)
      {
        assert stages[..i + 1][..i] == stages[..i];
        Do(stages[i], d);
      }
      assert stages[..|stages|] == stages;
    }

    /** One delivery; the catch handler marks the run failed when no retry is left. */
    method Process(d: Delivery)
      modifies this
      ensures View() == Deliver(job, old(View()), d)
    {
      merged, end := [], Open;
      ghost var start := Now();
      ghost var tail := [ReportAnalyzing, Analyze, MarkTerminal, DoneTick];
      DoAll([MarkRunning, ReportPulling], d);
      QuietStages(job, start, [MarkRunning, ReportPulling], d, BEST_EFFORT);
      Gather(d);
      DoAll([ReportAnalyzing, Analyze, MarkTerminal, DoneTick], d);
      StagesConcat(job, start, [MarkRunning, ReportPulling], Gathering(start.w.rows, d), d, BEST_EFFORT);
      StagesConcat(job, start, [MarkRunning, ReportPulling] + Gathering(start.w.rows, d), tail, d, BEST_EFFORT);
      assert BeforeTerminal(start.w.rows, d) + [MarkTerminal, DoneTick]
             == [MarkRunning, ReportPulling] + Gathering(start.w.rows, d) + tail;
      if end.Threw? && d.lastAttempt && d.failureWritten {
        statuses := statuses + [Status.Failed];
      }
    }

    /** Collects and stores the captures, unless an earlier delivery already stored them. */
    method Gather(d: Delivery)
      modifies this
      ensures Now() == Stages(job, old(Now()), Gathering(old(rows), d), d, BEST_EFFORT)
    {
      ghost var start := Now();
      ghost var read: seq<Stage> := [];
      if d.started > 1 {
        Do(ReadPersisted, d);
        OneStage(job, start, ReadPersisted, d, BEST_EFFORT);
        read := [ReadPersisted];
        if rows != [] {
          assert Gathering(start.w.rows, d) == [ReadPersisted];
          return;
        }
      }
      DoAll([DeleteRows, ReportCollecting, CollectExtension, PullPaid, PersistingTick, Persist], d);
      StagesConcat(job, start, read, [DeleteRows, ReportCollecting, CollectExtension, PullPaid, PersistingTick, Persist], d, BEST_EFFORT);
      assert Gathering(start.w.rows, d) == read + [DeleteRows, ReportCollecting, CollectExtension, PullPaid, PersistingTick, Persist];
    }
  }
}
