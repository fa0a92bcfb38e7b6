/**
 * Who sees an analysis through. Until the job is added its creator does, who adds it or deletes the row again; from then
 * on the job does, until it has ended for good. Exactly four events leave a row in flight with nobody: a compensating
 * delete that fails, a creator that dies while it holds the row, an insert whose answer is lost, and a job that ends
 * without a terminal status having been written.
 */
module AnalysisOwnership {
  import opened Base
  import opened AnalysisLifecycle
  import opened AnalysisSafety

  /** The job is on the queue or being worked on. */
  predicate LiveJob(w: World, i: RowId) {
    i in w.jobs && i !in w.over
  }

  predicate Owned(s: State, i: RowId) {
    LiveJob(s.w, i) || (i in s.w.minted && HeldBy(s.pcs, s.w.minted[i], i))
  }

  /** The row exists, its creator has let go of it, and no live job stands for it. */
  predicate LetGo(s: State, i: RowId) {
    Kept(s, i) && !LiveJob(s.w, i)
  }

  /** A row in flight that nobody sees through. */
  predicate Stranded(s: State, i: RowId) {
    Open(s.w.db, i) && LetGo(s, i)
  }

  predicate Holds(pc: Pc, i: RowId) {
    (pc.CEnqueue? || pc.CUndo?) && pc.id == i
  }

  /** A creator leaves row `i` without a live job: it dies, its undo is lost, or the answer of its insert is. */
  ghost predicate CreatorLeaves(s: State, act: Action, i: RowId) {
    match act
    case Die(a) => a in s.pcs && Holds(s.pcs[a], i) && !LiveJob(s.w, i)
    case Advance(a, LostBefore) => a in s.pcs && s.pcs[a].CUndo? && s.pcs[a].id == i && !LiveJob(s.w, i)
    case Advance(a, LostAfter) =>
      a in s.pcs && (s.pcs[a].CInsert? || s.pcs[a].CReinsert?) && s.pcs[a].id == i && !Taken(s.w.db, Live(s.pcs[a].hash))
    case _ => false
  }

  /** The job of row `i` ends for good, and its creator does not hold the row any more. */
  predicate JobEnds(s: State, act: Action, i: RowId) {
    act == JobOver(i) && LiveJob(s.w, i) && Kept(s, i)
  }

  ghost predicate LosesOwner(s: State, act: Action, i: RowId) {
    CreatorLeaves(s, act, i) || JobEnds(s, act, i)
  }

  // ---------------------------------------------------------------- one step

  lemma JobNotRevived(s: State, act: Action, ttl: int, i: RowId)
    requires Informed(s, act, ttl) && LetGo(s, i)
    ensures !LiveJob(Step(s, act, ttl).w, i)
  {
    if act.Advance? && act.a in s.pcs && Busy(s.pcs[act.a]) { EffectJobs(s, act.a, ttl); }
  }

  lemma EffectJobs(s: State, a: Actor, ttl: int)
    requires a in s.pcs
    ensures var w' := Effect(s, a, s.pcs[a], ttl).w;
      w'.jobs == s.w.jobs + (if s.pcs[a].CEnqueue? then {s.pcs[a].id} else {}) && w'.over == s.w.over
  {
  }

  lemma LetGoStays(s: State, act: Action, ttl: int, i: RowId)
    requires Inv(s, ttl) && LetGo(s, i)
    ensures LetGo(Step(s, act, ttl), i)
  {
    KeptStays(s, act, ttl, i);
    ActorInformed(s, act, ttl);
    JobNotRevived(s, act, ttl, i);
  }

  lemma CreatorLoses(s: State, act: Action, ttl: int, i: RowId)
    requires CreatorLeaves(s, act, i) && PcOk(s.w, act.a, s.pcs[act.a], ttl) && s.w.jobs <= s.w.born
    ensures LetGo(Step(s, act, ttl), i)
  {
  }

  /** A row that is new in this step was inserted by it; it is lost only with the insert's answer. */
  lemma NewRowLost(s: State, act: Action, ttl: int, i: RowId)
    requires Informed(s, act, ttl) && i !in s.w.db.rows && LetGo(Step(s, act, ttl), i)
    ensures CreatorLeaves(s, act, i)
  {
    if act.Advance? && act.a in s.pcs && Busy(s.pcs[act.a]) && Closing(s.pcs[act.a]) { CloseAddsNoRow(s, act.a, i); }
  }

  lemma CloseAddsNoRow(s: State, a: Actor, i: RowId)
    requires a in s.pcs && i !in s.w.db.rows
    ensures i !in CloseEffect(s, a, s.pcs[a]).w.db.rows
  {
  }

  /** A held row is lost only through its holder. */
  lemma HeldRowLost(s: State, act: Action, ttl: int, i: RowId)
    requires Inv(s, ttl) && i in s.w.db.rows && HeldBy(s.pcs, s.w.minted[i], i)
    requires LetGo(Step(s, act, ttl), i)
    ensures CreatorLeaves(s, act, i)
  {
    StepEvolves(s, act, ttl);
    var c := s.w.minted[i].creator;
    if ActorOf(act) == Some(c) {
      assert PcOk(s.w, c, s.pcs[c], ttl);
      HolderLoses(s, act, ttl, c, i);
    } else {
      OthersUntouched(s, act, ttl, c);
    }
  }

  lemma HolderLoses(s: State, act: Action, ttl: int, c: Actor, i: RowId)
    requires ActorOf(act) == Some(c) && c in s.pcs && i in s.w.minted && s.w.minted[i].creator == c
    requires s.pcs[c] == CUndo(s.w.minted[i].hash, i) || (s.pcs[c] == CEnqueue(s.w.minted[i].hash, i) && i !in s.w.jobs)
    requires s.w.over <= s.w.jobs && LetGo(Step(s, act, ttl), i)
    ensures CreatorLeaves(s, act, i)
  {
  }

  /** A row with a live job is lost only with the job. */
  lemma JobRowLost(s: State, act: Action, ttl: int, i: RowId)
    requires Inv(s, ttl) && Kept(s, i) && LiveJob(s.w, i) && LetGo(Step(s, act, ttl), i)
    ensures JobEnds(s, act, i)
  {
    StepEvolves(s, act, ttl);
    OnlyJobOverEnds(s, act, ttl, i);
  }

  lemma OnlyJobOverEnds(s: State, act: Action, ttl: int, i: RowId)
    requires i !in s.w.over && i in Step(s, act, ttl).w.over
    ensures act == JobOver(i)
  {
    if act.Advance? && act.a in s.pcs && Busy(s.pcs[act.a]) { EffectJobs(s, act.a, ttl); }
  }

  /** In one step nobody is left for row `i` if and only if nobody was before or one of the events hits it. */
  lemma LetGoIff(s: State, act: Action, ttl: int, i: RowId)
    requires Inv(s, ttl)
    ensures LetGo(Step(s, act, ttl), i) <==> LetGo(s, i) || LosesOwner(s, act, i)
  {
    if LetGo(s, i) {
      LetGoStays(s, act, ttl, i);
    } else if CreatorLeaves(s, act, i) {
      assert PcOk(s.w, act.a, s.pcs[act.a], ttl);
      CreatorLoses(s, act, ttl, i);
    } else if JobEnds(s, act, i) {
    } else if LetGo(Step(s, act, ttl), i) {
      LossHasCause(s, act, ttl, i);
      assert false;
    }
  }

  lemma LossHasCause(s: State, act: Action, ttl: int, i: RowId)
    requires Inv(s, ttl) && !LetGo(s, i) && LetGo(Step(s, act, ttl), i)
    ensures LosesOwner(s, act, i)
  {
    ActorInformed(s, act, ttl);
    if i !in s.w.db.rows { NewRowLost(s, act, ttl, i); }
    else if HeldBy(s.pcs, s.w.minted[i], i) { HeldRowLost(s, act, ttl, i); }
    else { JobRowLost(s, act, ttl, i); }
  }

  /** None of the events writes a status. */
  lemma LossKeepsStatus(s: State, act: Action, ttl: int, i: RowId)
    requires Informed(s, act, ttl) && LosesOwner(s, act, i) && i in s.w.db.rows && i in s.w.born
    ensures i in Step(s, act, ttl).w.db.rows ==> Step(s, act, ttl).w.db.rows[i] == s.w.db.rows[i]
  {
  }

  /** A row in flight that has an owner is stranded by a step if and only if the step is one of the four events. */
  lemma StrandedIff(s: State, act: Action, ttl: int, i: RowId)
    requires Inv(s, ttl) && Open(s.w.db, i) && Owned(s, i)
    ensures Stranded(Step(s, act, ttl), i) <==> LosesOwner(s, act, i)
  {
    LetGoIff(s, act, ttl, i);
    ActorInformed(s, act, ttl);
    if LosesOwner(s, act, i) { LossKeepsStatus(s, act, ttl, i); }
  }

  // ---------------------------------------------------------------- whole runs

  /** Some step of the run is one of the events for row `i`. */
  ghost predicate Loses(s: State, acts: seq<Action>, ttl: int, i: RowId)
    decreases |acts|
  {
    acts != [] && (LosesOwner(s, acts[0], i) || Loses(Step(s, acts[0], ttl), acts[1..], ttl, i))
  }

  lemma {:induction false} RunLetsGo(s: State, acts: seq<Action>, ttl: int, i: RowId)
    requires Inv(s, ttl)
    ensures LetGo(Exec(s, acts, ttl), i) <==> LetGo(s, i) || Loses(s, acts, ttl, i)
    decreases |acts|
  {
    if acts != [] {
      StepKeeps(s, acts[0], ttl);
      LetGoIff(s, acts[0], ttl, i);
      RunLetsGo(Step(s, acts[0], ttl), acts[1..], ttl, i);
    }
  }

  /** A row in flight has a live job or a creator about to add or delete it, if and only if no event of its run took them away. */
  lemma InFlightRowHasOwner(t0: int, acts: seq<Action>, ttl: int, i: RowId)
    requires Open(Exec(Init(t0), acts, ttl).w.db, i)
    ensures Owned(Exec(Init(t0), acts, ttl), i) <==> !Loses(Init(t0), acts, ttl, i)
  {
    InitKeeps(t0, acts, ttl);
    RunLetsGo(Init(t0), acts, ttl, i);
  }

  /** A delivery whose save has returned leaves nothing in flight: its job may end at any time. */
  lemma SavedNotStranded(t0: int, acts: seq<Action>, more: seq<Action>, ttl: int, a: Actor)
    requires var s := Exec(Init(t0), acts, ttl); a in s.pcs && s.pcs[a].SDone?
    ensures var job := Exec(Init(t0), acts, ttl).pcs[a].job; !Stranded(Exec(Exec(Init(t0), acts, ttl), more, ttl), job)
  {
    var s := Exec(Init(t0), acts, ttl);
    InitKeeps(t0, acts, ttl);
    RunKeeps(s, more, ttl);
    AnswersStay(s, more, ttl, a);
    var s' := Exec(s, more, ttl);
    assert PcOk(s'.w, a, s'.pcs[a], ttl);
  }

  // ---------------------------------------------------------------- a stranded row stays

  /** Somebody writes row `i` all the same: a cancel, or a delivery that outlived its job. */
  predicate Writes(s: State, act: Action, i: RowId) {
    match act
    case MarkRunning(j) => j == i
    case Report(j, _, _) => j == i
    case FinalFailure(j) => j == i
    case Advance(a, _) => a in s.pcs && ((s.pcs[a].KUpdate? && s.pcs[a].target == i) || (s.pcs[a].SCommit? && s.pcs[a].job == i))
    case _ => false
  }

  ghost predicate Untouched(s: State, acts: seq<Action>, ttl: int, i: RowId)
    decreases |acts|
  {
    acts != [] ==> !Writes(s, acts[0], i) && Untouched(Step(s, acts[0], ttl), acts[1..], ttl, i)
  }

  lemma UntouchedRow(s: State, act: Action, ttl: int, i: RowId)
    requires Informed(s, act, ttl) && Open(s.w.db, i) && i in s.w.born && !Writes(s, act, i)
    requires i in Step(s, act, ttl).w.db.rows
    ensures Step(s, act, ttl).w.db.rows[i] == s.w.db.rows[i]
  {
    if act.Advance? && act.a in s.pcs && Busy(s.pcs[act.a]) {
      if Closing(s.pcs[act.a]) { CloseElsewhere(s, act.a, i); } else { CreateElsewhere(s, act.a, ttl, i); }
    }
  }

  lemma CloseElsewhere(s: State, a: Actor, i: RowId)
    requires a in s.pcs && i in s.w.db.rows && !Writes(s, Advance(a, Fine), i)
    ensures var rows' := CloseEffect(s, a, s.pcs[a]).w.db.rows; i in rows' && rows'[i] == s.w.db.rows[i]
  {
  }

  lemma CreateElsewhere(s: State, a: Actor, ttl: int, i: RowId)
    requires a in s.pcs && PcOk(s.w, a, s.pcs[a], ttl) && Open(s.w.db, i) && i in s.w.born
    ensures var rows' := CreateEffect(s, a, s.pcs[a], ttl).w.db.rows; i in rows' ==> rows'[i] == s.w.db.rows[i]
  {
  }

  lemma {:induction false} UntouchedStays(s: State, acts: seq<Action>, ttl: int, i: RowId)
    requires Inv(s, ttl) && Stranded(s, i) && Untouched(s, acts, ttl, i)
    ensures var s' := Exec(s, acts, ttl); i in s'.w.db.rows && s'.w.db.rows[i] == s.w.db.rows[i]
    decreases |acts|
  {
    if acts != [] {
      StepKeeps(s, acts[0], ttl);
      LetGoStays(s, acts[0], ttl, i);
      ActorInformed(s, acts[0], ttl);
      UntouchedRow(s, acts[0], ttl, i);
      UntouchedStays(Step(s, acts[0], ttl), acts[1..], ttl, i);
    }
  }

  /**
   * A stranded row never gets an owner again and, as long as it is in flight, keeps its live key; it does not change at
   * all unless somebody cancels it or a delivery that outlived its job still writes. A row that was never on the queue
   * has no deliveries: it stays queued until it is canceled.
   */
  lemma StrandedForEver(t0: int, acts: seq<Action>, more: seq<Action>, ttl: int, i: RowId)
    requires Stranded(Exec(Init(t0), acts, ttl), i)
    ensures var s := Exec(Init(t0), acts, ttl); var s' := Exec(s, more, ttl);
      && LetGo(s', i) && i in s'.w.minted
      && (Open(s'.w.db, i) ==> s'.w.db.rows[i].key == Live(s'.w.minted[i].hash))
      && (Untouched(s, more, ttl, i) ==> s'.w.db.rows[i] == s.w.db.rows[i])
      && (i !in s'.w.jobs ==> s'.w.db.rows[i].status.Queued? || s'.w.db.rows[i].status.Canceled?)
  {
    var s := Exec(Init(t0), acts, ttl);
    InitKeeps(t0, acts, ttl);
    RunKeeps(s, more, ttl);
    RunLetsGo(s, more, ttl, i);
    if Untouched(s, more, ttl, i) { UntouchedStays(s, more, ttl, i); }
    LiveKey(Exec(s, more, ttl).w, i, ttl);
  }

  lemma LiveKey(w: World, i: RowId, ttl: int)
    requires WorldOk(w, ttl)
    ensures Open(w.db, i) ==> w.db.rows[i].key == Live(w.minted[i].hash)
  {
    if Open(w.db, i) { assert KeyOk(w.db.rows[i].key, i, w.minted[i].hash); }
  }

  /** However old it is, every identical request that meets a stranded row is answered with it. */
  lemma StrandedAnswers(s: State, ttl: int, i: RowId, b: Actor, id: RowId)
    requires Inv(s, ttl) && Stranded(s, i)
    requires b in s.pcs && s.pcs[b] == CFind(s.w.minted[i].hash, id)
    ensures var s' := Exec(s, [Advance(b, Fine), Advance(b, Fine), Advance(b, Fine)], ttl);
      b in s'.pcs && s'.pcs[b] == CDone(s.w.minted[i].hash, i) && LetGo(s', i)
  {
    var h, r := s.w.minted[i].hash, s.w.db.rows[i];
    StrandedFound(s, ttl, i, b, id);
    var s1 := At(s, b, CDecide(h, id, i, r));
    StrandedDecided(s1, ttl, h, i, b, id, r);
    Three(s, Advance(b, Fine), Advance(b, Fine), Advance(b, Fine), ttl);
    RunLetsGo(s, [Advance(b, Fine), Advance(b, Fine), Advance(b, Fine)], ttl, i);
  }

  lemma StrandedFound(s: State, ttl: int, i: RowId, b: Actor, id: RowId)
    requires Inv(s, ttl) && Open(s.w.db, i)
    requires b in s.pcs && s.pcs[b] == CFind(s.w.minted[i].hash, id)
    ensures Step(s, Advance(b, Fine), ttl) == At(s, b, CDecide(s.w.minted[i].hash, id, i, s.w.db.rows[i]))
  {
    LiveKey(s.w, i, ttl);
    assert Holder(s.w.db, Live(s.w.minted[i].hash)) == Some(i);
  }

  lemma StrandedDecided(s: State, ttl: int, h: Hash, i: RowId, b: Actor, id: RowId, r: Row)
    requires b in s.pcs && s.pcs[b] == CDecide(h, id, i, r) && !Terminal(r.status)
    ensures var s' := Step(Step(s, Advance(b, Fine), ttl), Advance(b, Fine), ttl); b in s'.pcs && s'.pcs[b] == CDone(h, i)
  {
    assert Step(s, Advance(b, Fine), ttl) == At(s, b, CRecache(h, i, r.createdAt));
  }

  lemma Three(s: State, x: Action, y: Action, z: Action, ttl: int)
    ensures Exec(s, [x, y, z], ttl) == Step(Step(Step(s, x, ttl), y, ttl), z, ttl)
  {
    FirstThen(s, x, [y, z], ttl);
    FirstThen(Step(s, x, ttl), y, [z], ttl);
    FirstThen(Step(Step(s, x, ttl), y, ttl), z, [], ttl);
    assert [x] + [y, z] == [x, y, z] && [y] + [z] == [y, z] && [z] + [] == [z];
  }

  /** A first request has minted its id; then its row is in the table. */
  function Asked(): State {
    State(World(Db(map[], map[]), 0, {}, {}, map[7 := Mint("h", 0)], {}, map[]), map[], map[0 := CInsert("h", 7)])
  }

  function Inserted(jobs: set<RowId>, pc: Pc): State {
    State(World(Db(map[7 := NewRow("h", 0)], map[]), 0, jobs, {}, map[7 := Mint("h", 0)], {7}, map[]), map[], map[0 := pc])
  }

  lemma AskedAndInserted(ttl: int)
    ensures Step(Init(0), StartCreate(0, "h", 7), ttl) == Asked()
    ensures Step(Asked(), Advance(0, Fine), ttl) == Inserted({}, CEnqueue("h", 7))
    ensures Step(Asked(), Advance(0, LostAfter), ttl) == Inserted({}, Thrown)
  {
    assert !Taken(Asked().w.db, Live("h"));
  }

  lemma AddFails(ttl: int)
    ensures Step(Inserted({}, CEnqueue("h", 7)), Advance(0, LostBefore), ttl) == Inserted({}, CUndo("h", 7))
    ensures Step(Inserted({}, CEnqueue("h", 7)), Advance(0, LostAfter), ttl) == Inserted({7}, CUndo("h", 7))
  {
    assert {} + {7} == {7};
  }

  lemma CreatorGone(ttl: int)
    ensures Step(Inserted({}, CEnqueue("h", 7)), Die(0), ttl) == Inserted({}, Gone)
    ensures Step(Inserted({}, CUndo("h", 7)), Advance(0, LostBefore), ttl) == Inserted({}, Thrown)
  {
  }

  /** Each way of a creator to leave does strand a queued row: the insert's answer is lost, it dies, its undo fails. */
  lemma StrandingRuns(ttl: int, tail: seq<Action>)
    requires tail == [Advance(0, LostAfter)] || tail == [Advance(0, Fine), Die(0)]
             || tail == [Advance(0, Fine), Advance(0, LostBefore), Advance(0, LostBefore)]
    ensures var s := Exec(Init(0), [StartCreate(0, "h", 7)] + tail, ttl); Stranded(s, 7) && s.w.db.rows[7].status.Queued?
  {
    AskedAndInserted(ttl);
    AddFails(ttl);
    CreatorGone(ttl);
    FirstThen(Init(0), StartCreate(0, "h", 7), tail, ttl);
    if |tail| == 1 {
      One(Asked(), tail[0], ttl);
    } else if |tail| == 2 {
      assert tail == [tail[0]] + [tail[1]];
      FirstThen(Asked(), tail[0], [tail[1]], ttl);
      One(Step(Asked(), tail[0], ttl), tail[1], ttl);
    } else {
      Three(Asked(), tail[0], tail[1], tail[2], ttl);
    }
  }

  lemma JobAdded(ttl: int)
    ensures Step(Inserted({}, CEnqueue("h", 7)), Advance(0, Fine), ttl) == Inserted({7}, CCache("h", 7))
  {
    assert {} + {7} == {7};
  }

  /** So does a job whose writes are lost while it fails for good: the row stays queued, or running if it got that far. */
  lemma LostWritesStrand(ttl: int, running: bool)
    ensures var s := Exec(Init(0), [StartCreate(0, "h", 7), Advance(0, Fine), Advance(0, Fine)]
                                   + if running then [MarkRunning(7), JobOver(7)] else [JobOver(7)], ttl);
      Stranded(s, 7) && s.w.db.rows[7].status == if running then Running else Queued
  {
    var start := [StartCreate(0, "h", 7), Advance(0, Fine), Advance(0, Fine)];
    var s := Inserted({7}, CCache("h", 7));
    AskedAndInserted(ttl);
    JobAdded(ttl);
    Three(Init(0), StartCreate(0, "h", 7), Advance(0, Fine), Advance(0, Fine), ttl);
    if running {
      ExecAppends(Init(0), start, [MarkRunning(7), JobOver(7)], ttl);
      assert [MarkRunning(7), JobOver(7)] == [MarkRunning(7)] + [JobOver(7)];
      FirstThen(s, MarkRunning(7), [JobOver(7)], ttl);
      One(Step(s, MarkRunning(7), ttl), JobOver(7), ttl);
    } else {
      ExecAppends(Init(0), start, [JobOver(7)], ttl);
      One(s, JobOver(7), ttl);
    }
  }

  lemma One(s: State, x: Action, ttl: int)
    ensures Exec(s, [x], ttl) == Step(s, x, ttl)
  {
    FirstThen(s, x, [], ttl);
    assert [x] + [] == [x];
  }

  // ---------------------------------------------------------------- snapshots of deleted rows

  /** The analysis a snapshot belongs to is gone. */
  predicate Orphaned(s: State, k: SnapId) {
    k in s.w.db.snapshots && s.w.db.snapshots[k].analysis !in s.w.db.rows
  }

  /** In one step a snapshot is orphaned if and only if it was before or its row is undone. */
  lemma OrphanedIff(s: State, act: Action, ttl: int, k: SnapId)
    requires Inv(s, ttl)
    ensures Orphaned(Step(s, act, ttl), k) <==>
              Orphaned(s, k) || (k in s.w.db.snapshots && Undoes(s, act, s.w.db.snapshots[k].analysis))
  {
    StepEvolves(s, act, ttl);
    if k in s.w.db.snapshots {
      var i := s.w.db.snapshots[k].analysis;
      if i in s.w.db.rows { OnlyUndoDeletes(s, act, ttl, i); }
    } else {
      CommittedLinks(s, act, ttl, k);
    }
  }

  /** A snapshot is committed onto a row that exists. */
  lemma CommittedLinks(s: State, act: Action, ttl: int, k: SnapId)
    requires k !in s.w.db.snapshots
    ensures !Orphaned(Step(s, act, ttl), k)
  {
    if act.Advance? && act.a in s.pcs && Busy(s.pcs[act.a]) {
      if Closing(s.pcs[act.a]) { CloseLinks(s, act.a, k); } else { CreateKeepsSnapshots(s, act.a, ttl); }
    }
  }

  lemma CloseLinks(s: State, a: Actor, k: SnapId)
    requires a in s.pcs && k !in s.w.db.snapshots
    ensures !Orphaned(CloseEffect(s, a, s.pcs[a]), k)
  {
  }

  lemma CreateKeepsSnapshots(s: State, a: Actor, ttl: int)
    requires a in s.pcs
    ensures CreateEffect(s, a, s.pcs[a], ttl).w.db.snapshots == s.w.db.snapshots
  {
  }

  /** Some step of the run deletes, as a failed enqueue's undo, a row that already has snapshot `k`. */
  ghost predicate Unlinks(s: State, acts: seq<Action>, ttl: int, k: SnapId)
    decreases |acts|
  {
    acts != [] && ((k in s.w.db.snapshots && Undoes(s, acts[0], s.w.db.snapshots[k].analysis))
                   || Unlinks(Step(s, acts[0], ttl), acts[1..], ttl, k))
  }

  lemma {:induction false} RunOrphans(s: State, acts: seq<Action>, ttl: int, k: SnapId)
    requires Inv(s, ttl)
    ensures Orphaned(Exec(s, acts, ttl), k) <==> Orphaned(s, k) || Unlinks(s, acts, ttl, k)
    decreases |acts|
  {
    if acts != [] {
      StepKeeps(s, acts[0], ttl);
      OrphanedIff(s, acts[0], ttl, k);
      RunOrphans(Step(s, acts[0], ttl), acts[1..], ttl, k);
    }
  }

  /** A row may be undone only as long as its job was never added. */
  ghost predicate UndoesUnqueued(s: State) {
    forall a :: a in s.pcs && s.pcs[a].CUndo? ==> s.pcs[a].id !in s.w.jobs
  }

  /** The answer of a successful add is lost. */
  predicate LostAdd(s: State, act: Action) {
    act.Advance? && act.fault.LostAfter? && act.a in s.pcs && s.pcs[act.a].CEnqueue?
  }

  ghost predicate NoLostAdd(s: State, acts: seq<Action>, ttl: int)
    decreases |acts|
  {
    acts == [] || (!LostAdd(s, acts[0]) && NoLostAdd(Step(s, acts[0], ttl), acts[1..], ttl))
  }

  lemma UndoStaysUnqueued(s: State, act: Action, ttl: int, a: Actor)
    requires Inv(s, ttl) && UndoesUnqueued(s) && !LostAdd(s, act)
    requires a in Step(s, act, ttl).pcs && Step(s, act, ttl).pcs[a].CUndo?
    ensures Step(s, act, ttl).pcs[a].id !in Step(s, act, ttl).w.jobs
  {
    if ActorOf(act) == Some(a) {
      OwnUndoUnqueued(s, act, ttl, a);
    } else {
      OthersUntouched(s, act, ttl, a);
      OthersAddOthers(s, act, ttl, a);
    }
  }

  lemma OwnUndoUnqueued(s: State, act: Action, ttl: int, a: Actor)
    requires Inv(s, ttl) && UndoesUnqueued(s) && !LostAdd(s, act) && ActorOf(act) == Some(a)
    requires a in Step(s, act, ttl).pcs && Step(s, act, ttl).pcs[a].CUndo?
    ensures Step(s, act, ttl).pcs[a].id !in Step(s, act, ttl).w.jobs
  {
    if act.Advance? && a in s.pcs && Busy(s.pcs[a]) {
      assert PcOk(s.w, a, s.pcs[a], ttl);
      NoUndoButByFailing(s, a, ttl);
    }
  }

  lemma NoUndoButByFailing(s: State, a: Actor, ttl: int)
    requires a in s.pcs && Busy(s.pcs[a])
    ensures var s' := Effect(s, a, s.pcs[a], ttl); a in s'.pcs && !s'.pcs[a].CUndo?
  {
  }

  lemma OthersAddOthers(s: State, act: Action, ttl: int, a: Actor)
    requires Inv(s, ttl) && ActorOf(act) != Some(a) && a in s.pcs && s.pcs[a].CUndo? && s.pcs[a].id !in s.w.jobs
    ensures s.pcs[a].id !in Step(s, act, ttl).w.jobs
  {
    StepEvolves(s, act, ttl);
    assert PcOk(s.w, a, s.pcs[a], ttl);
  }

  lemma {:induction false} RunLinks(s: State, acts: seq<Action>, ttl: int, k: SnapId)
    requires Inv(s, ttl) && UndoesUnqueued(s) && NoLostAdd(s, acts, ttl) && !Orphaned(s, k)
    ensures !Orphaned(Exec(s, acts, ttl), k)
    decreases |acts|
  {
    if acts != [] {
      var s' := Step(s, acts[0], ttl);
      StepKeeps(s, acts[0], ttl);
      OrphanedIff(s, acts[0], ttl, k);
      forall a | a in s'.pcs && s'.pcs[a].CUndo? ensures s'.pcs[a].id !in s'.w.jobs {
        UndoStaysUnqueued(s, acts[0], ttl, a);
      }
      RunLinks(s', acts[1..], ttl, k);
    }
  }

  /**
   * A snapshot loses its analysis exactly when a failed enqueue's undo deletes a row that already has it; and that
   * never happens unless the answer of a successful add was lost.
   */
  lemma OrphanedExactly(t0: int, acts: seq<Action>, ttl: int, k: SnapId)
    ensures Orphaned(Exec(Init(t0), acts, ttl), k) <==> Unlinks(Init(t0), acts, ttl, k)
    ensures NoLostAdd(Init(t0), acts, ttl) ==> !Orphaned(Exec(Init(t0), acts, ttl), k)
  {
    RunOrphans(Init(t0), acts, ttl, k);
    if NoLostAdd(Init(t0), acts, ttl) { RunLinks(Init(t0), acts, ttl, k); }
  }

  /** The worker completes the analysis before its creator, who saw the add fail, deletes the row. */
  lemma LostAddOrphans(ttl: int)
    ensures Orphaned(Exec(Init(0), [StartCreate(0, "h", 7), Advance(0, Fine), Advance(0, LostAfter)] +
                                   [StartSave(1, 7, 9, 5, "c", FinalCompleted), Advance(1, Fine), Advance(0, Fine)], ttl), 9)
  {
    var save := StartSave(1, 7, 9, 5, "c", FinalCompleted);
    AskedAndInserted(ttl);
    AddFails(ttl);
    Three(Init(0), StartCreate(0, "h", 7), Advance(0, Fine), Advance(0, LostAfter), ttl);
    SavedWhileUndoing(ttl);
    var s := Step(Step(Inserted({7}, CUndo("h", 7)), save, ttl), Advance(1, Fine), ttl);
    UndoOrphans(s, 0, ttl, 9);
    Three(Inserted({7}, CUndo("h", 7)), save, Advance(1, Fine), Advance(0, Fine), ttl);
    ExecAppends(Init(0), [StartCreate(0, "h", 7), Advance(0, Fine), Advance(0, LostAfter)],
                [save, Advance(1, Fine), Advance(0, Fine)], ttl);
  }

  function Saving(): State {
    At(Inserted({7}, CUndo("h", 7)), 1, SCommit(7, 9, 5, "c", FinalCompleted))
      .(w := Inserted({7}, Gone).w.(spent := map[9 := 1]))
  }

  lemma SaveBegins(ttl: int)
    ensures Step(Inserted({7}, CUndo("h", 7)), StartSave(1, 7, 9, 5, "c", FinalCompleted), ttl) == Saving()
  {
  }

  lemma SaveCommits(ttl: int)
    ensures var s' := Step(Saving(), Advance(1, Fine), ttl);
      0 in s'.pcs && s'.pcs[0] == CUndo("h", 7) && 9 in s'.w.db.snapshots && s'.w.db.snapshots[9].analysis == 7
  {
  }

  lemma SavedWhileUndoing(ttl: int)
    ensures var s := Inserted({7}, CUndo("h", 7)); var save := StartSave(1, 7, 9, 5, "c", FinalCompleted);
      var s' := Step(Step(s, save, ttl), Advance(1, Fine), ttl);
      0 in s'.pcs && s'.pcs[0] == CUndo("h", 7) && 9 in s'.w.db.snapshots && s'.w.db.snapshots[9].analysis == 7
  {
    SaveBegins(ttl);
    SaveCommits(ttl);
  }

  lemma UndoOrphans(s: State, a: Actor, ttl: int, k: SnapId)
    requires a in s.pcs && s.pcs[a].CUndo? && k in s.w.db.snapshots && s.w.db.snapshots[k].analysis == s.pcs[a].id
    ensures Orphaned(Step(s, Advance(a, Fine), ttl), k)
  {
  }

  lemma {:induction false} ExecAppends(s: State, xs: seq<Action>, ys: seq<Action>, ttl: int)
    ensures Exec(s, xs + ys, ttl) == Exec(Exec(s, xs, ttl), ys, ttl)
    decreases |xs|
  {
    if xs == [] {
      assert xs + ys == ys;
    } else {
      assert (xs + ys)[1..] == xs[1..] + ys;
      ExecAppends(Step(s, xs[0], ttl), xs[1..], ys, ttl);
    }
  }
}
