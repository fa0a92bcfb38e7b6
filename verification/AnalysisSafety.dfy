/** What the lifecycle guarantees over every interleaving of its actors. */
module AnalysisSafety {
  import opened Base
  import opened AnalysisLifecycle

  lemma {:induction false} RunKeeps(s: State, acts: seq<Action>, ttl: int)
    requires Inv(s, ttl)
    ensures Inv(Exec(s, acts, ttl), ttl)
    decreases |acts|
  {
    if acts != [] {
      StepKeeps(s, acts[0], ttl);
      RunKeeps(Step(s, acts[0], ttl), acts[1..], ttl);
    }
  }

  lemma InitKeeps(t0: int, acts: seq<Action>, ttl: int)
    ensures Inv(Exec(Init(t0), acts, ttl), ttl)
  {
    RunKeeps(Init(t0), acts, ttl);
  }

  /** However creates, cancels, deliveries, errors and deaths interleave, a request has at most one analysis in flight. */
  lemma OneInFlightPerRequest(t0: int, acts: seq<Action>, ttl: int, i: RowId, j: RowId)
    requires var w := Exec(Init(t0), acts, ttl).w;
      && i in w.db.rows && j in w.db.rows
      && !Terminal(w.db.rows[i].status) && !Terminal(w.db.rows[j].status)
      && w.db.rows[i].key.hash == w.db.rows[j].key.hash
    ensures i == j
  {
    InitKeeps(t0, acts, ttl);
    var w := Exec(Init(t0), acts, ttl).w;
    assert KeyOk(w.db.rows[i].key, i, w.minted[i].hash) && KeyOk(w.db.rows[j].key, j, w.minted[j].hash);
  }

  /** Within the freshness window of a row no second row of the same request exists. */
  lemma RowsOfOneRequestApart(t0: int, acts: seq<Action>, ttl: int, i: RowId, j: RowId)
    requires var w := Exec(Init(t0), acts, ttl).w;
      i in w.db.rows && j in w.db.rows && i != j && w.db.rows[i].key.hash == w.db.rows[j].key.hash
    ensures var w := Exec(Init(t0), acts, ttl).w;
      var gap := w.db.rows[i].createdAt - w.db.rows[j].createdAt;
      gap > ttl || -gap > ttl
  {
    InitKeeps(t0, acts, ttl);
    var w := Exec(Init(t0), acts, ttl).w;
    assert Apart(w.db.rows[i], w.db.rows[j], ttl);
  }

  /** `create` only ever answers with an id minted for the caller's own request, cached or not. */
  lemma AnswersOwnRequest(t0: int, acts: seq<Action>, ttl: int, a: Actor)
    requires var s := Exec(Init(t0), acts, ttl); a in s.pcs && s.pcs[a].CDone?
    ensures var s := Exec(Init(t0), acts, ttl); MintedFor(s.w, s.pcs[a].answer, s.pcs[a].hash)
  {
    InitKeeps(t0, acts, ttl);
    var s := Exec(Init(t0), acts, ttl);
    assert PcOk(s.w, a, s.pcs[a], ttl);
  }

  /** A snapshot is linked exactly when the status says so, and then progress shows the final frame. */
  lemma SnapshotMatchesStatus(t0: int, acts: seq<Action>, ttl: int, i: RowId)
    requires i in Exec(Init(t0), acts, ttl).w.db.rows
    ensures var db := Exec(Init(t0), acts, ttl).w.db; var r := db.rows[i];
      && (r.snapshot.Some? <==> r.status.Completed? || r.status.Partial?)
      && (r.snapshot.Some? ==> r.snapshot.value in db.snapshots)
      && (r.status.Completed? ==> r.progress == Progress(Intent, 100, Some(db.snapshots[r.snapshot.value].count)))
      && (r.status.Partial? ==> r.progress == Progress(Metrics, 60, Some(db.snapshots[r.snapshot.value].count)))
  {
    InitKeeps(t0, acts, ttl);
    var w := Exec(Init(t0), acts, ttl).w;
    assert RowSnapshotOk(w.db.rows[i], i, w.db.snapshots);
  }

  /** No duplicate: at most one snapshot per analysis, and it is linked exactly as long as the analysis' row exists. */
  lemma EverySnapshotLinked(t0: int, acts: seq<Action>, ttl: int, k: SnapId, m: SnapId)
    requires var db := Exec(Init(t0), acts, ttl).w.db; k in db.snapshots && m in db.snapshots
    ensures var db := Exec(Init(t0), acts, ttl).w.db; var id := db.snapshots[k].analysis;
      && (id in db.rows <==> exists i :: i in db.rows && db.rows[i].snapshot == Some(k))
      && (id in db.rows ==> db.rows[id].snapshot == Some(k))
      && (db.snapshots[m].analysis == id ==> k == m)
  {
    InitKeeps(t0, acts, ttl);
    var w := Exec(Init(t0), acts, ttl).w;
    assert Linked(w.db.rows, w.db.snapshots[k], k);
    forall i | i in w.db.rows && w.db.rows[i].snapshot == Some(k) ensures i == w.db.snapshots[k].analysis {
      assert RowSnapshotOk(w.db.rows[i], i, w.db.snapshots);
    }
  }

  // ---------------------------------------------------------------- terminal is absorbing

  /** Row `id` was once seen as the terminal `r`; as long as it exists nothing but its archived key may differ since. */
  predicate Settled(w: World, id: RowId, r: Row) {
    id in w.born && (id in w.db.rows ==> w.db.rows[id] == r.(key := w.db.rows[id].key))
  }

  lemma {:induction false} RunSettles(s: State, acts: seq<Action>, ttl: int, id: RowId, r: Row)
    requires Inv(s, ttl) && Settled(s.w, id, r) && Terminal(r.status)
    ensures Settled(Exec(s, acts, ttl).w, id, r)
    decreases |acts|
  {
    if acts != [] {
      StepKeeps(s, acts[0], ttl);
      StepEvolves(s, acts[0], ttl);
      RunSettles(Step(s, acts[0], ttl), acts[1..], ttl, id, r);
    }
  }

  /** The creator of a row is about to enqueue it or to delete it again. */
  predicate HeldBy(pcs: map<Actor, Pc>, m: Mint, id: RowId) {
    m.creator in pcs && (pcs[m.creator] == CEnqueue(m.hash, id) || pcs[m.creator] == CUndo(m.hash, id))
  }

  /** The row exists and its creator has let go of it. */
  predicate Kept(s: State, id: RowId) {
    id in s.w.db.rows && id in s.w.minted && !HeldBy(s.pcs, s.w.minted[id], id)
  }

  /** The one operation that removes a row: its creator's compensating delete, when it takes effect. */
  ghost predicate Undoes(s: State, act: Action, id: RowId) {
    act.Advance? && act.a in s.pcs && s.pcs[act.a].CUndo? && s.pcs[act.a].id == id && !act.fault.LostBefore?
  }

  lemma OnlyUndoDeletes(s: State, act: Action, ttl: int, id: RowId)
    requires id in s.w.db.rows
    ensures id !in Step(s, act, ttl).w.db.rows <==> Undoes(s, act, id)
  {
    if act.Advance? && act.a in s.pcs && Busy(s.pcs[act.a]) {
      EffectDeletes(s, act.a, ttl, id);
    }
  }

  lemma EffectDeletes(s: State, a: Actor, ttl: int, id: RowId)
    requires a in s.pcs && id in s.w.db.rows
    ensures id !in Effect(s, a, s.pcs[a], ttl).w.db.rows <==> s.pcs[a].CUndo? && s.pcs[a].id == id
  {
  }

  /** An actor's step moves nobody else. */
  lemma OthersMove(s: State, b: Actor, fault: Fault, ttl: int, a: Actor)
    requires b in s.pcs && a != b
    ensures var s' := AdvanceStep(s, b, s.pcs[b], fault, ttl); (a in s'.pcs <==> a in s.pcs) && (a in s.pcs ==> s'.pcs[a] == s.pcs[a])
  {
    if Closing(s.pcs[b]) { CloseMoves(s, b, ttl); } else { CreateMoves(s, b, ttl); }
  }

  /** An action moves nobody but its own actor. */
  lemma OthersUntouched(s: State, act: Action, ttl: int, a: Actor)
    requires ActorOf(act) != Some(a)
    ensures var s' := Step(s, act, ttl); (a in s'.pcs <==> a in s.pcs) && (a in s.pcs ==> s'.pcs[a] == s.pcs[a])
  {
    if act.Advance? && act.a in s.pcs && Busy(s.pcs[act.a]) { OthersMove(s, act.a, act.fault, ttl, a); }
  }

  lemma CloseMoves(s: State, b: Actor, ttl: int)
    requires b in s.pcs
    ensures var s' := CloseEffect(s, b, s.pcs[b]); b in s'.pcs && s'.pcs == s.pcs[b := s'.pcs[b]]
  {
    assert s.pcs[b := s.pcs[b]] == s.pcs;
  }

  lemma CreateMoves(s: State, b: Actor, ttl: int)
    requires b in s.pcs
    ensures var s' := CreateEffect(s, b, s.pcs[b], ttl); b in s'.pcs && s'.pcs == s.pcs[b := s'.pcs[b]]
  {
    assert s.pcs[b := s.pcs[b]] == s.pcs;
  }

  /** The acting actor knows what its position says. */
  ghost predicate Informed(s: State, act: Action, ttl: int) {
    act.Advance? && act.a in s.pcs ==> PcOk(s.w, act.a, s.pcs[act.a], ttl)
  }

  lemma ActorInformed(s: State, act: Action, ttl: int)
    requires PcsOk(s, ttl)
    ensures Informed(s, act, ttl)
  {
  }

  /** An operation makes its actor the holder of a new row at most. */
  lemma EffectHoldsNew(s: State, a: Actor, ttl: int, id: RowId, h: Hash)
    requires a in s.pcs && Busy(s.pcs[a]) && PcOk(s.w, a, s.pcs[a], ttl) && id in s.w.born
    ensures var s' := Effect(s, a, s.pcs[a], ttl); a in s'.pcs && s'.pcs[a] != CEnqueue(h, id) && s'.pcs[a] != CUndo(h, id)
  {
    if Closing(s.pcs[a]) { CloseMoves(s, a, ttl); } else { CreateMoves(s, a, ttl); }
  }

  lemma AdvanceHoldsNew(s: State, a: Actor, fault: Fault, ttl: int, id: RowId, h: Hash)
    requires a in s.pcs && Busy(s.pcs[a]) && PcOk(s.w, a, s.pcs[a], ttl) && id in s.w.born
    ensures var s' := AdvanceStep(s, a, s.pcs[a], fault, ttl);
      a in s'.pcs && (s'.pcs[a] == CEnqueue(h, id) || s'.pcs[a] == CUndo(h, id) ==> s.pcs[a] == CEnqueue(h, id))
  {
    EffectHoldsNew(s, a, ttl, id, h);
  }

  /** Nobody gets hold of a row that already exists. */
  lemma HoldersOnlyLeave(s: State, act: Action, ttl: int, m: Mint, id: RowId)
    requires Informed(s, act, ttl) && id in s.w.born && HeldBy(Step(s, act, ttl).pcs, m, id)
    ensures HeldBy(s.pcs, m, id)
  {
    if act.Advance? && act.a in s.pcs && Busy(s.pcs[act.a]) {
      AdvanceHoldsNew(s, act.a, act.fault, ttl, id, m.hash);
      if act.a != m.creator { OthersMove(s, act.a, act.fault, ttl, m.creator); }
    }
  }

  lemma KeptNotTaken(s: State, act: Action, ttl: int, id: RowId)
    requires Inv(s, ttl) && Kept(s, id)
    ensures !HeldBy(Step(s, act, ttl).pcs, s.w.minted[id], id)
  {
    ActorInformed(s, act, ttl);
    if HeldBy(Step(s, act, ttl).pcs, s.w.minted[id], id) {
      HoldersOnlyLeave(s, act, ttl, s.w.minted[id], id);
      assert false;
    }
  }

  /** Only the creator that still holds a row can delete it. */
  lemma KeptNotUndone(s: State, act: Action, ttl: int, id: RowId)
    requires Inv(s, ttl) && Kept(s, id)
    ensures !Undoes(s, act, id)
  {
    assert PcsOk(s, ttl);
    assert act.Advance? && act.a in s.pcs ==> PcOk(s.w, act.a, s.pcs[act.a], ttl);
  }

  lemma KeptStays(s: State, act: Action, ttl: int, id: RowId)
    requires Inv(s, ttl) && Kept(s, id)
    ensures Kept(Step(s, act, ttl), id)
  {
    StepEvolves(s, act, ttl);
    OnlyUndoDeletes(s, act, ttl, id);
    KeptNotUndone(s, act, ttl, id);
    KeptNotTaken(s, act, ttl, id);
  }

  lemma {:induction false} RunKeepsRow(s: State, acts: seq<Action>, ttl: int, id: RowId)
    requires Inv(s, ttl) && Kept(s, id)
    ensures Kept(Exec(s, acts, ttl), id)
    decreases |acts|
  {
    if acts != [] {
      StepKeeps(s, acts[0], ttl);
      KeptStays(s, acts[0], ttl, id);
      RunKeepsRow(Step(s, acts[0], ttl), acts[1..], ttl, id);
    }
  }

  /**
   * Once a row is terminal no cancel, failure, progress mirror or later save changes its status, progress or
   * snapshot; and once its creator has let go of it the row never disappears.
   */
  lemma TerminalIsAbsorbing(t0: int, acts: seq<Action>, more: seq<Action>, ttl: int, id: RowId)
    requires var w := Exec(Init(t0), acts, ttl).w; id in w.db.rows && Terminal(w.db.rows[id].status)
    ensures var s := Exec(Init(t0), acts, ttl);
      var before, after := s.w.db.rows[id], Exec(s, more, ttl).w.db.rows;
      && (id in after ==> after[id].status == before.status && after[id].progress == before.progress
                          && after[id].snapshot == before.snapshot)
      && (Kept(s, id) ==> id in after)
  {
    InitKeeps(t0, acts, ttl);
    var s := Exec(Init(t0), acts, ttl);
    RunSettles(s, more, ttl, id, s.w.db.rows[id]);
    if Kept(s, id) { RunKeepsRow(s, more, ttl, id); }
  }

  // ---------------------------------------------------------------- what callers were told stays true

  lemma AnswerStays(s: State, act: Action, ttl: int, a: Actor)
    requires a in s.pcs && !Busy(s.pcs[a])
    ensures a in Step(s, act, ttl).pcs && Step(s, act, ttl).pcs[a] == s.pcs[a]
  {
    if act.Advance? && act.a in s.pcs && Busy(s.pcs[act.a]) {
      OthersMove(s, act.a, act.fault, ttl, a);
    }
  }

  lemma {:induction false} AnswersStay(s: State, acts: seq<Action>, ttl: int, a: Actor)
    requires a in s.pcs && !Busy(s.pcs[a])
    ensures a in Exec(s, acts, ttl).pcs && Exec(s, acts, ttl).pcs[a] == s.pcs[a]
    decreases |acts|
  {
    if acts != [] {
      AnswerStays(s, acts[0], ttl, a);
      AnswersStay(Step(s, acts[0], ttl), acts[1..], ttl, a);
    }
  }

  lemma SavesAgree(db: Db, id: RowId, o: Outcome, p: Outcome)
    requires OneEach(db.snapshots) && Told(db, id, o) && Told(db, id, p)
    ensures o.snapshot.Some? && p.snapshot.Some? ==> o == p
    ensures id in db.rows ==> o == p == TerminalOutcome(db, id)
  {
  }

  /**
   * Whatever `saveResult` returned stays the truth: any two saves of one analysis, at any times, that returned a
   * snapshot returned the same id, count and checksum; and while the row exists both returned what the row links.
   */
  lemma SaveAnswersStand(t0: int, acts: seq<Action>, more: seq<Action>, ttl: int, a: Actor, b: Actor)
    requires var s := Exec(Init(t0), acts, ttl); a in s.pcs && s.pcs[a].SDone?
    requires var s' := Exec(Exec(Init(t0), acts, ttl), more, ttl);
      b in s'.pcs && s'.pcs[b].SDone? && s'.pcs[b].job == Exec(Init(t0), acts, ttl).pcs[a].job
    ensures var told := Exec(Init(t0), acts, ttl).pcs[a];
      var s' := Exec(Exec(Init(t0), acts, ttl), more, ttl);
      && (told.outcome.snapshot.Some? && s'.pcs[b].outcome.snapshot.Some? ==> s'.pcs[b].outcome == told.outcome)
      && (told.job in s'.w.db.rows ==>
            s'.pcs[b].outcome == told.outcome == TerminalOutcome(s'.w.db, told.job)
            && s'.w.db.rows[told.job].snapshot == told.outcome.snapshot)
  {
    var s := Exec(Init(t0), acts, ttl);
    var s' := Exec(s, more, ttl);
    InitKeeps(t0, acts, ttl);
    RunKeeps(s, more, ttl);
    AnswersStay(s, more, ttl, a);
    SaveAnswersAgree(s', ttl, a, b);
  }

  lemma SaveAnswersAgree(s: State, ttl: int, a: Actor, b: Actor)
    requires Inv(s, ttl) && a in s.pcs && b in s.pcs && s.pcs[a].SDone? && s.pcs[b].SDone? && s.pcs[b].job == s.pcs[a].job
    ensures s.pcs[a].outcome.snapshot.Some? && s.pcs[b].outcome.snapshot.Some? ==> s.pcs[b].outcome == s.pcs[a].outcome
    ensures s.pcs[a].job in s.w.db.rows ==>
              s.pcs[b].outcome == s.pcs[a].outcome == TerminalOutcome(s.w.db, s.pcs[a].job)
              && s.w.db.rows[s.pcs[a].job].snapshot == s.pcs[a].outcome.snapshot
  {
    assert PcOk(s.w, a, s.pcs[a], ttl) && PcOk(s.w, b, s.pcs[b], ttl);
    ToldAgree(s.w.db, s.w.spent, s.w.jobs, s.pcs[a].job, s.pcs[a].outcome, s.pcs[b].outcome);
  }

  lemma ToldAgree(db: Db, spent: map<SnapId, Actor>, jobs: set<RowId>, id: RowId, o: Outcome, p: Outcome)
    requires SnapshotsOk(db, spent, jobs) && Told(db, id, o) && Told(db, id, p)
    ensures o.snapshot.Some? && p.snapshot.Some? ==> p == o
    ensures id in db.rows ==> p == o == TerminalOutcome(db, id) && db.rows[id].snapshot == o.snapshot
  {
    SavesAgree(db, id, o, p);
    if id in db.rows { LinkTold(db, spent, jobs, id); }
  }

  lemma LinkTold(db: Db, spent: map<SnapId, Actor>, jobs: set<RowId>, id: RowId)
    requires SnapshotsOk(db, spent, jobs) && id in db.rows
    ensures db.rows[id].snapshot == TerminalOutcome(db, id).snapshot
  {
    assert RowSnapshotOk(db.rows[id], id, db.snapshots);
  }

  /**
   * The save that commits first fixes the result for good: its own count and checksum, under its own id, with its
   * final status for as long as the row exists; and the row exists for good once its creator has let go of it.
   */
  lemma FirstCommitWins(t0: int, acts: seq<Action>, more: seq<Action>, ttl: int, a: Actor)
    requires var s := Exec(Init(t0), acts, ttl); a in s.pcs && s.pcs[a].SCommit? && Open(s.w.db, s.pcs[a].job)
    ensures var s := Exec(Init(t0), acts, ttl); var pc := s.pcs[a];
      var db := Exec(Step(s, Advance(a, Fine), ttl), more, ttl).w.db;
      && pc.sid in db.snapshots && db.snapshots[pc.sid] == Snapshot(pc.job, pc.count, pc.checksum)
      && (pc.job in db.rows ==>
            TerminalOutcome(db, pc.job) == Outcome(Some(pc.sid), pc.count, pc.checksum)
            && db.rows[pc.job].status == if pc.final.FinalPartial? then Partial else Completed)
      && (Kept(s, pc.job) ==> pc.job in db.rows)
  {
    var s := Exec(Init(t0), acts, ttl);
    InitKeeps(t0, acts, ttl);
    CommitDone(s, a, ttl);
    StepKeeps(s, Advance(a, Fine), ttl);
    if Kept(s, s.pcs[a].job) { KeptStays(s, Advance(a, Fine), ttl, s.pcs[a].job); }
    CommittedStays(Step(s, Advance(a, Fine), ttl), more, ttl, a);
  }

  /** What a save that has committed finds at any later time. */
  lemma CommittedStays(s: State, more: seq<Action>, ttl: int, a: Actor)
    requires Inv(s, ttl) && a in s.pcs && s.pcs[a].SDone? && s.pcs[a].outcome.snapshot.Some?
    requires s.pcs[a].job in s.w.db.rows
    ensures var pc := s.pcs[a]; var db := Exec(s, more, ttl).w.db;
      && pc.outcome.snapshot.value in db.snapshots
      && db.snapshots[pc.outcome.snapshot.value] == Snapshot(pc.job, pc.outcome.count, pc.outcome.checksum)
      && (pc.job in db.rows ==> TerminalOutcome(db, pc.job) == pc.outcome && db.rows[pc.job].status == s.w.db.rows[pc.job].status)
      && (Kept(s, pc.job) ==> pc.job in db.rows)
  {
    var pc := s.pcs[a];
    assert PcOk(s.w, a, pc, ttl);
    AnswersStay(s, more, ttl, a);
    RunKeeps(s, more, ttl);
    var s' := Exec(s, more, ttl);
    assert PcOk(s'.w, a, s'.pcs[a], ttl);
    SettledNow(s, pc.job, ttl);
    RunSettles(s, more, ttl, pc.job, s.w.db.rows[pc.job]);
    if Kept(s, pc.job) { RunKeepsRow(s, more, ttl, pc.job); }
  }

  lemma FirstThen(s: State, act: Action, more: seq<Action>, ttl: int)
    ensures Exec(s, [act] + more, ttl) == Exec(Step(s, act, ttl), more, ttl)
  {
    assert ([act] + more)[1..] == more;
  }

  lemma CommitDone(s: State, a: Actor, ttl: int)
    requires a in s.pcs && s.pcs[a].SCommit? && Open(s.w.db, s.pcs[a].job)
    ensures var pc := s.pcs[a]; var s1 := Step(s, Advance(a, Fine), ttl);
      && a in s1.pcs && s1.pcs[a] == SDone(pc.job, Outcome(Some(pc.sid), pc.count, pc.checksum))
      && pc.job in s1.w.db.rows
      && s1.w.db.rows[pc.job].status == if pc.final.FinalPartial? then Partial else Completed
  {
  }

  lemma SettledNow(s: State, id: RowId, ttl: int)
    requires Inv(s, ttl) && id in s.w.db.rows && Terminal(s.w.db.rows[id].status)
    ensures Settled(s.w, id, s.w.db.rows[id])
  {
  }

  /** The status `cancel` reports is terminal and is the row's status at every later time. */
  lemma CancelAnswerStands(t0: int, acts: seq<Action>, more: seq<Action>, ttl: int, a: Actor)
    requires var s := Exec(Init(t0), acts, ttl); a in s.pcs && s.pcs[a].KDone?
    ensures var told := Exec(Init(t0), acts, ttl).pcs[a];
      var w := Exec(Exec(Init(t0), acts, ttl), more, ttl).w;
      Terminal(told.told) && (told.target in w.db.rows ==> w.db.rows[told.target].status == told.told)
  {
    var s := Exec(Init(t0), acts, ttl);
    var s' := Exec(s, more, ttl);
    InitKeeps(t0, acts, ttl);
    RunKeeps(s, more, ttl);
    AnswersStay(s, more, ttl, a);
    assert PcOk(s'.w, a, s'.pcs[a], ttl);
  }
}
