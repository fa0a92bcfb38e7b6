/**
 * What a call comes to when nothing fails and nobody comes in between: which analysis `create` answers with and what it
 * leaves behind, what `cancel` and `saveResult` do, what a worker's writes show.
 */
module AnalysisAnswers {
  import opened Base
  import opened AnalysisLifecycle
  import opened AnalysisSafety

  /** The next `n` operations of one actor, all ending normally. */
  ghost function Alone(s: State, a: Actor, n: nat, ttl: int): State
    decreases n
  {
    if n == 0 then s else Alone(Step(s, Advance(a, Fine), ttl), a, n - 1, ttl)
  }

  function Fines(a: Actor, n: nat): seq<Action> {
    if n == 0 then [] else [Advance(a, Fine)] + Fines(a, n - 1)
  }

  /** An undisturbed stretch is a run. */
  lemma {:induction false} AloneIsRun(s: State, a: Actor, n: nat, ttl: int)
    ensures Alone(s, a, n, ttl) == Exec(s, Fines(a, n), ttl)
    decreases n
  {
    if n > 0 {
      AloneIsRun(Step(s, Advance(a, Fine), ttl), a, n - 1, ttl);
      assert Fines(a, n)[1..] == Fines(a, n - 1);
    }
  }

  lemma {:induction false} AloneSplits(s: State, a: Actor, m: nat, n: nat, ttl: int)
    ensures Alone(s, a, m + n, ttl) == Alone(Alone(s, a, m, ttl), a, n, ttl)
    decreases m
  {
    if m > 0 { AloneSplits(Step(s, Advance(a, Fine), ttl), a, m - 1, n, ttl); }
  }

  /** An actor that is done does nothing more. */
  lemma {:induction false} DoneStays(s: State, a: Actor, n: nat, ttl: int)
    requires a in s.pcs && !Busy(s.pcs[a])
    ensures Alone(s, a, n, ttl) == s
    decreases n
  {
    if n > 0 { DoneStays(s, a, n - 1, ttl); }
  }

  lemma Once(s: State, a: Actor, ttl: int)
    ensures Alone(s, a, 1, ttl) == Step(s, Advance(a, Fine), ttl)
  {
    assert Alone(Step(s, Advance(a, Fine), ttl), a, 0, ttl) == Step(s, Advance(a, Fine), ttl);
  }

  // ---------------------------------------------------------------- create

  /** A new analysis of `h` under `id`, put on the queue and cached for a whole window. */
  ghost predicate Created(s: State, s': State, a: Actor, h: Hash, id: RowId, rows: map<RowId, Row>, ttl: int) {
    && s'.pcs == s.pcs[a := CDone(h, id)]
    && s'.w.db == Db(rows[id := Row(Live(h), Queued, Progress(Waiting, 0, None), s.w.now, None)], s.w.db.snapshots)
    && s'.w.jobs == s.w.jobs + {id} && s'.w.over == s.w.over && s'.w.now == s.w.now
    && s'.cache == s.cache[h := CacheEntry(id, s.w.now + ttl)]
  }

  /** Inserted already: the job is added, the answer cached and given. */
  lemma EnqueuesAndAnswers(s: State, a: Actor, h: Hash, id: RowId, ttl: int)
    requires a in s.pcs && s.pcs[a] == CEnqueue(h, id)
    ensures Alone(s, a, 2, ttl)
         == At(PutCache(s, h, id, ttl), a, CDone(h, id)).(w := s.w.(jobs := s.w.jobs + {id}))
  {
    var s1 := At(s, a, CCache(h, id)).(w := s.w.(jobs := s.w.jobs + {id}));
    assert Step(s, Advance(a, Fine), ttl) == s1;
    Once(s1, a, ttl);
    assert Step(s1, Advance(a, Fine), ttl) == At(PutCache(s1, h, id, ttl), a, CDone(h, id));
    assert s.pcs[a := CCache(h, id)][a := CDone(h, id)] == s.pcs[a := CDone(h, id)];
  }

  ghost function Inserted(s: State, a: Actor, h: Hash, id: RowId): State {
    var rows := s.w.db.rows[id := Row(Live(h), Queued, Progress(Waiting, 0, None), s.w.now, None)];
    State(s.w.(db := Db(rows, s.w.db.snapshots), born := s.w.born + {id}), s.cache, s.pcs[a := CEnqueue(h, id)])
  }

  lemma FreeKeyInserts(s: State, a: Actor, h: Hash, id: RowId, ttl: int)
    requires a in s.pcs && (s.pcs[a] == CInsert(h, id) || s.pcs[a] == CReinsert(h, id))
    requires forall i :: i in s.w.db.rows ==> s.w.db.rows[i].key != Live(h)
    ensures Step(s, Advance(a, Fine), ttl) == Inserted(s, a, h, id)
  {
  }

  lemma EnqueueCreates(s: State, a: Actor, h: Hash, id: RowId, n: nat, ttl: int)
    requires n >= 2 && a in s.pcs
    ensures Created(s, Alone(Inserted(s, a, h, id), a, n, ttl), a, h, id, s.w.db.rows, ttl)
  {
    var s1 := Inserted(s, a, h, id);
    EnqueuesAndAnswers(s1, a, h, id, ttl);
    AloneSplits(s1, a, 2, n - 2, ttl);
    DoneStays(Alone(s1, a, 2, ttl), a, n - 2, ttl);
    assert s.pcs[a := CEnqueue(h, id)][a := CDone(h, id)] == s.pcs[a := CDone(h, id)];
  }

  /** With the key free an insert goes through and the analysis is created. */
  lemma InsertCreates(s: State, a: Actor, h: Hash, id: RowId, n: nat, ttl: int)
    requires n >= 3 && a in s.pcs && (s.pcs[a] == CInsert(h, id) || s.pcs[a] == CReinsert(h, id))
    requires forall i :: i in s.w.db.rows ==> s.w.db.rows[i].key != Live(h)
    ensures Created(s, Alone(s, a, n, ttl), a, h, id, s.w.db.rows, ttl)
  {
    FreeKeyInserts(s, a, h, id, ttl);
    EnqueueCreates(s, a, h, id, n - 1, ttl);
  }

  /** The row that holds the digest, the only one. */
  ghost predicate Holds(rows: map<RowId, Row>, h: Hash, e: RowId) {
    e in rows && rows[e].key == Live(h) && forall i :: i in rows && rows[i].key == Live(h) ==> i == e
  }

  lemma OneHolds(rows: map<RowId, Row>, minted: map<RowId, Mint>, born: set<RowId>, h: Hash, e: RowId)
    requires KeysOk(rows, minted, born) && e in rows && rows[e].key == Live(h)
    ensures Holds(rows, h, e)
  {
  }

  lemma HolderIs(db: Db, h: Hash, e: RowId)
    requires Holds(db.rows, h, e)
    ensures Taken(db, Live(h)) && Holder(db, Live(h)) == Some(e)
  {
  }

  /** A refused insert reads the holder. */
  lemma RefusedInsertReads(s: State, a: Actor, h: Hash, id: RowId, e: RowId, ttl: int)
    requires a in s.pcs && s.pcs[a] == CInsert(h, id) && Holds(s.w.db.rows, h, e)
    ensures Alone(s, a, 2, ttl) == At(s, a, CDecide(h, id, e, s.w.db.rows[e]))
  {
    HolderIs(s.w.db, h, e);
    var s1 := At(s, a, CFind(h, id));
    assert Step(s, Advance(a, Fine), ttl) == s1;
    Once(s1, a, ttl);
    FoundIs(s1, a, h, id, e, ttl);
    assert s.pcs[a := CFind(h, id)][a := CDecide(h, id, e, s.w.db.rows[e])] == s.pcs[a := CDecide(h, id, e, s.w.db.rows[e])];
  }

  lemma FoundIs(s: State, a: Actor, h: Hash, id: RowId, e: RowId, ttl: int)
    requires a in s.pcs && s.pcs[a] == CFind(h, id) && Holder(s.w.db, Live(h)) == Some(e)
    ensures Step(s, Advance(a, Fine), ttl) == At(s, a, CDecide(h, id, e, s.w.db.rows[e]))
  {
  }

  /** A row within its window, or still in flight, is the answer; its cache entry ends with its window, and past it none is written. */
  lemma DecideAnswers(s: State, a: Actor, h: Hash, id: RowId, e: RowId, r: Row, ttl: int)
    requires a in s.pcs && s.pcs[a] == CDecide(h, id, e, r)
    requires s.w.now - r.createdAt <= ttl || r.status.Queued? || r.status.Running?
    ensures var s' := Alone(s, a, 2, ttl);
      && s'.pcs == s.pcs[a := CDone(h, e)] && s'.w == s.w
      && s'.cache == if s.w.now < r.createdAt + ttl then s.cache[h := CacheEntry(e, r.createdAt + ttl)] else s.cache
  {
    var s1 := At(s, a, CRecache(h, e, r.createdAt));
    assert Step(s, Advance(a, Fine), ttl) == s1;
    Once(s1, a, ttl);
    RecacheAnswers(s1, a, h, e, r.createdAt, ttl);
    assert s.pcs[a := CRecache(h, e, r.createdAt)][a := CDone(h, e)] == s.pcs[a := CDone(h, e)];
  }

  lemma RecacheAnswers(s: State, a: Actor, h: Hash, e: RowId, createdAt: int, ttl: int)
    requires a in s.pcs && s.pcs[a] == CRecache(h, e, createdAt)
    ensures var s' := Step(s, Advance(a, Fine), ttl);
      && s'.pcs == s.pcs[a := CDone(h, e)] && s'.w == s.w
      && s'.cache == if s.w.now < createdAt + ttl then s.cache[h := CacheEntry(e, createdAt + ttl)] else s.cache
  {
  }

  function Archived(rows: map<RowId, Row>, h: Hash, e: RowId): map<RowId, Row>
    requires e in rows
  {
    rows[e := rows[e].(key := Expired(h, e))]
  }

  function Rotated(s: State, a: Actor, h: Hash, id: RowId, e: RowId): State
    requires e in s.w.db.rows
  {
    State(s.w.(db := s.w.db.(rows := Archived(s.w.db.rows, h, e))), s.cache, s.pcs[a := CReinsert(h, id)])
  }

  lemma ExpiredDecides(s: State, a: Actor, h: Hash, id: RowId, e: RowId, r: Row, ttl: int)
    requires a in s.pcs && s.pcs[a] == CDecide(h, id, e, r)
    requires s.w.now - r.createdAt > ttl && !r.status.Queued? && !r.status.Running?
    ensures Step(s, Advance(a, Fine), ttl) == At(s, a, CRotate(h, id, e))
  {
  }

  lemma RotateArchives(s: State, a: Actor, h: Hash, id: RowId, e: RowId, ttl: int)
    requires a in s.pcs && s.pcs[a] == CRotate(h, id, e) && e in s.w.db.rows
    ensures Step(s, Advance(a, Fine), ttl) == Rotated(s, a, h, id, e)
  {
  }

  /** An expired row at its end gives up its key and keeps everything else. */
  lemma DecideArchives(s: State, a: Actor, h: Hash, id: RowId, e: RowId, r: Row, ttl: int)
    requires a in s.pcs && s.pcs[a] == CDecide(h, id, e, r) && e in s.w.db.rows
    requires s.w.now - r.createdAt > ttl && !r.status.Queued? && !r.status.Running?
    ensures Alone(s, a, 2, ttl) == Rotated(s, a, h, id, e)
  {
    var s1 := At(s, a, CRotate(h, id, e));
    ExpiredDecides(s, a, h, id, e, r, ttl);
    Once(s1, a, ttl);
    RotateArchives(s1, a, h, id, e, ttl);
    assert s.pcs[a := CRotate(h, id, e)][a := CReinsert(h, id)] == s.pcs[a := CReinsert(h, id)];
  }

  lemma ArchivedFrees(rows: map<RowId, Row>, h: Hash, e: RowId)
    requires Holds(rows, h, e)
    ensures forall i :: i in Archived(rows, h, e) ==> Archived(rows, h, e)[i].key != Live(h)
  {
  }

  /** ... and a new analysis is created. */
  lemma DecideRotates(s: State, a: Actor, h: Hash, id: RowId, e: RowId, r: Row, n: nat, ttl: int)
    requires n >= 5 && a in s.pcs && s.pcs[a] == CDecide(h, id, e, r) && Holds(s.w.db.rows, h, e)
    requires s.w.now - r.createdAt > ttl && !r.status.Queued? && !r.status.Running?
    ensures Created(s, Alone(s, a, n, ttl), a, h, id, Archived(s.w.db.rows, h, e), ttl)
  {
    var s2 := Rotated(s, a, h, id, e);
    DecideArchives(s, a, h, id, e, r, ttl);
    ArchivedFrees(s.w.db.rows, h, e);
    InsertCreates(s2, a, h, id, n - 2, ttl);
    AloneSplits(s, a, 2, n - 2, ttl);
    CreatedFrom(s, s2, Alone(s2, a, n - 2, ttl), a, h, id, s2.w.db.rows, ttl);
  }

  /** What happened before the insert shows in the rows alone. */
  lemma CreatedFrom(s: State, s2: State, s': State, a: Actor, h: Hash, id: RowId, rows: map<RowId, Row>, ttl: int)
    requires Created(s2, s', a, h, id, rows, ttl)
    requires a in s2.pcs && s2.pcs == s.pcs[a := s2.pcs[a]] && s2.cache == s.cache && s2.w.now == s.w.now
    requires s2.w.jobs == s.w.jobs && s2.w.over == s.w.over && s2.w.db.snapshots == s.w.db.snapshots
    ensures Created(s, s', a, h, id, rows, ttl)
  {
    assert s.pcs[a := s2.pcs[a]][a := CDone(h, id)] == s.pcs[a := CDone(h, id)];
  }

  /** A request that comes just behind another one's rotation is answered with the analysis the other one created. */
  lemma RaceLoserJoins(s: State, a: Actor, h: Hash, id: RowId, winner: RowId, ttl: int)
    requires a in s.pcs && s.pcs[a] == CReinsert(h, id) && Holds(s.w.db.rows, h, winner)
    ensures Alone(s, a, 3, ttl) == State(s.w, s.cache[h := CacheEntry(winner, s.w.now + ttl)], s.pcs[a := CDone(h, winner)])
  {
    var s1 := At(s, a, CFindWinner(h, id));
    var s2 := At(s1, a, CCacheWinner(h, winner));
    LoserReads(s, a, h, id, winner, ttl);
    AloneSplits(s, a, 2, 1, ttl);
    Once(s2, a, ttl);
    WinnerCached(s2, a, h, winner, ttl);
    assert s.pcs[a := CFindWinner(h, id)][a := CCacheWinner(h, winner)][a := CDone(h, winner)] == s.pcs[a := CDone(h, winner)];
  }

  lemma LoserReads(s: State, a: Actor, h: Hash, id: RowId, winner: RowId, ttl: int)
    requires a in s.pcs && s.pcs[a] == CReinsert(h, id) && Holds(s.w.db.rows, h, winner)
    ensures Alone(s, a, 2, ttl) == At(At(s, a, CFindWinner(h, id)), a, CCacheWinner(h, winner))
  {
    HolderIs(s.w.db, h, winner);
    var s1 := At(s, a, CFindWinner(h, id));
    assert Step(s, Advance(a, Fine), ttl) == s1;
    Once(s1, a, ttl);
  }

  lemma WinnerCached(s: State, a: Actor, h: Hash, winner: RowId, ttl: int)
    requires a in s.pcs && s.pcs[a] == CCacheWinner(h, winner)
    ensures Step(s, Advance(a, Fine), ttl)
         == State(s.w, s.cache[h := CacheEntry(winner, s.w.now + ttl)], s.pcs[a := CDone(h, winner)])
  {
  }

  /** `create` as a whole, alone: seven operations are enough. */
  ghost function Request(s: State, a: Actor, h: Hash, id: RowId, n: nat, ttl: int): State {
    Alone(Step(s, StartCreate(a, h, id), ttl), a, n, ttl)
  }

  /** A cache entry that has not run out is the answer, and nothing else happens. */
  lemma CachedAnswer(s: State, a: Actor, h: Hash, id: RowId, n: nat, ttl: int)
    requires a !in s.pcs && id !in s.w.minted && h in s.cache && s.w.now < s.cache[h].until
    ensures Request(s, a, h, id, n, ttl) == s.(pcs := s.pcs[a := CDone(h, s.cache[h].id)])
  {
    DoneStays(Step(s, StartCreate(a, h, id), ttl), a, n, ttl);
  }

  ghost predicate CacheMiss(s: State, h: Hash) {
    h in s.cache ==> s.w.now >= s.cache[h].until
  }

  /** The first step of a request that misses the cache. */
  function Minted(s: State, a: Actor, h: Hash, id: RowId): State {
    At(s, a, CInsert(h, id)).(w := s.w.(minted := s.w.minted[id := Mint(h, a)]))
  }

  lemma MissMints(s: State, a: Actor, h: Hash, id: RowId, n: nat, ttl: int)
    requires a !in s.pcs && id !in s.w.minted && CacheMiss(s, h)
    ensures Request(s, a, h, id, n, ttl) == Alone(Minted(s, a, h, id), a, n, ttl)
  {
    assert Step(s, StartCreate(a, h, id), ttl) == Minted(s, a, h, id);
  }

  /** No analysis of this request: a new one. */
  lemma NewRequestCreates(s: State, a: Actor, h: Hash, id: RowId, n: nat, ttl: int)
    requires n >= 7 && a !in s.pcs && id !in s.w.minted && CacheMiss(s, h)
    requires forall i :: i in s.w.db.rows ==> s.w.db.rows[i].key != Live(h)
    ensures Created(s, Request(s, a, h, id, n, ttl), a, h, id, s.w.db.rows, ttl)
  {
    MissMints(s, a, h, id, n, ttl);
    var s1 := Minted(s, a, h, id);
    InsertCreates(s1, a, h, id, n, ttl);
    CreatedFrom(s, s1, Alone(s1, a, n, ttl), a, h, id, s.w.db.rows, ttl);
  }

  /** An analysis within its window, or still in flight, is the answer; nothing is written but its cache entry. */
  lemma KnownRequestAnswers(s: State, a: Actor, h: Hash, id: RowId, e: RowId, n: nat, ttl: int)
    requires n >= 7 && a !in s.pcs && id !in s.w.minted && CacheMiss(s, h) && Holds(s.w.db.rows, h, e)
    requires s.w.now - s.w.db.rows[e].createdAt <= ttl || s.w.db.rows[e].status.Queued? || s.w.db.rows[e].status.Running?
    ensures Answered(s, Request(s, a, h, id, n, ttl), a, h, e, s.w.db.rows[e].createdAt + ttl)
  {
    MissMints(s, a, h, id, n, ttl);
    MintedAnswers(s, a, h, id, e, s.w.db.rows[e], n, ttl);
  }

  ghost predicate Answered(s: State, s': State, a: Actor, h: Hash, e: RowId, until: int) {
    && s'.pcs == s.pcs[a := CDone(h, e)] && s'.w.db == s.w.db && s'.w.jobs == s.w.jobs
    && s'.cache == if s.w.now < until then s.cache[h := CacheEntry(e, until)] else s.cache
  }

  lemma MintedAnswers(s: State, a: Actor, h: Hash, id: RowId, e: RowId, r: Row, n: nat, ttl: int)
    requires n >= 7 && Holds(s.w.db.rows, h, e) && r == s.w.db.rows[e]
    requires s.w.now - r.createdAt <= ttl || r.status.Queued? || r.status.Running?
    ensures Answered(s, Alone(Minted(s, a, h, id), a, n, ttl), a, h, e, r.createdAt + ttl)
  {
    var s1 := Minted(s, a, h, id);
    RefusedInsertReads(s1, a, h, id, e, ttl);
    var s2 := At(s1, a, CDecide(h, id, e, r));
    DecideAnswers(s2, a, h, id, e, r, ttl);
    AloneSplits(s1, a, 2, n - 2, ttl);
    AloneSplits(s2, a, 2, n - 4, ttl);
    DoneStays(Alone(s2, a, 2, ttl), a, n - 4, ttl);
    assert s.pcs[a := CInsert(h, id)][a := CDecide(h, id, e, r)][a := CDone(h, e)] == s.pcs[a := CDone(h, e)];
  }

  /** An analysis at its end and past its window is archived, key only, and a new one is created and put on the queue. */
  lemma ExpiredRequestRotates(s: State, a: Actor, h: Hash, id: RowId, e: RowId, n: nat, ttl: int)
    requires n >= 7 && a !in s.pcs && id !in s.w.minted && CacheMiss(s, h) && Holds(s.w.db.rows, h, e)
    requires var r := s.w.db.rows[e]; s.w.now - r.createdAt > ttl && !r.status.Queued? && !r.status.Running?
    ensures Created(s, Request(s, a, h, id, n, ttl), a, h, id, Archived(s.w.db.rows, h, e), ttl)
  {
    MissMints(s, a, h, id, n, ttl);
    MintedRotates(s, a, h, id, e, n, ttl);
  }

  lemma MintedRotates(s: State, a: Actor, h: Hash, id: RowId, e: RowId, n: nat, ttl: int)
    requires n >= 7 && Holds(s.w.db.rows, h, e)
    requires var r := s.w.db.rows[e]; s.w.now - r.createdAt > ttl && !r.status.Queued? && !r.status.Running?
    ensures Created(s, Alone(Minted(s, a, h, id), a, n, ttl), a, h, id, Archived(s.w.db.rows, h, e), ttl)
  {
    var s1 := Minted(s, a, h, id);
    RefusedInsertReads(s1, a, h, id, e, ttl);
    var s2 := At(s1, a, CDecide(h, id, e, s.w.db.rows[e]));
    DecideRotates(s2, a, h, id, e, s.w.db.rows[e], n - 2, ttl);
    AloneSplits(s1, a, 2, n - 2, ttl);
    assert s.pcs[a := CInsert(h, id)][a := CDecide(h, id, e, s.w.db.rows[e])] == s.pcs[a := CDecide(h, id, e, s.w.db.rows[e])];
    CreatedFrom(s, s2, Alone(s2, a, n - 2, ttl), a, h, id, Archived(s.w.db.rows, h, e), ttl);
  }

  /** What `create` answers with, by the row that holds the digest, if any. */
  ghost predicate AnswersWith(s: State, h: Hash, e: RowId, ttl: int) {
    if h in s.cache && s.w.now < s.cache[h].until then s.cache[h].id == e
    else e in s.w.db.rows && s.w.db.rows[e].key == Live(h)
         && (s.w.now - s.w.db.rows[e].createdAt <= ttl || s.w.db.rows[e].status.Queued? || s.w.db.rows[e].status.Running?)
  }

  /**
   * An undisturbed request is answered with an analysis that existed before if and only if an entry that has not run
   * out names it, or it holds the digest within its window or in flight; in every other case with its own new one.
   */
  lemma CreateAnswersIff(s: State, a: Actor, h: Hash, id: RowId, n: nat, ttl: int)
    requires n >= 7 && Inv(s, ttl) && a !in s.pcs && id !in s.w.minted
    ensures var pc := Request(s, a, h, id, n, ttl).pcs; a in pc && pc[a].CDone? && pc[a].hash == h
    ensures var answer := Request(s, a, h, id, n, ttl).pcs[a].answer;
      && (answer == id || AnswersWith(s, h, answer, ttl))
      && (forall e :: AnswersWith(s, h, e, ttl) ==> answer == e != id)
  {
    if !CacheMiss(s, h) {
      CachedAnswer(s, a, h, id, n, ttl);
    } else if e :| e in s.w.db.rows && s.w.db.rows[e].key == Live(h) {
      OneHolds(s.w.db.rows, s.w.minted, s.w.born, h, e);
      assert e in s.w.minted;
      MissedAnswersIff(s, a, h, id, e, n, ttl);
    } else {
      NewRequestCreates(s, a, h, id, n, ttl);
    }
  }

  lemma MissedAnswersIff(s: State, a: Actor, h: Hash, id: RowId, e: RowId, n: nat, ttl: int)
    requires n >= 7 && a !in s.pcs && id !in s.w.minted && CacheMiss(s, h) && Holds(s.w.db.rows, h, e) && e != id
    ensures var pc := Request(s, a, h, id, n, ttl).pcs; a in pc && pc[a].CDone? && pc[a].hash == h
    ensures var answer := Request(s, a, h, id, n, ttl).pcs[a].answer;
      && (answer == id || AnswersWith(s, h, answer, ttl))
      && (forall e :: AnswersWith(s, h, e, ttl) ==> answer == e != id)
  {
    var r := s.w.db.rows[e];
    if s.w.now - r.createdAt <= ttl || r.status.Queued? || r.status.Running? { KnownRequestAnswers(s, a, h, id, e, n, ttl); }
    else { ExpiredRequestRotates(s, a, h, id, e, n, ttl); }
  }

  /** Among other requests: the entry written for a row met within its window ends with that row's window. */
  lemma RecacheEndsWithWindow(s: State, a: Actor, fault: Fault, ttl: int)
    requires Inv(s, ttl) && a in s.pcs && s.pcs[a].CRecache?
    ensures var s' := Step(s, Advance(a, fault), ttl); var e := s.pcs[a].existing; var h := s.pcs[a].hash;
      s'.cache == s.cache
      || (s'.cache == s.cache[h := CacheEntry(e, s.pcs[a].createdAt + ttl)] && s.w.now < s.pcs[a].createdAt + ttl
          && (e in s.w.db.rows ==> s.pcs[a].createdAt == s.w.db.rows[e].createdAt))
  {
    assert PcOk(s.w, a, s.pcs[a], ttl);
  }

  /** The loser of a rotation race caches for a whole window from now: within the winner's own only if it is just created. */
  lemma WinnerEntryIff(s: State, a: Actor, ttl: int)
    requires Inv(s, ttl) && a in s.pcs && s.pcs[a].CCacheWinner? && s.pcs[a].winner in s.w.db.rows
    ensures var s' := Step(s, Advance(a, Fine), ttl); var h := s.pcs[a].hash; var w := s.pcs[a].winner;
      h in s'.cache && s'.cache[h].id == w && (s'.cache[h].until <= s.w.db.rows[w].createdAt + ttl <==> s.w.db.rows[w].createdAt == s.w.now)
  {
    WinnerCached(s, a, s.pcs[a].hash, s.pcs[a].winner, ttl);
  }

  // ---------------------------------------------------------------- cancel

  ghost function CancelAlone(s: State, a: Actor, id: RowId, ttl: int): State {
    Alone(Step(s, StartCancel(a, id), ttl), a, 1, ttl)
  }

  /** `cancel` alone: a missing row is reported as missing, a row at its end as it is, any other is canceled and so reported. */
  lemma CancelMeans(s: State, a: Actor, id: RowId, ttl: int)
    requires a !in s.pcs
    ensures var s' := CancelAlone(s, a, id, ttl);
      if id !in s.w.db.rows then s' == s.(pcs := s.pcs[a := KMissing])
      else if s.w.db.rows[id].status.Queued? || s.w.db.rows[id].status.Running? then
        s'.pcs == s.pcs[a := KDone(id, Canceled)] && s'.w.db.snapshots == s.w.db.snapshots
        && s'.w.db.rows == s.w.db.rows[id := s.w.db.rows[id].(status := Canceled)]
      else s' == s.(pcs := s.pcs[a := KDone(id, s.w.db.rows[id].status)])
  {
    var s1 := Step(s, StartCancel(a, id), ttl);
    Once(s1, a, ttl);
    if id in s.w.db.rows && !Terminal(s.w.db.rows[id].status) {
      assert s1 == At(s, a, KUpdate(id));
      assert s.pcs[a := KUpdate(id)][a := KDone(id, Canceled)] == s.pcs[a := KDone(id, Canceled)];
    } else {
      DoneStays(s1, a, 1, ttl);
    }
  }

  /** A cancel that comes just behind the end reports that end. */
  lemma LateCancelMeans(s: State, a: Actor, id: RowId, ttl: int)
    requires a in s.pcs && s.pcs[a] == KUpdate(id) && id in s.w.db.rows && Terminal(s.w.db.rows[id].status)
    ensures Alone(s, a, 2, ttl) == At(s, a, KDone(id, s.w.db.rows[id].status))
  {
    var s1 := At(s, a, KReread(id));
    assert Step(s, Advance(a, Fine), ttl) == s1;
    Once(s1, a, ttl);
    assert s.pcs[a := KReread(id)][a := KDone(id, s.w.db.rows[id].status)] == s.pcs[a := KDone(id, s.w.db.rows[id].status)];
  }

  // ---------------------------------------------------------------- the worker

  ghost function SaveAlone(s: State, a: Actor, id: RowId, sid: SnapId, count: nat, checksum: string, final: FinalStatus, ttl: int): State {
    Alone(Step(s, StartSave(a, id, sid, count, checksum, final), ttl), a, 1, ttl)
  }

  /** `saveResult` alone: a row in flight gets the snapshot, its end and its last progress, and the caller its own outcome. */
  lemma SaveMeans(s: State, a: Actor, id: RowId, sid: SnapId, count: nat, checksum: string, final: FinalStatus, ttl: int)
    requires a !in s.pcs && sid !in s.w.spent && id in s.w.jobs
    requires id in s.w.db.rows && (s.w.db.rows[id].status.Queued? || s.w.db.rows[id].status.Running?)
    ensures var s' := SaveAlone(s, a, id, sid, count, checksum, final, ttl); var r := s.w.db.rows[id];
      && s'.pcs == s.pcs[a := SDone(id, Outcome(Some(sid), count, checksum))]
      && s'.w.db.snapshots == s.w.db.snapshots[sid := Snapshot(id, count, checksum)]
      && s'.w.db.rows == s.w.db.rows[id :=
           if final.FinalPartial? then r.(status := Partial, progress := Progress(Metrics, 60, Some(count)), snapshot := Some(sid))
           else r.(status := Completed, progress := Progress(Intent, 100, Some(count)), snapshot := Some(sid))]
  {
    var pc := SCommit(id, sid, count, checksum, final);
    var s1 := At(s, a, pc).(w := s.w.(spent := s.w.spent[sid := a]));
    assert Step(s, StartSave(a, id, sid, count, checksum, final), ttl) == s1;
    Once(s1, a, ttl);
    assert s.pcs[a := pc][a := SDone(id, Outcome(Some(sid), count, checksum))]
        == s.pcs[a := SDone(id, Outcome(Some(sid), count, checksum))];
  }

  /** A save of a row at its end writes nothing and returns what the row links. */
  lemma LateSaveMeans(s: State, a: Actor, id: RowId, sid: SnapId, count: nat, checksum: string, final: FinalStatus, ttl: int)
    requires Inv(s, ttl) && a !in s.pcs && sid !in s.w.spent && id in s.w.jobs
    requires id in s.w.db.rows && !s.w.db.rows[id].status.Queued? && !s.w.db.rows[id].status.Running?
    ensures var s' := SaveAlone(s, a, id, sid, count, checksum, final, ttl); var r := s.w.db.rows[id];
      && s'.w == s.w && a in s'.pcs && s'.pcs[a].SDone? && s'.pcs[a].outcome.snapshot == r.snapshot
      && (r.snapshot.Some? ==>
            r.snapshot.value in s.w.db.snapshots
            && s'.pcs[a].outcome.count == s.w.db.snapshots[r.snapshot.value].count
            && s'.pcs[a].outcome.checksum == s.w.db.snapshots[r.snapshot.value].checksum)
  {
    var s1 := At(s, a, SDone(id, TerminalOutcome(s.w.db, id)));
    assert Step(s, StartSave(a, id, sid, count, checksum, final), ttl) == s1;
    DoneStays(s1, a, 1, ttl);
    LinkTold(s.w.db, s.w.spent, s.w.jobs, id);
    assert RowSnapshotOk(s.w.db.rows[id], id, s.w.db.snapshots);
  }

  /** A worker's writes touch a row in flight only, and there exactly the status or the progress they are about. */
  lemma WorkerWritesMean(s: State, id: RowId, phase: Phase, total: nat, ttl: int)
    requires id in s.w.jobs && id in s.w.db.rows
    ensures var r := s.w.db.rows[id];
      var running, failed, shown := Step(s, MarkRunning(id), ttl), Step(s, FinalFailure(id), ttl), Step(s, Report(id, phase, total), ttl);
      if r.status.Queued? || r.status.Running? then
        && running == In(s, s.w.db.(rows := s.w.db.rows[id := r.(status := Running)]))
        && failed == In(s, s.w.db.(rows := s.w.db.rows[id := r.(status := Failed)]))
        && shown == In(s, s.w.db.(rows := s.w.db.rows[id := r.(progress := Progress(phase,
                        if phase.Waiting? then 0 else if phase.Fetch? then 40 else if phase.Metrics? then 60 else 100, Some(total)))]))
      else running == failed == shown == s
  {
  }
}
