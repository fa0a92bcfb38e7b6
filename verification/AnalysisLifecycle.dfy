/**
 * The keyword-analysis lifecycle: concurrent submissions, cancellations, worker writes and
 * snapshot transactions over one table of analyses.
 *
 * Every action below is one atomic database, cache or queue operation of the program, so a
 * sequence of actions is one interleaving of its concurrent actors.
 */
module AnalysisLifecycle {
  import opened Base

  type RowId = nat
  type SnapId = nat
  type Actor = nat
  type Hash = string

  datatype Status = Queued | Running | Completed | Partial | Failed | Canceled

  predicate Terminal(s: Status) {
    s.Completed? || s.Partial? || s.Failed? || s.Canceled?
  }

  datatype Phase = Waiting | Fetch | Metrics | Intent

  datatype Progress = Progress(phase: Phase, percent: nat, total: Option<nat>)

  function PhasePercent(p: Phase): nat {
    match p
    case Waiting => 0
    case Fetch => 40
    case Metrics => 60
    case Intent => 100
  }

  /** The unique index: a live request digest, or the archived key a rotated row keeps. */
  datatype Key = Live(hash: Hash) | Expired(hash: Hash, id: RowId)

  datatype Row = Row(key: Key, status: Status, progress: Progress, createdAt: int, snapshot: Option<SnapId>)

  datatype Snapshot = Snapshot(analysis: RowId, count: nat, checksum: string)

  datatype Db = Db(rows: map<RowId, Row>, snapshots: map<SnapId, Snapshot>)

  datatype Outcome = Outcome(snapshot: Option<SnapId>, count: nat, checksum: string)

  datatype FinalStatus = FinalCompleted | FinalPartial

  // ---------------------------------------------------------------- database statements

  ghost predicate Taken(db: Db, key: Key) {
    exists id :: id in db.rows && db.rows[id].key == key
  }

  ghost function Holder(db: Db, key: Key): (r: Option<RowId>)
    ensures r.Some? <==> Taken(db, key)
    ensures r.Some? ==> r.value in db.rows && db.rows[r.value].key == key
  {
    if Taken(db, key) then
      var id :| id in db.rows && db.rows[id].key == key;
      Some(id)
    else None
  }

  function NewRow(hash: Hash, now: int): Row {
    Row(Live(hash), Queued, Progress(Waiting, 0, None), now, None)
  }

  function InsertRow(db: Db, id: RowId, hash: Hash, now: int): Db {
    db.(rows := db.rows[id := NewRow(hash, now)])
  }

  function RotateRow(db: Db, id: RowId, hash: Hash): Db {
    if id in db.rows then db.(rows := db.rows[id := db.rows[id].(key := Expired(hash, id))]) else db
  }

  function DeleteRow(db: Db, id: RowId): Db {
    db.(rows := db.rows - {id})
  }

  predicate Open(db: Db, id: RowId) {
    id in db.rows && !Terminal(db.rows[id].status)
  }

  /** A conditional status write: it only touches a row that is not terminal yet. */
  function WriteStatus(db: Db, id: RowId, status: Status): Db {
    if Open(db, id) then db.(rows := db.rows[id := db.rows[id].(status := status)]) else db
  }

  function WriteProgress(db: Db, id: RowId, progress: Progress): Db {
    if Open(db, id) then db.(rows := db.rows[id := db.rows[id].(progress := progress)]) else db
  }

  function FinalProgress(final: FinalStatus, count: nat): Progress {
    match final
    case FinalCompleted => Progress(Intent, 100, Some(count))
    case FinalPartial => Progress(Metrics, 60, Some(count))
  }

  /** The snapshot transaction at commit: all of it, or nothing when the row turned terminal. */
  function CommitSnapshot(db: Db, id: RowId, sid: SnapId, count: nat, checksum: string, final: FinalStatus): Db {
    if Open(db, id) then
      Db(db.rows[id := db.rows[id].(status := if final.FinalPartial? then Partial else Completed,
                                    progress := FinalProgress(final, count),
                                    snapshot := Some(sid))],
         db.snapshots[sid := Snapshot(id, count, checksum)])
    else db
  }

  function TerminalOutcome(db: Db, id: RowId): Outcome {
    if id in db.rows && db.rows[id].snapshot.Some? && db.rows[id].snapshot.value in db.snapshots then
      var sid := db.rows[id].snapshot.value;
      Outcome(Some(sid), db.snapshots[sid].count, db.snapshots[sid].checksum)
    else Outcome(None, 0, "")
  }

  // ---------------------------------------------------------------- actors and their steps

  /** Where an actor stands between two of its atomic operations. */
  datatype Pc =
    | CInsert(hash: Hash, id: RowId)
    | CFind(hash: Hash, id: RowId)
    | CDecide(hash: Hash, id: RowId, existing: RowId, seen: Row)
    | CRecache(hash: Hash, existing: RowId, createdAt: int)
    | CRotate(hash: Hash, id: RowId, existing: RowId)
    | CReinsert(hash: Hash, id: RowId)
    | CFindWinner(hash: Hash, id: RowId)
    | CCacheWinner(hash: Hash, winner: RowId)
    | CEnqueue(hash: Hash, id: RowId)
    | CUndo(hash: Hash, id: RowId)
    | CCache(hash: Hash, id: RowId)
    | CDone(hash: Hash, answer: RowId)
    | KUpdate(target: RowId)
    | KReread(target: RowId)
    | KDone(target: RowId, told: Status)
    | KMissing
    | SCommit(job: RowId, sid: SnapId, count: nat, checksum: string, final: FinalStatus)
    | SReread(job: RowId)
    | SDone(job: RowId, outcome: Outcome)
    | Thrown    // left with an error
    | Gone      // died

  predicate Busy(pc: Pc) {
    !(pc.CDone? || pc.KDone? || pc.KMissing? || pc.SDone? || pc.Thrown? || pc.Gone?)
  }

  /** How a call of the database, the cache or the queue ends: normally, or with an error before or after its effect. */
  datatype Fault = Fine | LostBefore | LostAfter

  /** Who minted an identifier, and for which request. */
  datatype Mint = Mint(hash: Hash, creator: Actor)

  datatype CacheEntry = CacheEntry(id: RowId, until: int)

  /** Everything but the cache and the actors' positions. */
  datatype World = World(
    db: Db,
    now: int,
    jobs: set<RowId>,              // ids ever put on the queue
    over: set<RowId>,              // ids whose job will not be delivered again and whose failure, if any, has been handled
    minted: map<RowId, Mint>,      // random ids never repeat
    born: set<RowId>,              // ids ever inserted
    spent: map<SnapId, Actor>)     // snapshot ids never repeat

  datatype State = State(w: World, cache: map<Hash, CacheEntry>, pcs: map<Actor, Pc>)

  datatype Action =
    | Tick(dt: nat)
    | Evict(hash: Hash)
    | StartCreate(a: Actor, hash: Hash, id: RowId)
    | StartCancel(a: Actor, id: RowId)
    | StartSave(a: Actor, id: RowId, sid: SnapId, count: nat, checksum: string, final: FinalStatus)
    | MarkRunning(id: RowId)
    | Report(id: RowId, phase: Phase, total: nat)
    | FinalFailure(id: RowId)
    | JobOver(id: RowId)
    | Advance(a: Actor, fault: Fault)
    | Die(a: Actor)

  function Init(now: int): State {
    State(World(Db(map[], map[]), now, {}, {}, map[], {}, map[]), map[], map[])
  }

  function At(s: State, a: Actor, pc: Pc): State {
    s.(pcs := s.pcs[a := pc])
  }

  function In(s: State, db: Db): State {
    s.(w := s.w.(db := db))
  }

  function PutCache(s: State, hash: Hash, id: RowId, ttl: int): State {
    s.(cache := s.cache[hash := CacheEntry(id, s.w.now + ttl)])
  }

  ghost function TryInsert(s: State, a: Actor, hash: Hash, id: RowId, onConflict: Pc): State {
    if Taken(s.w.db, Live(hash)) then At(s, a, onConflict)
    else At(s, a, CEnqueue(hash, id)).(w := s.w.(db := InsertRow(s.w.db, id, hash, s.w.now), born := s.w.born + {id}))
  }

  /** The next atomic operation inside `create`, when its call ends normally. */
  ghost function CreateEffect(s: State, a: Actor, pc: Pc, ttl: int): State {
    match pc
    case CInsert(h, id) => TryInsert(s, a, h, id, CFind(h, id))
    case CFind(h, id) =>
      var holder := Holder(s.w.db, Live(h));
      if holder.None? then At(s, a, Thrown)
      else At(s, a, CDecide(h, id, holder.value, s.w.db.rows[holder.value]))
    case CDecide(h, id, e, seen) =>
      if s.w.now - seen.createdAt <= ttl || !Terminal(seen.status) then At(s, a, CRecache(h, e, seen.createdAt))
      else At(s, a, CRotate(h, id, e))
    case CRecache(h, e, createdAt) =>
      var left := createdAt + ttl - s.w.now;
      if left <= 0 then At(s, a, CDone(h, e)) else At(PutCache(s, h, e, left), a, CDone(h, e))
    case CRotate(h, id, e) =>
      if e in s.w.db.rows then In(At(s, a, CReinsert(h, id)), RotateRow(s.w.db, e, h))
      else At(s, a, Thrown)
    case CReinsert(h, id) => TryInsert(s, a, h, id, CFindWinner(h, id))
    case CFindWinner(h, id) =>
      var holder := Holder(s.w.db, Live(h));
      if holder.None? then At(s, a, Thrown) else At(s, a, CCacheWinner(h, holder.value))
    case CCacheWinner(h, w) => At(PutCache(s, h, w, ttl), a, CDone(h, w))
    case CEnqueue(h, id) => At(s, a, CCache(h, id)).(w := s.w.(jobs := s.w.jobs + {id}))
    case CUndo(h, id) => In(At(s, a, Thrown), DeleteRow(s.w.db, id))
    case CCache(h, id) => At(PutCache(s, h, id, ttl), a, CDone(h, id))
    case _ => s
  }

  /** The next atomic operation inside `cancel` or `saveResult`, when its call ends normally. */
  function CloseEffect(s: State, a: Actor, pc: Pc): State {
    match pc
    case KUpdate(id) =>
      if Open(s.w.db, id) then In(At(s, a, KDone(id, Canceled)), WriteStatus(s.w.db, id, Canceled))
      else At(s, a, KReread(id))
    case KReread(id) => At(s, a, KDone(id, if id in s.w.db.rows then s.w.db.rows[id].status else Canceled))
    case SCommit(id, sid, count, checksum, final) =>
      if Open(s.w.db, id) then
        In(At(s, a, SDone(id, Outcome(Some(sid), count, checksum))), CommitSnapshot(s.w.db, id, sid, count, checksum, final))
      else At(s, a, SReread(id))
    case SReread(id) => At(s, a, SDone(id, TerminalOutcome(s.w.db, id)))
    case _ => s
  }

  predicate Closing(pc: Pc) {
    pc.KUpdate? || pc.KReread? || pc.SCommit? || pc.SReread?
  }

  ghost function Effect(s: State, a: Actor, pc: Pc, ttl: int): State {
    if Closing(pc) then CloseEffect(s, a, pc) else CreateEffect(s, a, pc, ttl)
  }

  /** Where an error leaves the actor: a failed enqueue is compensated, every other error is thrown on. */
  function FailPc(pc: Pc): Pc {
    if pc.CEnqueue? then CUndo(pc.hash, pc.id) else Thrown
  }

  /** Deciding, and answering past the window, calls nobody. */
  predicate CallsOut(s: State, pc: Pc, ttl: int) {
    !pc.CDecide? && (pc.CRecache? ==> pc.createdAt + ttl - s.w.now > 0)
  }

  ghost function AdvanceStep(s: State, a: Actor, pc: Pc, fault: Fault, ttl: int): State {
    if fault.Fine? || !CallsOut(s, pc, ttl) then Effect(s, a, pc, ttl)
    else if fault.LostBefore? then At(s, a, FailPc(pc))
    else At(Effect(s, a, pc, ttl), a, FailPc(pc))
  }

  /** One action; an action that is not enabled changes nothing. `ttl` is the freshness window. */
  ghost function Step(s: State, act: Action, ttl: int): State {
    match act
    case Tick(dt) => s.(w := s.w.(now := s.w.now + dt))
    case Evict(h) => s.(cache := s.cache - {h})
    case StartCreate(a, h, id) =>
      if a in s.pcs || id in s.w.minted then s
      else if h in s.cache && s.w.now < s.cache[h].until then At(s, a, CDone(h, s.cache[h].id))
      else At(s, a, CInsert(h, id)).(w := s.w.(minted := s.w.minted[id := Mint(h, a)]))
    case StartCancel(a, id) =>
      if a in s.pcs then s
      else if id !in s.w.db.rows then At(s, a, KMissing)
      else if Terminal(s.w.db.rows[id].status) then At(s, a, KDone(id, s.w.db.rows[id].status))
      else At(s, a, KUpdate(id))
    case StartSave(a, id, sid, count, checksum, final) =>
      if a in s.pcs || sid in s.w.spent || id !in s.w.jobs then s
      else if id in s.w.db.rows && Terminal(s.w.db.rows[id].status) then At(s, a, SDone(id, TerminalOutcome(s.w.db, id)))
      else At(s, a, SCommit(id, sid, count, checksum, final)).(w := s.w.(spent := s.w.spent[sid := a]))
    case MarkRunning(id) => if id in s.w.jobs then In(s, WriteStatus(s.w.db, id, Running)) else s
    case Report(id, phase, total) =>
      if id in s.w.jobs then In(s, WriteProgress(s.w.db, id, Progress(phase, PhasePercent(phase), Some(total)))) else s
    case FinalFailure(id) => if id in s.w.jobs then In(s, WriteStatus(s.w.db, id, Failed)) else s
    case JobOver(id) => if id in s.w.jobs then s.(w := s.w.(over := s.w.over + {id})) else s
    case Advance(a, fault) => if a in s.pcs && Busy(s.pcs[a]) then AdvanceStep(s, a, s.pcs[a], fault, ttl) else s
    case Die(a) => if a in s.pcs && Busy(s.pcs[a]) then At(s, a, Gone) else s
  }

  ghost function Exec(s: State, acts: seq<Action>, ttl: int): State
    decreases |acts|
  {
    if acts == [] then s else Exec(Step(s, acts[0], ttl), acts[1..], ttl)
  }

  // ---------------------------------------------------------------- the invariant

  ghost predicate KeysOk(rows: map<RowId, Row>, minted: map<RowId, Mint>, born: set<RowId>) {
    && (forall i, j :: i in rows && j in rows && rows[i].key == rows[j].key ==> i == j)
    && (forall i :: i in rows ==> i in born && i in minted && KeyOk(rows[i].key, i, minted[i].hash))
    && (forall i :: i in born ==> i in minted)
  }

  predicate KeyOk(key: Key, id: RowId, hash: Hash) {
    key == Live(hash) || key == Expired(hash, id)
  }

  /** An archived key belongs to a terminal row that outlived the window; same-request rows are a window apart. */
  ghost predicate WindowOk(rows: map<RowId, Row>, now: int, ttl: int) {
    && (forall i :: i in rows ==> rows[i].createdAt <= now)
    && (forall i :: i in rows && rows[i].key.Expired? ==> Terminal(rows[i].status) && now - rows[i].createdAt > ttl)
    && (forall i, j :: i in rows && j in rows && i != j ==> Apart(rows[i], rows[j], ttl))
  }

  predicate Apart(r: Row, q: Row, ttl: int) {
    r.key.hash == q.key.hash ==> r.createdAt - q.createdAt > ttl || q.createdAt - r.createdAt > ttl
  }

  /** Every snapshot belongs to one queued analysis, no two to the same, and the analysis links it as long as its row exists. */
  ghost predicate SnapshotsOk(db: Db, spent: map<SnapId, Actor>, jobs: set<RowId>) {
    && (forall i :: i in db.rows ==> RowSnapshotOk(db.rows[i], i, db.snapshots))
    && (forall k :: k in db.snapshots ==> k in spent && db.snapshots[k].analysis in jobs && Linked(db.rows, db.snapshots[k], k))
    && OneEach(db.snapshots)
  }

  ghost predicate OneEach(snapshots: map<SnapId, Snapshot>) {
    forall k, m :: k in snapshots && m in snapshots && snapshots[k].analysis == snapshots[m].analysis ==> k == m
  }

  predicate Linked(rows: map<RowId, Row>, snap: Snapshot, k: SnapId) {
    snap.analysis in rows ==> rows[snap.analysis].snapshot == Some(k)
  }

  predicate RowSnapshotOk(r: Row, i: RowId, snapshots: map<SnapId, Snapshot>) {
    && (r.snapshot.Some? <==> r.status.Completed? || r.status.Partial?)
    && (r.snapshot.Some? ==>
          && r.snapshot.value in snapshots
          && snapshots[r.snapshot.value].analysis == i
          && r.progress == FinalProgress(if r.status.Partial? then FinalPartial else FinalCompleted,
                                         snapshots[r.snapshot.value].count))
  }

  /** Only rows that were put on the queue are worked on. */
  ghost predicate JobsOk(rows: map<RowId, Row>, jobs: set<RowId>, over: set<RowId>, born: set<RowId>) {
    && (forall i :: i in jobs ==> i in born) && over <= jobs
    && (forall i :: i in rows && i !in jobs ==> rows[i].status.Queued? || rows[i].status.Canceled?)
  }

  predicate MintedFor(w: World, id: RowId, h: Hash) {
    id in w.minted && w.minted[id].hash == h
  }

  predicate Unborn(w: World, a: Actor, id: RowId, h: Hash) {
    id in w.minted && w.minted[id] == Mint(h, a) && id !in w.born
  }

  predicate Own(w: World, a: Actor, id: RowId, h: Hash) {
    id in w.minted && w.minted[id] == Mint(h, a) && id in w.db.rows
  }

  /** What a save was told: the row's outcome as long as the row exists, and always a snapshot that was really written. */
  predicate Told(db: Db, id: RowId, outcome: Outcome) {
    && (id in db.rows ==> Terminal(db.rows[id].status) && outcome == TerminalOutcome(db, id))
    && (outcome.snapshot.Some? ==>
          outcome.snapshot.value in db.snapshots
          && db.snapshots[outcome.snapshot.value] == Snapshot(id, outcome.count, outcome.checksum))
  }

  /** What an actor may rely on at each of its positions, whatever the others do meanwhile. */
  predicate PcOk(w: World, a: Actor, pc: Pc, ttl: int) {
    match pc
    case CInsert(h, id) => Unborn(w, a, id, h)
    case CFind(h, id) => Unborn(w, a, id, h)
    case CDecide(h, id, e, seen) =>
      && Unborn(w, a, id, h) && MintedFor(w, e, h) && e in w.born
      && (e in w.db.rows ==>
            && w.db.rows[e].createdAt == seen.createdAt
            && (Terminal(seen.status) ==> Terminal(w.db.rows[e].status)))
    case CRecache(h, e, createdAt) =>
      MintedFor(w, e, h) && e in w.born && (e in w.db.rows ==> w.db.rows[e].createdAt == createdAt)
    case CRotate(h, id, e) =>
      && Unborn(w, a, id, h) && MintedFor(w, e, h) && e in w.born
      && (e in w.db.rows ==> Terminal(w.db.rows[e].status) && w.now - w.db.rows[e].createdAt > ttl)
    case CReinsert(h, id) => Unborn(w, a, id, h)
    case CFindWinner(h, id) => Unborn(w, a, id, h)
    case CCacheWinner(h, winner) => MintedFor(w, winner, h)
    case CEnqueue(h, id) => Own(w, a, id, h) && id !in w.jobs
    case CUndo(h, id) => Own(w, a, id, h)
    case CCache(h, id) => MintedFor(w, id, h)
    case CDone(h, answer) => MintedFor(w, answer, h)
    case KUpdate(id) => id in w.born
    case KReread(id) => id in w.born && (id in w.db.rows ==> Terminal(w.db.rows[id].status))
    case KDone(id, told) => id in w.born && Terminal(told) && (id in w.db.rows ==> w.db.rows[id].status == told)
    case SCommit(id, sid, _, _, _) => id in w.jobs && sid in w.spent && w.spent[sid] == a && sid !in w.db.snapshots
    case SReread(id) => id in w.jobs && (id in w.db.rows ==> Terminal(w.db.rows[id].status))
    case SDone(id, outcome) => id in w.jobs && Told(w.db, id, outcome)
    case _ => true
  }

  ghost predicate PcsOk(s: State, ttl: int) {
    forall a :: a in s.pcs ==> PcOk(s.w, a, s.pcs[a], ttl)
  }

  ghost predicate CacheOk(cache: map<Hash, CacheEntry>, minted: map<RowId, Mint>) {
    forall h :: h in cache ==> cache[h].id in minted && minted[cache[h].id].hash == h
  }

  ghost predicate WorldOk(w: World, ttl: int) {
    && KeysOk(w.db.rows, w.minted, w.born) && WindowOk(w.db.rows, w.now, ttl)
    && SnapshotsOk(w.db, w.spent, w.jobs) && JobsOk(w.db.rows, w.jobs, w.over, w.born)
  }

  ghost predicate Inv(s: State, ttl: int) {
    WorldOk(s.w, ttl) && PcsOk(s, ttl) && CacheOk(s.cache, s.w.minted)
  }

  // ---------------------------------------------------------------- what one step may change

  predicate RowAdvances(r: Row, r': Row) {
    && r'.createdAt == r.createdAt
    && (Terminal(r.status) ==> r' == r.(key := r'.key))
  }

  predicate By(m: map<RowId, Mint>, id: RowId, a: Option<Actor>) {
    id in m && Some(m[id].creator) == a
  }

  ghost predicate IdsEvolve(w: World, w': World, a: Option<Actor>) {
    && w.now <= w'.now && w.born <= w'.born && w.jobs <= w'.jobs && w.over <= w'.over
    && (forall i :: i in w'.born && i !in w.born ==> By(w.minted, i, a))
    && (forall i :: i in w'.jobs && i !in w.jobs ==> By(w.minted, i, a))
    && (forall i :: i in w.minted ==> i in w'.minted && w'.minted[i] == w.minted[i])
    && (forall k :: k in w.spent ==> k in w'.spent && w'.spent[k] == w.spent[k])
  }

  /** New rows have new ids, only its creator deletes a row, and a terminal row changes nothing but its key. */
  ghost predicate RowsEvolve(w: World, rows': map<RowId, Row>, a: Option<Actor>) {
    && (forall i :: i in rows' && i !in w.db.rows ==> i !in w.born)
    && (forall i :: i in w.db.rows && i !in rows' ==> By(w.minted, i, a))
    && (forall i :: i in w.db.rows && i in rows' ==> RowAdvances(w.db.rows[i], rows'[i]))
  }

  ghost predicate SnapshotsEvolve(w: World, snaps': map<SnapId, Snapshot>, a: Option<Actor>) {
    && (forall k :: k in w.db.snapshots ==> k in snaps' && snaps'[k] == w.db.snapshots[k])
    && (forall k :: k in snaps' && k !in w.db.snapshots ==> k in w.spent && Some(w.spent[k]) == a)
  }

  /** The guarantee every step of actor `a` gives the others (`None` for worker and clock steps). */
  ghost predicate Evolves(w: World, w': World, a: Option<Actor>) {
    IdsEvolve(w, w', a) && RowsEvolve(w, w'.db.rows, a) && SnapshotsEvolve(w, w'.db.snapshots, a)
  }

  /** Another actor's position stays justified across any step that keeps the guarantee. */
  lemma PcStable(w: World, w': World, a: Option<Actor>, b: Actor, pc: Pc, ttl: int)
    requires WorldOk(w, ttl) && Evolves(w, w', a) && a != Some(b)
    requires PcOk(w, b, pc, ttl)
    ensures PcOk(w', b, pc, ttl)
  {
    if pc.SDone? {
      ToldStable(w, w', a, pc.job, pc.outcome, ttl);
    } else if Closing(pc) || pc.KDone? {
      ClosingStable(w, w', a, b, pc, ttl);
    } else {
      CreatingStable(w, w', a, b, pc, ttl);
    }
  }

  lemma CreatingStable(w: World, w': World, a: Option<Actor>, b: Actor, pc: Pc, ttl: int)
    requires WorldOk(w, ttl) && Evolves(w, w', a) && a != Some(b)
    requires PcOk(w, b, pc, ttl) && !Closing(pc) && !pc.SDone? && !pc.KDone?
    ensures PcOk(w', b, pc, ttl)
  {
  }

  lemma ClosingStable(w: World, w': World, a: Option<Actor>, b: Actor, pc: Pc, ttl: int)
    requires WorldOk(w, ttl) && Evolves(w, w', a) && a != Some(b)
    requires PcOk(w, b, pc, ttl) && (Closing(pc) || pc.KDone?)
    ensures PcOk(w', b, pc, ttl)
  {
  }

  lemma ToldStable(w: World, w': World, a: Option<Actor>, id: RowId, outcome: Outcome, ttl: int)
    requires WorldOk(w, ttl) && Evolves(w, w', a) && id in w.jobs && Told(w.db, id, outcome)
    ensures Told(w'.db, id, outcome)
  {
    if id in w'.db.rows {
      assert id in w.db.rows && RowAdvances(w.db.rows[id], w'.db.rows[id]);
      assert RowSnapshotOk(w.db.rows[id], id, w.db.snapshots);
    }
  }

  /** Assembles the invariant from the tables, the guarantee and the acting actor's new position. */
  lemma Assemble(s: State, s': State, a: Option<Actor>, ttl: int)
    requires Inv(s, ttl) && Evolves(s.w, s'.w, a)
    requires WorldOk(s'.w, ttl) && CacheOk(s'.cache, s'.w.minted)
    requires forall b :: b in s'.pcs && a != Some(b) ==> b in s.pcs && s'.pcs[b] == s.pcs[b]
    requires a.Some? && a.value in s'.pcs ==> PcOk(s'.w, a.value, s'.pcs[a.value], ttl)
    ensures Inv(s', ttl)
  {
    forall b | b in s'.pcs ensures PcOk(s'.w, b, s'.pcs[b], ttl) {
      if a != Some(b) { PcStable(s.w, s'.w, a, b, s'.pcs[b], ttl); }
    }
  }

  // ---------------------------------------------------------------- rewriting one row

  lemma PutKeys(rows: map<RowId, Row>, minted: map<RowId, Mint>, born: set<RowId>, id: RowId, r: Row)
    requires KeysOk(rows, minted, born) && id in rows
    requires r.key == rows[id].key || r.key == Expired(minted[id].hash, id)
    ensures KeysOk(rows[id := r], minted, born)
  {
    forall i, j | i in rows && j in rows && rows[id := r][i].key == rows[id := r][j].key ensures i == j {
      assert KeyOk(rows[i].key, i, minted[i].hash) && KeyOk(rows[j].key, j, minted[j].hash);
    }
  }

  lemma PutWindow(rows: map<RowId, Row>, now: int, ttl: int, id: RowId, r: Row)
    requires WindowOk(rows, now, ttl) && id in rows
    requires r.key.hash == rows[id].key.hash && r.createdAt == rows[id].createdAt
    requires r.key.Expired? ==> Terminal(r.status) && now - r.createdAt > ttl
    ensures WindowOk(rows[id := r], now, ttl)
  {
    forall i, j | i in rows && j in rows && i != j ensures Apart(rows[id := r][i], rows[id := r][j], ttl) {
      assert Apart(rows[i], rows[j], ttl);
    }
  }

  lemma PutSnapshots(db: Db, spent: map<SnapId, Actor>, jobs: set<RowId>, id: RowId, r: Row)
    requires SnapshotsOk(db, spent, jobs) && id in db.rows
    requires r.snapshot == db.rows[id].snapshot && RowSnapshotOk(r, id, db.snapshots)
    ensures SnapshotsOk(db.(rows := db.rows[id := r]), spent, jobs)
  {
    var rows' := db.rows[id := r];
    forall k | k in db.snapshots ensures Linked(rows', db.snapshots[k], k) {
      assert Linked(db.rows, db.snapshots[k], k);
    }
  }

  lemma PutRowEvolves(w: World, id: RowId, r: Row, a: Option<Actor>)
    requires id in w.db.rows && RowAdvances(w.db.rows[id], r)
    ensures Evolves(w, w.(db := w.db.(rows := w.db.rows[id := r])), a)
  {
  }

  /** Replacing one row by a legal successor of it. */
  lemma PutRow(w: World, id: RowId, r: Row, a: Option<Actor>, ttl: int)
    requires WorldOk(w, ttl) && id in w.db.rows && RowAdvances(w.db.rows[id], r)
    requires r.key == w.db.rows[id].key || r.key == Expired(w.minted[id].hash, id)
    requires r.key.Expired? ==> Terminal(r.status) && w.now - r.createdAt > ttl
    requires r.snapshot == w.db.rows[id].snapshot && RowSnapshotOk(r, id, w.db.snapshots)
    requires id in w.jobs || r.status.Queued? || r.status.Canceled?
    ensures var w' := w.(db := w.db.(rows := w.db.rows[id := r])); WorldOk(w', ttl) && Evolves(w, w', a)
  {
    assert KeyOk(w.db.rows[id].key, id, w.minted[id].hash);
    PutKeys(w.db.rows, w.minted, w.born, id, r);
    PutWindow(w.db.rows, w.now, ttl, id, r);
    PutSnapshots(w.db, w.spent, w.jobs, id, r);
    PutRowEvolves(w, id, r, a);
  }

  /** A conditional write that leaves a row unfinished, failed or canceled. */
  lemma PatchOpenRow(w: World, id: RowId, r: Row, a: Option<Actor>, ttl: int)
    requires WorldOk(w, ttl) && Open(w.db, id)
    requires r == w.db.rows[id].(status := r.status, progress := r.progress)
    requires !r.status.Completed? && !r.status.Partial? && (id in w.jobs || r.status.Canceled?)
    ensures var w' := w.(db := w.db.(rows := w.db.rows[id := r])); WorldOk(w', ttl) && Evolves(w, w', a)
  {
    assert RowSnapshotOk(w.db.rows[id], id, w.db.snapshots);
    PutRow(w, id, r, a, ttl);
  }

  lemma JobWriteKeeps(s: State, id: RowId, r: Row, ttl: int)
    requires Inv(s, ttl) && id in s.w.jobs && Open(s.w.db, id)
    requires r == s.w.db.rows[id].(status := r.status, progress := r.progress)
    requires !r.status.Completed? && !r.status.Partial?
    ensures Inv(In(s, s.w.db.(rows := s.w.db.rows[id := r])), ttl)
  {
    PatchOpenRow(s.w, id, r, None, ttl);
    Assemble(s, In(s, s.w.db.(rows := s.w.db.rows[id := r])), None, ttl);
  }

  // ---------------------------------------------------------------- the effect of an actor's operation

  /** A step of `a` that keeps the tables, honours the guarantee and justifies where it leaves `a`. */
  ghost predicate Sound(s: State, s': State, a: Actor, ttl: int) {
    && WorldOk(s'.w, ttl) && Evolves(s.w, s'.w, Some(a)) && CacheOk(s'.cache, s'.w.minted)
    && a in s'.pcs && s'.pcs == s.pcs[a := s'.pcs[a]] && PcOk(s'.w, a, s'.pcs[a], ttl)
  }

  lemma SoundKeeps(s: State, s': State, a: Actor, ttl: int)
    requires Inv(s, ttl) && Sound(s, s', a, ttl)
    ensures Inv(s', ttl)
  {
    Assemble(s, s', Some(a), ttl);
  }

  lemma EvolvesToItself(w: World, a: Option<Actor>)
    ensures Evolves(w, w, a)
  {
  }

  /** The actor moves on, perhaps writing the cache. */
  lemma MoveSound(s: State, s': State, a: Actor, ttl: int)
    requires Inv(s, ttl) && s'.w == s.w && CacheOk(s'.cache, s.w.minted)
    requires a in s'.pcs && s'.pcs == s.pcs[a := s'.pcs[a]] && PcOk(s.w, a, s'.pcs[a], ttl)
    ensures Sound(s, s', a, ttl)
  {
    EvolvesToItself(s.w, Some(a));
  }

  lemma InsertWorld(w: World, a: Actor, h: Hash, id: RowId, ttl: int)
    requires WorldOk(w, ttl) && Unborn(w, a, id, h) && !Taken(w.db, Live(h))
    ensures var w' := w.(db := InsertRow(w.db, id, h, w.now), born := w.born + {id});
            WorldOk(w', ttl) && Evolves(w, w', Some(a))
  {
    InsertKeysWindow(w.db.rows, w.minted, w.born, w.now, h, id, ttl);
    InsertSnapshots(w.db, w.spent, w.jobs, id, h, w.now);
    InsertEvolves(w, a, h, id);
  }

  lemma InsertKeysWindow(rows: map<RowId, Row>, minted: map<RowId, Mint>, born: set<RowId>, now: int, h: Hash, id: RowId, ttl: int)
    requires KeysOk(rows, minted, born) && WindowOk(rows, now, ttl)
    requires id in minted && minted[id].hash == h && id !in born
    requires forall i :: i in rows ==> rows[i].key != Live(h)
    ensures KeysOk(rows[id := NewRow(h, now)], minted, born + {id}) && WindowOk(rows[id := NewRow(h, now)], now, ttl)
  {
    forall i | i in rows && rows[i].key.hash == h ensures rows[i].key.Expired? {
      assert rows[i].key != Live(h);
    }
    forall i, j | i in rows && j in rows && i != j ensures Apart(rows[i], rows[j], ttl) {}
  }

  lemma InsertSnapshots(db: Db, spent: map<SnapId, Actor>, jobs: set<RowId>, id: RowId, h: Hash, now: int)
    requires SnapshotsOk(db, spent, jobs) && id !in jobs && id !in db.rows
    ensures SnapshotsOk(InsertRow(db, id, h, now), spent, jobs)
  {
    forall k | k in db.snapshots ensures Linked(InsertRow(db, id, h, now).rows, db.snapshots[k], k) {
      assert Linked(db.rows, db.snapshots[k], k);
    }
  }

  lemma InsertEvolves(w: World, a: Actor, h: Hash, id: RowId)
    requires Unborn(w, a, id, h) && id !in w.db.rows
    ensures Evolves(w, w.(db := InsertRow(w.db, id, h, w.now), born := w.born + {id}), Some(a))
  {
  }

  lemma InsertSound(s: State, a: Actor, h: Hash, id: RowId, onConflict: Pc, ttl: int)
    requires Inv(s, ttl) && a in s.pcs
    requires s.pcs[a] == CInsert(h, id) || s.pcs[a] == CReinsert(h, id)
    requires onConflict == CFind(h, id) || onConflict == CFindWinner(h, id)
    ensures Sound(s, TryInsert(s, a, h, id, onConflict), a, ttl)
  {
    assert PcOk(s.w, a, s.pcs[a], ttl);
    var s' := TryInsert(s, a, h, id, onConflict);
    if Taken(s.w.db, Live(h)) {
      MoveSound(s, s', a, ttl);
    } else {
      InsertWorld(s.w, a, h, id, ttl);
      assert PcOk(s'.w, a, CEnqueue(h, id), ttl);
    }
  }

  lemma RotateSound(s: State, a: Actor, h: Hash, id: RowId, e: RowId, ttl: int)
    requires Inv(s, ttl) && a in s.pcs && s.pcs[a] == CRotate(h, id, e) && e in s.w.db.rows
    ensures Sound(s, In(At(s, a, CReinsert(h, id)), RotateRow(s.w.db, e, h)), a, ttl)
  {
    var r := s.w.db.rows[e].(key := Expired(h, e));
    var s' := In(At(s, a, CReinsert(h, id)), RotateRow(s.w.db, e, h));
    assert PcOk(s.w, a, s.pcs[a], ttl);
    assert RowSnapshotOk(s.w.db.rows[e], e, s.w.db.snapshots);
    PutRow(s.w, e, r, Some(a), ttl);
    assert PcOk(s'.w, a, CReinsert(h, id), ttl);
  }

  lemma EnqueueWorld(w: World, a: Actor, h: Hash, id: RowId, ttl: int)
    requires WorldOk(w, ttl) && Own(w, a, id, h)
    ensures var w' := w.(jobs := w.jobs + {id}); WorldOk(w', ttl) && Evolves(w, w', Some(a))
  {
  }

  lemma EnqueueSound(s: State, a: Actor, h: Hash, id: RowId, ttl: int)
    requires Inv(s, ttl) && a in s.pcs && s.pcs[a] == CEnqueue(h, id)
    ensures Sound(s, CreateEffect(s, a, CEnqueue(h, id), ttl), a, ttl)
  {
    assert PcOk(s.w, a, s.pcs[a], ttl);
    EnqueueWorld(s.w, a, h, id, ttl);
  }

  lemma DeleteSnapshots(db: Db, spent: map<SnapId, Actor>, jobs: set<RowId>, id: RowId)
    requires SnapshotsOk(db, spent, jobs)
    ensures SnapshotsOk(DeleteRow(db, id), spent, jobs)
  {
    forall k | k in db.snapshots ensures Linked(DeleteRow(db, id).rows, db.snapshots[k], k) {
      assert Linked(db.rows, db.snapshots[k], k);
    }
  }

  lemma UndoWorld(w: World, a: Actor, h: Hash, id: RowId, ttl: int)
    requires WorldOk(w, ttl) && Own(w, a, id, h)
    ensures var w' := w.(db := DeleteRow(w.db, id)); WorldOk(w', ttl) && Evolves(w, w', Some(a))
  {
    DeleteSnapshots(w.db, w.spent, w.jobs, id);
  }

  lemma UndoSound(s: State, a: Actor, h: Hash, id: RowId, ttl: int)
    requires Inv(s, ttl) && a in s.pcs && s.pcs[a] == CUndo(h, id)
    ensures Sound(s, CreateEffect(s, a, CUndo(h, id), ttl), a, ttl)
  {
    assert PcOk(s.w, a, s.pcs[a], ttl);
    UndoWorld(s.w, a, h, id, ttl);
  }

  lemma CancelSound(s: State, a: Actor, id: RowId, ttl: int)
    requires Inv(s, ttl) && a in s.pcs && s.pcs[a] == KUpdate(id) && Open(s.w.db, id)
    ensures Sound(s, In(At(s, a, KDone(id, Canceled)), WriteStatus(s.w.db, id, Canceled)), a, ttl)
  {
    var s' := In(At(s, a, KDone(id, Canceled)), WriteStatus(s.w.db, id, Canceled));
    assert PcOk(s.w, a, s.pcs[a], ttl);
    PatchOpenRow(s.w, id, s.w.db.rows[id].(status := Canceled), Some(a), ttl);
    assert PcOk(s'.w, a, KDone(id, Canceled), ttl);
  }

  lemma CommitSnapshots(db: Db, spent: map<SnapId, Actor>, jobs: set<RowId>, id: RowId, sid: SnapId, count: nat,
                        checksum: string, final: FinalStatus)
    requires SnapshotsOk(db, spent, jobs) && Open(db, id) && id in jobs && sid in spent && sid !in db.snapshots
    ensures SnapshotsOk(CommitSnapshot(db, id, sid, count, checksum, final), spent, jobs)
  {
    var db' := CommitSnapshot(db, id, sid, count, checksum, final);
    assert RowSnapshotOk(db.rows[id], id, db.snapshots);
    forall i | i in db'.rows ensures RowSnapshotOk(db'.rows[i], i, db'.snapshots) {
      if i != id { assert RowSnapshotOk(db.rows[i], i, db.snapshots); }
    }
    forall k | k in db.snapshots ensures db.snapshots[k].analysis != id && Linked(db'.rows, db.snapshots[k], k) {
      assert Linked(db.rows, db.snapshots[k], k);
    }
  }

  lemma CommitWorld(w: World, id: RowId, sid: SnapId, count: nat, checksum: string, final: FinalStatus, ttl: int)
    requires WorldOk(w, ttl) && Open(w.db, id) && id in w.jobs && sid in w.spent && sid !in w.db.snapshots
    ensures WorldOk(w.(db := CommitSnapshot(w.db, id, sid, count, checksum, final)), ttl)
  {
    var r := CommitSnapshot(w.db, id, sid, count, checksum, final).rows[id];
    PutKeys(w.db.rows, w.minted, w.born, id, r);
    PutWindow(w.db.rows, w.now, ttl, id, r);
    CommitSnapshots(w.db, w.spent, w.jobs, id, sid, count, checksum, final);
  }

  lemma CommitEvolves(w: World, a: Actor, id: RowId, sid: SnapId, count: nat, checksum: string, final: FinalStatus)
    requires Open(w.db, id) && sid in w.spent && w.spent[sid] == a && sid !in w.db.snapshots
    ensures Evolves(w, w.(db := CommitSnapshot(w.db, id, sid, count, checksum, final)), Some(a))
  {
  }

  lemma CommitAnswer(w: World, a: Actor, id: RowId, sid: SnapId, count: nat, checksum: string, final: FinalStatus, ttl: int)
    requires Open(w.db, id) && id in w.jobs
    ensures PcOk(w.(db := CommitSnapshot(w.db, id, sid, count, checksum, final)), a, SDone(id, Outcome(Some(sid), count, checksum)), ttl)
  {
  }

  lemma SaveSound(s: State, a: Actor, id: RowId, sid: SnapId, count: nat, checksum: string, final: FinalStatus, ttl: int)
    requires Inv(s, ttl) && a in s.pcs && s.pcs[a] == SCommit(id, sid, count, checksum, final) && Open(s.w.db, id)
    ensures Sound(s, CloseEffect(s, a, s.pcs[a]), a, ttl)
  {
    assert PcOk(s.w, a, s.pcs[a], ttl);
    CommitWorld(s.w, id, sid, count, checksum, final, ttl);
    CommitEvolves(s.w, a, id, sid, count, checksum, final);
    CommitAnswer(s.w, a, id, sid, count, checksum, final, ttl);
  }

  lemma OutcomeTold(db: Db, spent: map<SnapId, Actor>, jobs: set<RowId>, id: RowId)
    requires SnapshotsOk(db, spent, jobs) && (id in db.rows ==> Terminal(db.rows[id].status))
    ensures Told(db, id, TerminalOutcome(db, id))
  {
    if id in db.rows { assert RowSnapshotOk(db.rows[id], id, db.snapshots); }
  }

  lemma CancelStepSound(s: State, a: Actor, ttl: int)
    requires Inv(s, ttl) && a in s.pcs && (s.pcs[a].KUpdate? || s.pcs[a].KReread?)
    ensures Sound(s, CloseEffect(s, a, s.pcs[a]), a, ttl)
  {
    var pc := s.pcs[a];
    assert PcOk(s.w, a, pc, ttl);
    if pc.KUpdate? && Open(s.w.db, pc.target) { CancelSound(s, a, pc.target, ttl); }
    else { MoveSound(s, CloseEffect(s, a, pc), a, ttl); }
  }

  lemma SaveStepSound(s: State, a: Actor, ttl: int)
    requires Inv(s, ttl) && a in s.pcs && (s.pcs[a].SCommit? || s.pcs[a].SReread?)
    ensures Sound(s, CloseEffect(s, a, s.pcs[a]), a, ttl)
  {
    var pc := s.pcs[a];
    assert PcOk(s.w, a, pc, ttl);
    if pc.SCommit? && Open(s.w.db, pc.job) {
      SaveSound(s, a, pc.job, pc.sid, pc.count, pc.checksum, pc.final, ttl);
    } else {
      if pc.SReread? { OutcomeTold(s.w.db, s.w.spent, s.w.jobs, pc.job); }
      MoveSound(s, CloseEffect(s, a, pc), a, ttl);
    }
  }

  lemma CloseSound(s: State, a: Actor, ttl: int)
    requires Inv(s, ttl) && a in s.pcs && Closing(s.pcs[a])
    ensures Sound(s, CloseEffect(s, a, s.pcs[a]), a, ttl)
  {
    if s.pcs[a].KUpdate? || s.pcs[a].KReread? { CancelStepSound(s, a, ttl); } else { SaveStepSound(s, a, ttl); }
  }

  lemma HolderMinted(w: World, h: Hash, ttl: int)
    requires WorldOk(w, ttl) && Taken(w.db, Live(h))
    ensures var e := Holder(w.db, Live(h)).value; MintedFor(w, e, h) && e in w.born
  {
    var e := Holder(w.db, Live(h)).value;
    assert KeyOk(w.db.rows[e].key, e, w.minted[e].hash);
  }

  lemma LookupSound(s: State, a: Actor, ttl: int)
    requires Inv(s, ttl) && a in s.pcs && (s.pcs[a].CFind? || s.pcs[a].CFindWinner?)
    ensures Sound(s, CreateEffect(s, a, s.pcs[a], ttl), a, ttl)
  {
    var pc := s.pcs[a];
    assert PcOk(s.w, a, pc, ttl);
    if Taken(s.w.db, Live(pc.hash)) { HolderMinted(s.w, pc.hash, ttl); }
    MoveSound(s, CreateEffect(s, a, pc, ttl), a, ttl);
  }

  lemma DecideSound(s: State, a: Actor, ttl: int)
    requires Inv(s, ttl) && a in s.pcs && s.pcs[a].CDecide?
    ensures Sound(s, CreateEffect(s, a, s.pcs[a], ttl), a, ttl)
  {
    assert PcOk(s.w, a, s.pcs[a], ttl);
    MoveSound(s, CreateEffect(s, a, s.pcs[a], ttl), a, ttl);
  }

  lemma CacheSound(s: State, a: Actor, ttl: int)
    requires Inv(s, ttl) && a in s.pcs && (s.pcs[a].CRecache? || s.pcs[a].CCacheWinner? || s.pcs[a].CCache?)
    ensures Sound(s, CreateEffect(s, a, s.pcs[a], ttl), a, ttl)
  {
    assert PcOk(s.w, a, s.pcs[a], ttl);
    MoveSound(s, CreateEffect(s, a, s.pcs[a], ttl), a, ttl);
  }

  predicate Writing(pc: Pc) {
    pc.CInsert? || pc.CReinsert? || pc.CRotate? || pc.CEnqueue? || pc.CUndo?
  }

  lemma InsertStepSound(s: State, a: Actor, ttl: int)
    requires Inv(s, ttl) && a in s.pcs && (s.pcs[a].CInsert? || s.pcs[a].CReinsert?)
    ensures Sound(s, CreateEffect(s, a, s.pcs[a], ttl), a, ttl)
  {
    var pc := s.pcs[a];
    InsertSound(s, a, pc.hash, pc.id, if pc.CInsert? then CFind(pc.hash, pc.id) else CFindWinner(pc.hash, pc.id), ttl);
  }

  lemma RotateStepSound(s: State, a: Actor, h: Hash, id: RowId, e: RowId, ttl: int)
    requires Inv(s, ttl) && a in s.pcs && s.pcs[a] == CRotate(h, id, e)
    ensures Sound(s, CreateEffect(s, a, CRotate(h, id, e), ttl), a, ttl)
  {
    if e in s.w.db.rows { RotateSound(s, a, h, id, e, ttl); } else { MoveSound(s, At(s, a, Thrown), a, ttl); }
  }

  lemma WriteSound(s: State, a: Actor, ttl: int)
    requires Inv(s, ttl) && a in s.pcs && Writing(s.pcs[a])
    ensures Sound(s, CreateEffect(s, a, s.pcs[a], ttl), a, ttl)
  {
    match s.pcs[a]
    case CEnqueue(h, id) => EnqueueSound(s, a, h, id, ttl);
    case CUndo(h, id) => UndoSound(s, a, h, id, ttl);
    case CRotate(h, id, e) => RotateStepSound(s, a, h, id, e, ttl);
    case _ => InsertStepSound(s, a, ttl);
  }

  lemma CreateSound(s: State, a: Actor, ttl: int)
    requires Inv(s, ttl) && a in s.pcs && Busy(s.pcs[a]) && !Closing(s.pcs[a])
    ensures Sound(s, CreateEffect(s, a, s.pcs[a], ttl), a, ttl)
  {
    var pc := s.pcs[a];
    if Writing(pc) { WriteSound(s, a, ttl); }
    else if pc.CFind? || pc.CFindWinner? { LookupSound(s, a, ttl); }
    else if pc.CDecide? { DecideSound(s, a, ttl); }
    else { CacheSound(s, a, ttl); }
  }

  lemma EffectSound(s: State, a: Actor, ttl: int)
    requires Inv(s, ttl) && a in s.pcs && Busy(s.pcs[a])
    ensures Sound(s, Effect(s, a, s.pcs[a], ttl), a, ttl)
  {
    if Closing(s.pcs[a]) { CloseSound(s, a, ttl); } else { CreateSound(s, a, ttl); }
  }

  /** An error after the effect leaves the tables of the effect. */
  lemma FailSound(s: State, e: State, a: Actor, ttl: int)
    requires a in s.pcs && PcOk(s.w, a, s.pcs[a], ttl) && Sound(s, e, a, ttl)
    requires s.pcs[a].CEnqueue? ==> e.w.db == s.w.db
    ensures Sound(s, At(e, a, FailPc(s.pcs[a])), a, ttl)
  {
    assert PcOk(e.w, a, FailPc(s.pcs[a]), ttl);
  }

  lemma AdvanceKeeps(s: State, a: Actor, fault: Fault, ttl: int)
    requires Inv(s, ttl) && a in s.pcs && Busy(s.pcs[a])
    ensures Inv(AdvanceStep(s, a, s.pcs[a], fault, ttl), ttl)
  {
    var pc := s.pcs[a];
    EffectSound(s, a, ttl);
    if fault.Fine? || !CallsOut(s, pc, ttl) {
      SoundKeeps(s, Effect(s, a, pc, ttl), a, ttl);
    } else if fault.LostBefore? {
      assert PcOk(s.w, a, pc, ttl);
      MoveSound(s, At(s, a, FailPc(pc)), a, ttl);
      SoundKeeps(s, At(s, a, FailPc(pc)), a, ttl);
    } else {
      assert PcOk(s.w, a, pc, ttl);
      FailSound(s, Effect(s, a, pc, ttl), a, ttl);
      SoundKeeps(s, At(Effect(s, a, pc, ttl), a, FailPc(pc)), a, ttl);
    }
  }

  // ---------------------------------------------------------------- every step keeps the invariant

  lemma StartWorld(w: World, a: Actor, h: Hash, id: RowId, sid: SnapId, ttl: int)
    requires WorldOk(w, ttl)
    ensures id !in w.minted ==> WorldOk(w.(minted := w.minted[id := Mint(h, a)]), ttl)
    ensures id !in w.minted ==> Evolves(w, w.(minted := w.minted[id := Mint(h, a)]), Some(a))
    ensures sid !in w.spent ==> WorldOk(w.(spent := w.spent[sid := a]), ttl)
    ensures sid !in w.spent ==> Evolves(w, w.(spent := w.spent[sid := a]), Some(a))
  {
  }

  lemma StartCreateKeeps(s: State, a: Actor, h: Hash, id: RowId, ttl: int)
    requires Inv(s, ttl) && a !in s.pcs && id !in s.w.minted
    ensures Inv(At(s, a, CInsert(h, id)).(w := s.w.(minted := s.w.minted[id := Mint(h, a)])), ttl)
  {
    var s' := At(s, a, CInsert(h, id)).(w := s.w.(minted := s.w.minted[id := Mint(h, a)]));
    StartWorld(s.w, a, h, id, 0, ttl);
    assert PcOk(s'.w, a, CInsert(h, id), ttl);
    Assemble(s, s', Some(a), ttl);
  }

  lemma StartSaveKeeps(s: State, a: Actor, pc: Pc, ttl: int)
    requires Inv(s, ttl) && a !in s.pcs && pc.SCommit? && pc.job in s.w.jobs && pc.sid !in s.w.spent
    ensures Inv(At(s, a, pc).(w := s.w.(spent := s.w.spent[pc.sid := a])), ttl)
  {
    var s' := At(s, a, pc).(w := s.w.(spent := s.w.spent[pc.sid := a]));
    StartWorld(s.w, a, "", 0, pc.sid, ttl);
    assert PcOk(s'.w, a, pc, ttl);
    Assemble(s, s', Some(a), ttl);
  }

  /** A call answered from what it reads first: a cached id, a missing row, or a row already terminal. */
  lemma AnswerKeeps(s: State, a: Actor, pc: Pc, ttl: int)
    requires Inv(s, ttl) && PcOk(s.w, a, pc, ttl)
    ensures Inv(At(s, a, pc), ttl)
  {
    MoveSound(s, At(s, a, pc), a, ttl);
    SoundKeeps(s, At(s, a, pc), a, ttl);
  }

  lemma StartKeeps(s: State, act: Action, ttl: int)
    requires Inv(s, ttl) && (act.StartCreate? || act.StartCancel? || act.StartSave?)
    ensures Inv(Step(s, act, ttl), ttl)
  {
    match act
    case StartCreate(a, h, id) =>
      if a !in s.pcs && id !in s.w.minted {
        if h in s.cache && s.w.now < s.cache[h].until { AnswerKeeps(s, a, CDone(h, s.cache[h].id), ttl); }
        else { StartCreateKeeps(s, a, h, id, ttl); }
      }
    case StartCancel(a, id) =>
      if a !in s.pcs {
        if id !in s.w.db.rows { AnswerKeeps(s, a, KMissing, ttl); }
        else if Terminal(s.w.db.rows[id].status) { AnswerKeeps(s, a, KDone(id, s.w.db.rows[id].status), ttl); }
        else { AnswerKeeps(s, a, KUpdate(id), ttl); }
      }
    case StartSave(a, id, sid, count, checksum, final) =>
      if a !in s.pcs && sid !in s.w.spent && id in s.w.jobs {
        if id in s.w.db.rows && Terminal(s.w.db.rows[id].status) {
          OutcomeTold(s.w.db, s.w.spent, s.w.jobs, id);
          AnswerKeeps(s, a, SDone(id, TerminalOutcome(s.w.db, id)), ttl);
        } else {
          StartSaveKeeps(s, a, SCommit(id, sid, count, checksum, final), ttl);
        }
      }
  }

  lemma TickKeeps(s: State, dt: nat, ttl: int)
    requires Inv(s, ttl)
    ensures Inv(s.(w := s.w.(now := s.w.now + dt)), ttl)
  {
    Assemble(s, s.(w := s.w.(now := s.w.now + dt)), None, ttl);
  }

  lemma JobOverWorld(w: World, id: RowId, ttl: int)
    requires WorldOk(w, ttl) && id in w.jobs
    ensures var w' := w.(over := w.over + {id}); WorldOk(w', ttl) && Evolves(w, w', None)
  {
  }

  lemma JobOverKeeps(s: State, id: RowId, ttl: int)
    requires Inv(s, ttl) && id in s.w.jobs
    ensures Inv(s.(w := s.w.(over := s.w.over + {id})), ttl)
  {
    JobOverWorld(s.w, id, ttl);
    Assemble(s, s.(w := s.w.(over := s.w.over + {id})), None, ttl);
  }

  lemma EvictKeeps(s: State, h: Hash, ttl: int)
    requires Inv(s, ttl)
    ensures Inv(s.(cache := s.cache - {h}), ttl)
  {
    EvolvesToItself(s.w, None);
    Assemble(s, s.(cache := s.cache - {h}), None, ttl);
  }

  lemma WorkerKeeps(s: State, act: Action, ttl: int)
    requires Inv(s, ttl) && (act.MarkRunning? || act.Report? || act.FinalFailure?)
    ensures Inv(Step(s, act, ttl), ttl)
  {
    if act.id in s.w.jobs && Open(s.w.db, act.id) {
      var r := s.w.db.rows[act.id];
      JobWriteKeeps(s, act.id,
                    if act.MarkRunning? then r.(status := Running) else if act.FinalFailure? then r.(status := Failed)
                    else r.(progress := Progress(act.phase, PhasePercent(act.phase), Some(act.total))), ttl);
    }
  }

  /** Any one atomic operation of any actor, failing or not, and any actor's death keeps the invariant. */
  lemma StepKeeps(s: State, act: Action, ttl: int)
    requires Inv(s, ttl)
    ensures Inv(Step(s, act, ttl), ttl)
  {
    match act
    case Tick(dt) => TickKeeps(s, dt, ttl);
    case Evict(h) => EvictKeeps(s, h, ttl);
    case MarkRunning(_) => WorkerKeeps(s, act, ttl);
    case Report(_, _, _) => WorkerKeeps(s, act, ttl);
    case FinalFailure(_) => WorkerKeeps(s, act, ttl);
    case JobOver(id) => if id in s.w.jobs { JobOverKeeps(s, id, ttl); }
    case Advance(a, fault) => if a in s.pcs && Busy(s.pcs[a]) { AdvanceKeeps(s, a, fault, ttl); }
    case Die(a) => if a in s.pcs && Busy(s.pcs[a]) { AnswerKeeps(s, a, Gone, ttl); }
    case _ => StartKeeps(s, act, ttl);
  }

  /** Whose step an action is; worker and clock steps are nobody's. */
  function ActorOf(act: Action): Option<Actor> {
    match act
    case StartCreate(a, _, _) => Some(a)
    case StartCancel(a, _) => Some(a)
    case StartSave(a, _, _, _, _, _) => Some(a)
    case Advance(a, _) => Some(a)
    case Die(a) => Some(a)
    case _ => None
  }

  lemma AdvanceEvolves(s: State, a: Actor, fault: Fault, ttl: int)
    requires Inv(s, ttl) && a in s.pcs && Busy(s.pcs[a])
    ensures Evolves(s.w, AdvanceStep(s, a, s.pcs[a], fault, ttl).w, Some(a))
  {
    EffectSound(s, a, ttl);
    EvolvesToItself(s.w, Some(a));
  }

  lemma WorkerEvolves(s: State, act: Action, ttl: int)
    requires Inv(s, ttl) && (act.MarkRunning? || act.Report? || act.FinalFailure?)
    ensures Evolves(s.w, Step(s, act, ttl).w, None)
  {
    EvolvesToItself(s.w, None);
    if act.id in s.w.jobs && Open(s.w.db, act.id) {
      var r := s.w.db.rows[act.id];
      PutRowEvolves(s.w, act.id,
                    if act.MarkRunning? then r.(status := Running) else if act.FinalFailure? then r.(status := Failed)
                    else r.(progress := Progress(act.phase, PhasePercent(act.phase), Some(act.total))), None);
    }
  }

  /** Every action honours the guarantee. */
  lemma StepEvolves(s: State, act: Action, ttl: int)
    requires Inv(s, ttl)
    ensures Evolves(s.w, Step(s, act, ttl).w, ActorOf(act))
  {
    EvolvesToItself(s.w, ActorOf(act));
    match act
    case MarkRunning(_) => WorkerEvolves(s, act, ttl);
    case Report(_, _, _) => WorkerEvolves(s, act, ttl);
    case FinalFailure(_) => WorkerEvolves(s, act, ttl);
    case JobOver(id) => if id in s.w.jobs { JobOverWorld(s.w, id, ttl); }
    case StartCreate(a, h, id) => StartWorld(s.w, a, h, id, 0, ttl);
    case StartSave(a, id, sid, _, _, _) => StartWorld(s.w, a, "", 0, sid, ttl);
    case Advance(a, fault) => if a in s.pcs && Busy(s.pcs[a]) { AdvanceEvolves(s, a, fault, ttl); }
    case _ =>
  }
}
