/**
 * The stores the lifecycle writes: every method is one atomic statement or call of the service, the
 * snapshot transaction or the worker, and leaves exactly the state the step functions describe.
 */
module AnalysisSystem {
  import opened Base
  import opened AnalysisLifecycle

  class Stores {
    const ttl: int
    var db: Db
    var now: int
    var cache: map<Hash, CacheEntry>
    var jobs: set<RowId>
    var over: set<RowId>
    var minted: map<RowId, Mint>
    var born: set<RowId>
    var spent: map<SnapId, Actor>
    var pcs: map<Actor, Pc>

    ghost function View(): State
      reads this
    {
      State(World(db, now, jobs, over, minted, born, spent), cache, pcs)
    }

    ghost predicate Valid()
      reads this
    {
      Inv(View(), ttl)
    }

    /** The unique index on the key. */
    ghost predicate Indexed()
      reads this`db
    {
      forall i, j :: i in db.rows && j in db.rows && db.rows[i].key == db.rows[j].key ==> i == j
    }

    constructor (ttl: int, t0: int)
      ensures this.ttl == ttl && View() == Init(t0) && Valid()
    {
      this.ttl := ttl;
      db, now, cache := Db(map[], map[]), t0, map[];
      jobs, over, minted, born, spent, pcs := {}, {}, map[], {}, map[], map[];
    }

    method Tick(dt: nat)
      requires Valid()
      modifies this
      ensures View() == Step(old(View()), Action.Tick(dt), ttl) && Valid()
    {
      StepKeeps(View(), Action.Tick(dt), ttl);
      now := now + dt;
    }

    method EvictCache(hash: Hash)
      requires Valid()
      modifies this
      ensures View() == Step(old(View()), Evict(hash), ttl) && Valid()
    {
      StepKeeps(View(), Evict(hash), ttl);
      cache := cache - {hash};
    }

    /** The fast path of `create`, or the mint of a fresh id when the cache misses. */
    method BeginCreate(a: Actor, hash: Hash, id: RowId) returns (answer: Option<RowId>)
      requires Valid() && a !in pcs && id !in minted
      modifies this
      ensures View() == Step(old(View()), StartCreate(a, hash, id), ttl) && Valid()
      ensures answer.Some? ==> MintedFor(View().w, answer.value, hash)
    {
      StepKeeps(View(), StartCreate(a, hash, id), ttl);
      if hash in cache && now < cache[hash].until {
        answer := Some(cache[hash].id);
        pcs := pcs[a := CDone(hash, cache[hash].id)];
      } else {
        answer := None;
        minted := minted[id := Mint(hash, a)];
        pcs := pcs[a := CInsert(hash, id)];
      }
    }

    /** Looks a key up through the unique index. */
    method FindByKey(key: Key) returns (holder: Option<RowId>)
      requires Indexed()
      ensures holder == Holder(db, key)
    {
      if exists id :: id in db.rows && db.rows[id].key == key {
        var id :| id in db.rows && db.rows[id].key == key;
        holder := Some(id);
      } else {
        holder := None;
      }
    }

    /** Inserts the queued row; the unique index refuses it when the digest is taken. */
    method InsertQueued(a: Actor, hash: Hash, id: RowId, onConflict: Pc) returns (inserted: bool)
      requires Indexed()
      modifies this
      ensures View() == TryInsert(old(View()), a, hash, id, onConflict)
      ensures inserted <==> !Taken(old(db), Live(hash))
    {
      var holder := FindByKey(Live(hash));
      inserted := holder.None?;
      if inserted {
        db := db.(rows := db.rows[id := NewRow(hash, now)]);
        born := born + {id};
        pcs := pcs[a := CEnqueue(hash, id)];
      } else {
        pcs := pcs[a := onConflict];
      }
    }

    /** The read after a refused insert; a row that is gone by then ends the call with the error. */
    method FindHolder(a: Actor)
      requires Indexed() && a in pcs && (pcs[a].CFind? || pcs[a].CFindWinner?)
      modifies this`pcs
      ensures View() == CreateEffect(old(View()), a, old(pcs[a]), ttl)
    {
      var pc := pcs[a];
      var holder := FindByKey(Live(pc.hash));
      if holder.None? {
        pcs := pcs[a := Thrown];
      } else if pc.CFind? {
        pcs := pcs[a := CDecide(pc.hash, pc.id, holder.value, db.rows[holder.value])];
      } else {
        pcs := pcs[a := CCacheWinner(pc.hash, holder.value)];
      }
    }

    /** Answers with the row within its window or still in flight; rotates it otherwise. */
    method Decide(a: Actor)
      requires a in pcs && pcs[a].CDecide?
      modifies this`pcs
      ensures View() == CreateEffect(old(View()), a, old(pcs[a]), ttl)
    {
      var CDecide(h, id, e, seen) := pcs[a];
      if now - seen.createdAt <= ttl {
        pcs := pcs[a := CRecache(h, e, seen.createdAt)];
      } else if !Terminal(seen.status) {
        pcs := pcs[a := CRecache(h, e, seen.createdAt)];
      } else {
        pcs := pcs[a := CRotate(h, id, e)];
      }
    }

    /** Archives the key of an expired terminal row. */
    method Rotate(a: Actor)
      requires a in pcs && pcs[a].CRotate?
      modifies this
      ensures View() == CreateEffect(old(View()), a, old(pcs[a]), ttl)
    {
      var CRotate(h, id, e) := pcs[a];
      if e in db.rows {
        db := db.(rows := db.rows[e := db.rows[e].(key := Expired(h, e))]);
        pcs := pcs[a := CReinsert(h, id)];
      } else {
        pcs := pcs[a := Thrown];
      }
    }

    /** Adds the job. */
    method Enqueue(a: Actor)
      requires a in pcs && pcs[a].CEnqueue?
      modifies this
      ensures View() == CreateEffect(old(View()), a, old(pcs[a]), ttl)
    {
      var CEnqueue(h, id) := pcs[a];
      jobs := jobs + {id};
      pcs := pcs[a := CCache(h, id)];
    }

    /** Deletes the row whose job could not be added, and throws the error on. */
    method Undo(a: Actor)
      requires a in pcs && pcs[a].CUndo?
      modifies this
      ensures View() == CreateEffect(old(View()), a, old(pcs[a]), ttl)
    {
      db := db.(rows := db.rows - {pcs[a].id});
      pcs := pcs[a := Thrown];
    }

    /** The cache writes that precede an answer; a row past its window is answered without one. */
    method CacheThenAnswer(a: Actor)
      requires a in pcs && (pcs[a].CRecache? || pcs[a].CCacheWinner? || pcs[a].CCache?)
      modifies this
      ensures View() == CreateEffect(old(View()), a, old(pcs[a]), ttl)
    {
      match pcs[a]
      case CRecache(h, e, createdAt) =>
        var left := createdAt + ttl - now;
        if left > 0 {
          cache := cache[h := CacheEntry(e, now + left)];
        }
        pcs := pcs[a := CDone(h, e)];
      case CCacheWinner(h, winner) =>
        cache := cache[h := CacheEntry(winner, now + ttl)];
        pcs := pcs[a := CDone(h, winner)];
      case CCache(h, id) =>
        cache := cache[h := CacheEntry(id, now + ttl)];
        pcs := pcs[a := CDone(h, id)];
    }

    /** The conditional cancel, and the read of the row it did not hit. */
    method Cancel(a: Actor)
      requires a in pcs && (pcs[a].KUpdate? || pcs[a].KReread?)
      modifies this
      ensures View() == CloseEffect(old(View()), a, old(pcs[a]))
    {
      var id := pcs[a].target;
      if pcs[a].KUpdate? {
        var hit := UpdateOpen(id, Canceled);
        pcs := pcs[a := if hit then KDone(id, Canceled) else KReread(id)];
      } else {
        pcs := pcs[a := KDone(id, if id in db.rows then db.rows[id].status else Canceled)];
      }
    }

    /** Commits the snapshot, its rows and the final status together, or nothing when the row turned terminal. */
    method Commit(a: Actor)
      requires a in pcs && pcs[a].SCommit?
      modifies this
      ensures View() == CloseEffect(old(View()), a, old(pcs[a]))
    {
      var SCommit(id, sid, count, checksum, final) := pcs[a];
      if id in db.rows && !Terminal(db.rows[id].status) {
        var status := if final.FinalPartial? then Partial else Completed;
        var row := db.rows[id].(status := status, progress := FinalProgress(final, count), snapshot := Some(sid));
        db := Db(db.rows[id := row], db.snapshots[sid := Snapshot(id, count, checksum)]);
        pcs := pcs[a := SDone(id, Outcome(Some(sid), count, checksum))];
      } else {
        pcs := pcs[a := SReread(id)];
      }
    }

    /** Performs an actor's next operation as it ends normally. */
    method Perform(a: Actor)
      requires Indexed() && a in pcs && Busy(pcs[a])
      modifies this
      ensures View() == Effect(old(View()), a, old(pcs[a]), ttl)
    {
      match pcs[a]
      case CInsert(h, id) => var _ := InsertQueued(a, h, id, CFind(h, id));
      case CReinsert(h, id) => var _ := InsertQueued(a, h, id, CFindWinner(h, id));
      case CFind(_, _) => FindHolder(a);
      case CFindWinner(_, _) => FindHolder(a);
      case CDecide(_, _, _, _) => Decide(a);
      case CRotate(_, _, _) => Rotate(a);
      case CEnqueue(_, _) => Enqueue(a);
      case CUndo(_, _) => Undo(a);
      case CRecache(_, _, _) => CacheThenAnswer(a);
      case CCacheWinner(_, _) => CacheThenAnswer(a);
      case CCache(_, _) => CacheThenAnswer(a);
      case KUpdate(_) => Cancel(a);
      case KReread(_) => Cancel(a);
      case SCommit(_, _, _, _, _) => Commit(a);
      case SReread(id) => pcs := pcs[a := SDone(id, TerminalOutcome(db, id))];
    }

    /** The call of operation `pc` fails: a failed enqueue is to be undone, any other error is thrown on. */
    method Fail(a: Actor, pc: Pc)
      modifies this`pcs
      ensures View() == At(old(View()), a, FailPc(pc))
    {
      if pc.CEnqueue? {
        pcs := pcs[a := CUndo(pc.hash, pc.id)];
      } else {
        pcs := pcs[a := Thrown];
      }
    }

    method Attempt(a: Actor, fault: Fault)
      requires Indexed() && a in pcs && Busy(pcs[a])
      modifies this
      ensures View() == AdvanceStep(old(View()), a, old(pcs[a]), fault, ttl)
    {
      var pc := pcs[a];
      var calls := !pc.CDecide? && (pc.CRecache? ==> pc.createdAt + ttl - now > 0);
      if fault.Fine? || !calls {
        Perform(a);
      } else if fault.LostBefore? {
        Fail(a, pc);
      } else {
        Perform(a);
        Fail(a, pc);
      }
    }

    /** An actor's next operation, whose call may fail before or after its effect. */
    method Next(a: Actor, fault: Fault)
      requires Valid() && a in pcs && Busy(pcs[a])
      modifies this
      ensures View() == Step(old(View()), Advance(a, fault), ttl) && Valid()
    {
      AdvanceKeeps(View(), a, fault, ttl);
      Attempt(a, fault);
    }

    /** The process running an actor dies. */
    method Kill(a: Actor)
      requires Valid() && a in pcs && Busy(pcs[a])
      modifies this
      ensures View() == Step(old(View()), Die(a), ttl) && Valid()
    {
      StepKeeps(View(), Die(a), ttl);
      pcs := pcs[a := Gone];
    }

    /** Reads the row `cancel` is about; a terminal one is answered at once. */
    method BeginCancel(a: Actor, id: RowId)
      requires Valid() && a !in pcs
      modifies this
      ensures View() == Step(old(View()), StartCancel(a, id), ttl) && Valid()
    {
      StepKeeps(View(), StartCancel(a, id), ttl);
      if id !in db.rows {
        pcs := pcs[a := KMissing];
      } else if Terminal(db.rows[id].status) {
        pcs := pcs[a := KDone(id, db.rows[id].status)];
      } else {
        pcs := pcs[a := KUpdate(id)];
      }
    }

    /** Opens a snapshot transaction for an enqueued analysis and reads its status. */
    method BeginSave(a: Actor, id: RowId, sid: SnapId, count: nat, checksum: string, final: FinalStatus)
      requires Valid() && a !in pcs && sid !in spent && id in jobs
      modifies this
      ensures View() == Step(old(View()), StartSave(a, id, sid, count, checksum, final), ttl) && Valid()
    {
      StepKeeps(View(), StartSave(a, id, sid, count, checksum, final), ttl);
      if id in db.rows && Terminal(db.rows[id].status) {
        pcs := pcs[a := SDone(id, TerminalOutcome(db, id))];
      } else {
        spent := spent[sid := a];
        pcs := pcs[a := SCommit(id, sid, count, checksum, final)];
      }
    }

    /** The conditional status update every writer shares; says whether a row was hit. */
    method UpdateOpen(id: RowId, status: Status) returns (hit: bool)
      modifies this`db
      ensures db == WriteStatus(old(db), id, status) && (hit <==> Open(old(db), id))
    {
      hit := id in db.rows && !Terminal(db.rows[id].status);
      if hit {
        db := db.(rows := db.rows[id := db.rows[id].(status := status)]);
      }
    }

    /** A worker's status write: best effort, so one that fails leaves everything as it is. */
    method MarkStatus(id: RowId, status: Status, written: bool)
      modifies this`db
      ensures db == if written then WriteStatus(old(db), id, status) else old(db)
    {
      if written {
        var _ := UpdateOpen(id, status);
      }
    }

    /** A worker starts the job. */
    method MarkJobRunning(id: RowId, written: bool)
      requires Valid() && id in jobs
      modifies this
      ensures View() == if written then Step(old(View()), MarkRunning(id), ttl) else old(View())
      ensures Valid()
    {
      StepKeeps(View(), MarkRunning(id), ttl);
      MarkStatus(id, Running, written);
    }

    /** The worker's `failed` event: only a failure that will not be retried is to reach the row. */
    method OnFailed(id: RowId, finished: bool, attemptsMade: nat, attempts: Option<nat>, written: bool)
      requires Valid() && id in jobs
      modifies this
      ensures var last := finished || attemptsMade >= (if attempts.Some? then attempts.value else 1);
        View() == if last && written then Step(old(View()), FinalFailure(id), ttl) else old(View())
      ensures Valid()
    {
      StepKeeps(View(), FinalFailure(id), ttl);
      var limit := 1;
      if attempts.Some? {
        limit := attempts.value;
      }
      if !finished && attemptsMade < limit {
        return;
      }
      MarkStatus(id, Failed, written);
    }

    /** The job has ended for good, and whoever was to handle that has. */
    method EndJob(id: RowId)
      requires Valid() && id in jobs
      modifies this
      ensures View() == Step(old(View()), JobOver(id), ttl) && Valid()
    {
      StepKeeps(View(), JobOver(id), ttl);
      over := over + {id};
    }

    /** Mirrors a progress frame into the row, unless the row is terminal; best effort as well. */
    method MirrorProgress(id: RowId, phase: Phase, total: nat, written: bool)
      requires Valid() && id in jobs
      modifies this
      ensures View() == if written then Step(old(View()), Report(id, phase, total), ttl) else old(View())
      ensures Valid()
    {
      StepKeeps(View(), Report(id, phase, total), ttl);
      if written && id in db.rows && !Terminal(db.rows[id].status) {
        db := db.(rows := db.rows[id := db.rows[id].(progress := Progress(phase, PhasePercent(phase), Some(total)))]);
      }
    }
  }
}
