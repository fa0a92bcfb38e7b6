/**
 * Creating and resetting an AI-search run: concurrent requests with the same key, database and queue calls that may
 * fail before or after taking effect, requests and workers that die, and the worker that picks the job up.
 */
module AiSearchRuns {
  import opened Base

  type Actor = nat

  datatype RunStatus = Queued | Running | Completed | Partial | Failed | Canceled

  predicate Resettable(s: RunStatus) {
    s.Failed? || s.Canceled? || s.Partial?
  }

  /** What the active delivery has written so far. */
  datatype Wrote = Nothing | SaidRunning | SaidFinal

  /** The queue's record for the run's id. */
  datatype JobState = Absent | Waiting | Delayed | Active(wrote: Wrote) | Finished

  /** Where a request stands inside `create`. */
  datatype Pc = PInsert | PReset | PGetJob | PState | PRemove | PAdd | PFail | PDone(created: bool) | PThrown | PDead

  datatype Fault = Fine | LostBefore | LostAfter

  datatype State = State(
    status: Option<RunStatus>,
    job: JobState,
    producers: map<Actor, Pc>,
    resets: nat,          // conditional updates that hit the row
    resettableWrites: nat) // writes that left the row in a resettable status

  datatype Action =
    | Begin(a: Actor)
    | Advance(a: Actor, fault: Fault)
    | Pick
    | MarkRunning
    | Conclude(status: RunStatus)      // the delivery reports `completed` or `partial`
    | WorkerWrite(status: RunStatus)   // any write of a delivery that lost its lock, or did not get an answer
    | Settle
    | Retry                            // a delivery threw, attempts are left
    | GiveUp(written: bool)            // the last attempt threw; `written`: its failure write went through
    | Promote
    | Stall
    | StallLimit
    | Evict
    | Die(a: Actor)

  const START: State := State(None, Absent, map[], 0, 0)

  function Write(s: State, st: RunStatus): State {
    s.(status := Some(st), resettableWrites := s.resettableWrites + if Resettable(st) then 1 else 0)
  }

  function At(s: State, a: Actor, pc: Pc): State {
    s.(producers := s.producers[a := pc])
  }

  function Added(j: JobState): JobState {
    if j.Absent? then Waiting else j
  }

  /** The insert and the conditional reset; a request whose call fails throws. */
  function Win(s: State, a: Actor, reset: nat, fault: Fault): State {
    if fault.LostBefore? then At(s, a, PThrown)
    else At(s, a, if fault.Fine? then PGetJob else PThrown).(status := Some(Queued), resets := s.resets + reset)
  }

  function ProducerStep(s: State, a: Actor, pc: Pc, fault: Fault): State {
    match pc
    case PInsert =>
      if s.status.None? then Win(s, a, 0, fault) else At(s, a, if fault.Fine? then PDone(false) else PThrown)
    case PReset =>
      if s.status.Some? && Resettable(s.status.value) then Win(s, a, 1, fault)
      else At(s, a, if fault.Fine? then PDone(false) else PThrown)
    case PGetJob =>
      if !fault.Fine? then At(s, a, PFail) else if s.job.Absent? then At(s, a, PAdd) else At(s, a, PState)
    case PState => if !fault.Fine? || s.job.Active? then At(s, a, PFail) else At(s, a, PRemove)
    case PRemove =>
      if fault.LostBefore? || s.job.Active? then At(s, a, PFail)
      else At(s, a, if fault.Fine? then PAdd else PFail).(job := Absent)
    case PAdd =>
      if fault.LostBefore? then At(s, a, PFail)
      else At(s, a, if fault.Fine? then PDone(true) else PFail).(job := Added(s.job))
    case PFail => At(if fault.LostBefore? then s else Write(s, Failed), a, PThrown)
    case _ => s
  }

  predicate InCreate(pc: Pc) {
    !pc.PDone? && !pc.PThrown? && !pc.PDead?
  }

  function Step(s: State, act: Action): State {
    match act
    case Begin(a) =>
      if a in s.producers then s
      else if s.status.None? then At(s, a, PInsert)
      else if Resettable(s.status.value) then At(s, a, PReset)
      else At(s, a, PDone(false))
    case Advance(a, fault) => if a in s.producers then ProducerStep(s, a, s.producers[a], fault) else s
    case Pick => if s.job.Waiting? then s.(job := Active(Nothing)) else s
    case MarkRunning => if s.job == Active(Nothing) then Write(s, Running).(job := Active(SaidRunning)) else s
    case Conclude(st) =>
      if s.job == Active(SaidRunning) && (st.Completed? || st.Partial?) then Write(s, st).(job := Active(SaidFinal)) else s
    case WorkerWrite(st) => if s.status.Some? && st != Queued then Write(s, st) else s
    case Settle => if s.job == Active(SaidFinal) then s.(job := Finished) else s
    case Retry => if s.job.Active? then s.(job := Delayed) else s
    case GiveUp(written) =>
      if s.job.Active? && s.status.Some? then (if written then Write(s, Failed) else s).(job := Finished) else s
    case Promote => if s.job.Delayed? then s.(job := Waiting) else s
    case Stall => if s.job.Active? then s.(job := Waiting) else s
    case StallLimit => if s.job.Active? then s.(job := Finished) else s
    case Evict => if s.job.Finished? then s.(job := Absent) else s
    case Die(a) => if a in s.producers && InCreate(s.producers[a]) then At(s, a, PDead) else s
  }

  function Exec(s: State, acts: seq<Action>): State
    decreases |acts|
  {
    if acts == [] then s else Exec(Step(s, acts[0]), acts[1..])
  }

  // ---------------------------------------------------------------- a run in flight has an owner

  /** Not yet at an end; only a run that is at an end can be reset. */
  predicate InFlight(status: Option<RunStatus>) {
    status == Some(Queued) || status == Some(Running)
  }

  /** Inside `create`, past the write that made the run queued. */
  predicate Inside(pc: Pc) {
    pc.PGetJob? || pc.PState? || pc.PRemove? || pc.PAdd? || pc.PFail?
  }

  predicate Live(j: JobState) {
    j.Waiting? || j.Delayed? || j.Active?
  }

  ghost predicate HasOwner(s: State) {
    InFlight(s.status) ==> Live(s.job) || exists a :: a in s.producers && Inside(s.producers[a])
  }

  /** A request other than `but` that is yet to look at the job, or is bound to mark the run failed. */
  ghost predicate Answerable(s: State, but: Option<Actor>) {
    exists a :: a in s.producers && Some(a) != but && Inside(s.producers[a]) && !s.producers[a].PAdd?
  }

  ghost predicate Adding(s: State, but: Option<Actor>) {
    exists a :: a in s.producers && Some(a) != but && s.producers[a].PAdd?
  }

  /** A job whose delivery has yet to report the end, or someone about to add one, or someone still answerable. */
  ghost predicate Safe(s: State, but: Option<Actor>) {
    || Answerable(s, but)
    || s.job.Waiting? || s.job.Delayed? || (s.job.Active? && !s.job.wrote.SaidFinal?)
    || (s.job.Absent? && Adding(s, but))
  }

  /** The inductive form of having an owner. */
  ghost predicate Covered(s: State) {
    InFlight(s.status) ==> Safe(s, None)
  }

  /** The queue lets go of a job whose last delivery has not reported the end: by the stall limit, or without a failure write. */
  predicate Discards(s: State, act: Action) {
    (act.StallLimit? || (act.GiveUp? && !act.written)) && s.job.Active? && !s.job.wrote.SaidFinal? && InFlight(s.status)
  }

  /**
   * A request leaves a run in flight behind: it dies inside `create`, the write that was to mark the run failed is lost,
   * or the answer of the insert or reset that made the run queued is.
   */
  predicate Deserts(s: State, act: Action) {
    match act
    case Die(a) => a in s.producers && Inside(s.producers[a]) && InFlight(s.status)
    case Advance(a, LostBefore) => a in s.producers && s.producers[a].PFail? && InFlight(s.status)
    case Advance(a, LostAfter) =>
      && a in s.producers
      && ((s.producers[a].PInsert? && s.status.None?)
          || (s.producers[a].PReset? && s.status.Some? && Resettable(s.status.value)))
    case _ => false
  }

  /** A delivery that lost its lock writes `running` over the end of the run: status writes of workers are unconditional. */
  predicate Revives(s: State, act: Action) {
    act == WorkerWrite(Running) && s.status.Some? && !InFlight(s.status)
  }

  /** The steps that can strand a run: one of the three, when nobody else covers it. */
  ghost predicate Strands(s: State, act: Action) {
    || (Discards(s, act) && !Answerable(s, None))
    || (Deserts(s, act) && !Safe(s, Some(act.a)))
    || (Revives(s, act) && !Safe(s, None))
  }

  lemma CoveredHasOwner(s: State)
    requires Covered(s)
    ensures HasOwner(s)
  {
  }

  /** A request's step leaves every other request where it was. */
  lemma OthersCover(s: State, s': State, a: Actor)
    requires forall b :: b != a ==> (b in s'.producers <==> b in s.producers)
    requires forall b :: b != a && b in s.producers ==> s'.producers[b] == s.producers[b]
    ensures Answerable(s', Some(a)) == Answerable(s, Some(a)) && Adding(s', Some(a)) == Adding(s, Some(a))
    ensures Answerable(s, None) <==> Answerable(s, Some(a)) || (a in s.producers && Inside(s.producers[a]) && !s.producers[a].PAdd?)
    ensures Adding(s, None) <==> Adding(s, Some(a)) || (a in s.producers && s.producers[a].PAdd?)
  {
  }

  lemma ProducerCovers(s: State, a: Actor, fault: Fault)
    requires Covered(s) && a in s.producers
    ensures Covered(ProducerStep(s, a, s.producers[a], fault)) <==> !Strands(s, Advance(a, fault))
  {
    var s' := ProducerStep(s, a, s.producers[a], fault);
    OthersCover(s, s', a);
    OthersCover(s', s', a);
  }

  lemma DeathCovers(s: State, a: Actor)
    requires Covered(s)
    ensures Covered(Step(s, Die(a))) <==> !Strands(s, Die(a))
  {
    OthersCover(s, Step(s, Die(a)), a);
    OthersCover(Step(s, Die(a)), Step(s, Die(a)), a);
  }

  /** Exactly these steps leave a run in flight without anyone responsible for it. */
  lemma OnlyTheseStrand(s: State, act: Action)
    requires Covered(s)
    ensures Covered(Step(s, act)) <==> !Strands(s, act)
  {
    var s' := Step(s, act);
    if act.Advance? {
      if act.a in s.producers { ProducerCovers(s, act.a, act.fault); }
    } else if act.Die? {
      DeathCovers(s, act.a);
    } else if act.Begin? {
      OthersCover(s, s', act.a);
      OthersCover(s', s', act.a);
    } else {
      assert s'.producers == s.producers;
      assert Answerable(s', None) == Answerable(s, None) && Adding(s', None) == Adding(s, None);
    }
  }

  ghost predicate Attended(s: State, but: Option<Actor>) {
    exists a :: a in s.producers && Some(a) != but && Inside(s.producers[a])
  }

  /** What it takes to lose the owner at once: nobody else inside `create`, and unless it is the job that goes no live job. */
  ghost predicate LosesOwner(s: State, act: Action) {
    || (Discards(s, act) && !Attended(s, None))
    || (Deserts(s, act) && !Live(s.job) && !Attended(s, Some(act.a)))
    || (Revives(s, act) && !Live(s.job) && !Attended(s, None))
  }

  lemma OthersAttend(s: State, s': State, a: Actor)
    requires forall b :: b != a ==> (b in s'.producers <==> b in s.producers)
    requires forall b :: b != a && b in s.producers ==> s'.producers[b] == s.producers[b]
    ensures Attended(s', Some(a)) == Attended(s, Some(a))
    ensures Attended(s, None) <==> Attended(s, Some(a)) || (a in s.producers && Inside(s.producers[a]))
  {
  }

  lemma NoStrandNoLoss(s: State, act: Action)
    requires LosesOwner(s, act)
    ensures Strands(s, act)
  {
  }

  /** In one step a covered run loses its owner exactly so. */
  lemma OwnerLostIff(s: State, act: Action)
    requires Covered(s)
    ensures HasOwner(Step(s, act)) <==> !LosesOwner(s, act)
  {
    var s' := Step(s, act);
    if Strands(s, act) {
      StrandedOwner(s, act);
    } else {
      OnlyTheseStrand(s, act);
      CoveredHasOwner(s');
      if LosesOwner(s, act) { NoStrandNoLoss(s, act); assert false; }
    }
  }

  lemma StrandedOwner(s: State, act: Action)
    requires Strands(s, act)
    ensures HasOwner(Step(s, act)) <==> !LosesOwner(s, act)
  {
    var s' := Step(s, act);
    if Deserts(s, act) {
      OthersAttend(s, s', act.a);
      OthersAttend(s', s', act.a);
    } else {
      assert s'.producers == s.producers;
      assert Attended(s', None) == Attended(s, None);
    }
  }

  /** The requests about to add a job add none over a finished one; when they are done nobody owns the run. */
  lemma {:induction false} AddersLeave(s: State, adders: set<Actor>) returns (more: seq<Action>)
    requires InFlight(s.status) && s.job.Finished?
    requires forall a :: a in s.producers && Inside(s.producers[a]) <==> a in adders
    requires forall a :: a in adders ==> s.producers[a].PAdd?
    ensures forall act :: act in more ==> act.Advance? && act.fault.Fine?
    ensures !HasOwner(Exec(s, more))
    decreases adders
  {
    if adders == {} {
      more := [];
    } else {
      var a :| a in adders;
      var s' := Step(s, Advance(a, Fine));
      assert s' == At(s, a, PDone(true));
      var rest := AddersLeave(s', adders - {a});
      more := [Advance(a, Fine)] + rest;
      assert more[1..] == rest;
    }
  }

  /** What a stranding step leaves: nobody answerable, and a job that is over or about to be. */
  lemma StrandedState(s: State, act: Action)
    requires Covered(s) && Strands(s, act)
    ensures var s' := Step(s, act);
      && InFlight(s'.status)
      && (forall a :: a in s'.producers && Inside(s'.producers[a]) ==> s'.producers[a].PAdd?)
      && (s'.job.Finished? || s'.job == Active(SaidFinal) || (s'.job.Absent? && !Adding(s', None)))
  {
    var s' := Step(s, act);
    OnlyTheseStrand(s, act);
    forall a | a in s'.producers && Inside(s'.producers[a]) ensures s'.producers[a].PAdd? {
      assert !Answerable(s', None);
    }
  }

  /**
   * And every stranding step does cost the run its owner: as soon as the delivery in progress has settled and the adding
   * requests have finished, without any further error.
   */
  lemma StrandingLosesOwner(s: State, act: Action) returns (more: seq<Action>)
    requires Covered(s) && Strands(s, act)
    ensures forall act' :: act' in more ==> act'.Settle? || (act'.Advance? && act'.fault.Fine?)
    ensures !HasOwner(Exec(Step(s, act), more))
  {
    var s' := Step(s, act);
    StrandedState(s, act);
    var adders := set a | a in s'.producers && Inside(s'.producers[a]);
    if s'.job.Absent? {
      assert !HasOwner(s');
      more := [];
    } else if s'.job.Finished? {
      more := AddersLeave(s', adders);
    } else {
      var rest := AddersLeave(Step(s', Settle), adders);
      more := [Settle] + rest;
      assert more[1..] == rest;
    }
  }

  ghost predicate NeverStrands(s: State, acts: seq<Action>)
    decreases |acts|
  {
    acts != [] ==> !Strands(s, acts[0]) && NeverStrands(Step(s, acts[0]), acts[1..])
  }

  lemma {:induction false} RunCovered(s: State, acts: seq<Action>)
    requires Covered(s) && NeverStrands(s, acts)
    ensures Covered(Exec(s, acts))
    decreases |acts|
  {
    if acts != [] {
      OnlyTheseStrand(s, acts[0]);
      RunCovered(Step(s, acts[0]), acts[1..]);
    }
  }

  /** Whatever else fails or dies: without a stranding step a queued or running run always has a request inside `create` or a live job. */
  lemma RunInFlightHasOwner(acts: seq<Action>)
    requires NeverStrands(START, acts)
    ensures HasOwner(Exec(START, acts))
  {
    RunCovered(START, acts);
    CoveredHasOwner(Exec(START, acts));
  }

  lemma {:induction false} ExecAppends(s: State, xs: seq<Action>, ys: seq<Action>)
    ensures Exec(s, xs + ys) == Exec(Exec(s, xs), ys)
    decreases |xs|
  {
    if xs == [] {
      assert xs + ys == ys;
    } else {
      assert (xs + ys)[1..] == xs[1..] + ys;
      ExecAppends(Step(s, xs[0]), xs[1..], ys);
    }
  }

  lemma Two(s: State, a: Action, b: Action)
    ensures Exec(s, [a, b]) == Step(Step(s, a), b)
  {
    assert [a, b][1..] == [b] && [b][1..] == [];
    assert Exec(Step(s, a), [b]) == Exec(Step(Step(s, a), b), []);
  }

  lemma Four(s: State, a: Action, b: Action, c: Action, d: Action)
    ensures Exec(s, [a, b, c, d]) == Step(Step(Step(Step(s, a), b), c), d)
  {
    assert [a, b, c, d] == [a, b] + [c, d];
    ExecAppends(s, [a, b], [c, d]);
    Two(s, a, b);
    Two(Step(Step(s, a), b), c, d);
  }

  /** A first request inserts the run and adds its job. */
  const CREATE: seq<Action> := [Begin(0), Advance(0, Fine), Advance(0, Fine), Advance(0, Fine)]

  lemma Created()
    ensures Exec(START, CREATE) == State(Some(Queued), Waiting, map[0 := PDone(true)], 0, 0)
  {
    Four(START, Begin(0), Advance(0, Fine), Advance(0, Fine), Advance(0, Fine));
  }

  /** A worker that dies too often before it has written `running` leaves the run queued. */
  lemma DiscardedJobStrandsRun()
    ensures var s := Exec(START, CREATE + [Pick, StallLimit]); s.status == Some(Queued) && !HasOwner(s)
  {
    Created();
    ExecAppends(START, CREATE, [Pick, StallLimit]);
    Two(Exec(START, CREATE), Pick, StallLimit);
  }

  /** One that lost its job to a successor and writes `running` after that has reported the end leaves the run running. */
  lemma LateRunningStrandsRun()
    ensures var s := Exec(START, CREATE + [Pick, MarkRunning, Stall, Pick] + [MarkRunning, Conclude(Completed), Settle, WorkerWrite(Running)]);
      s.status == Some(Running) && !HasOwner(s)
  {
    Created();
    var s := Exec(START, CREATE);
    ExecAppends(START, CREATE, [Pick, MarkRunning, Stall, Pick]);
    Four(s, Pick, MarkRunning, Stall, Pick);
    var s' := State(Some(Running), Active(Nothing), map[0 := PDone(true)], 0, 0);
    assert Exec(START, CREATE + [Pick, MarkRunning, Stall, Pick]) == s';
    ExecAppends(START, CREATE + [Pick, MarkRunning, Stall, Pick], [MarkRunning, Conclude(Completed), Settle, WorkerWrite(Running)]);
    Four(s', MarkRunning, Conclude(Completed), Settle, WorkerWrite(Running));
  }

  /** And a request whose queue call fails and whose failure write is lost leaves it queued. */
  lemma LostFailureWriteStrandsRun()
    ensures var s := Exec(START, [Begin(0), Advance(0, Fine), Advance(0, LostBefore), Advance(0, LostBefore)]);
      s.status == Some(Queued) && !HasOwner(s)
  {
    Four(START, Begin(0), Advance(0, Fine), Advance(0, LostBefore), Advance(0, LostBefore));
  }

  // ---------------------------------------------------------------- what an undisturbed request and delivery come to

  /** The next `n` operations of one request, all ending normally. */
  function Alone(s: State, a: Actor, n: nat): State
    decreases n
  {
    if n == 0 then s else Alone(Step(s, Advance(a, Fine)), a, n - 1)
  }

  lemma {:induction false} DoneStays(s: State, a: Actor, n: nat)
    requires a in s.producers && !InCreate(s.producers[a])
    ensures Alone(s, a, n) == s
    decreases n
  {
    if n > 0 { DoneStays(Step(s, Advance(a, Fine)), a, n - 1); }
  }

  /** Past the insert or the reset: the finished, waiting or delayed job of an earlier run is replaced, an active one is an error. */
  lemma EnqueueMeans(s: State, a: Actor, n: nat)
    requires n >= 4 && a in s.producers && s.producers[a].PGetJob?
    ensures Alone(s, a, n)
         == if s.job.Active? then
              State(Some(Failed), s.job, s.producers[a := PThrown], s.resets, s.resettableWrites + 1)
            else s.(job := Waiting, producers := s.producers[a := PDone(true)])
  {
    if s.job.Absent? {
      AddMeans(At(s, a, PAdd), a, n - 1);
    } else if s.job.Active? {
      assert Step(s, Advance(a, Fine)) == At(s, a, PState);
      FailMeans(At(At(s, a, PState), a, PFail), a, n - 2);
    } else {
      assert Step(s, Advance(a, Fine)) == At(s, a, PState);
      RemoveMeans(At(At(s, a, PState), a, PRemove), a, n - 2);
      assert s.producers[a := PState][a := PRemove][a := PDone(true)] == s.producers[a := PDone(true)];
    }
  }

  lemma AddMeans(s: State, a: Actor, n: nat)
    requires n >= 1 && a in s.producers && s.producers[a].PAdd? && s.job.Absent?
    ensures Alone(s, a, n) == s.(job := Waiting, producers := s.producers[a := PDone(true)])
  {
    DoneStays(Step(s, Advance(a, Fine)), a, n - 1);
  }

  lemma RemoveMeans(s: State, a: Actor, n: nat)
    requires n >= 2 && a in s.producers && s.producers[a].PRemove? && !s.job.Active?
    ensures Alone(s, a, n) == s.(job := Waiting, producers := s.producers[a := PDone(true)])
  {
    var s1 := At(s, a, PAdd).(job := Absent);
    assert Step(s, Advance(a, Fine)) == s1;
    AddMeans(s1, a, n - 1);
    assert s.producers[a := PAdd][a := PDone(true)] == s.producers[a := PDone(true)];
  }

  lemma FailMeans(s: State, a: Actor, n: nat)
    requires n >= 1 && a in s.producers && s.producers[a].PFail?
    ensures Alone(s, a, n)
         == s.(status := Some(Failed), resettableWrites := s.resettableWrites + 1, producers := s.producers[a := PThrown])
  {
    DoneStays(Step(s, Advance(a, Fine)), a, n - 1);
  }

  /**
   * A request alone: a run that is queued, running or completed is answered as it is; one that does not exist, or ended
   * failed, canceled or partial, is queued with a waiting job, unless its old job is still active, which fails the run.
   */
  lemma RequestMeans(s: State, a: Actor, n: nat)
    requires n >= 5 && a !in s.producers
    ensures Alone(Step(s, Begin(a)), a, n)
         == if s.status == Some(Queued) || s.status == Some(Running) || s.status == Some(Completed) then
              s.(producers := s.producers[a := PDone(false)])
            else
              var resets := s.resets + if s.status.None? then 0 else 1;
              if s.job.Active? then State(Some(Failed), s.job, s.producers[a := PThrown], resets, s.resettableWrites + 1)
              else State(Some(Queued), Waiting, s.producers[a := PDone(true)], resets, s.resettableWrites)
  {
    var s1 := Step(s, Begin(a));
    if s.status == Some(Queued) || s.status == Some(Running) || s.status == Some(Completed) {
      DoneStays(s1, a, n);
    } else {
      var pc := if s.status.None? then PInsert else PReset;
      assert s1 == At(s, a, pc);
      var s2 := State(Some(Queued), s.job, s.producers[a := PGetJob], s.resets + (if s.status.None? then 0 else 1), s.resettableWrites);
      assert s.producers[a := pc][a := PGetJob] == s.producers[a := PGetJob];
      assert Step(s1, Advance(a, Fine)) == s2;
      EnqueueMeans(s2, a, n - 1);
      assert s.producers[a := PGetJob][a := PThrown] == s.producers[a := PThrown];
      assert s.producers[a := PGetJob][a := PDone(true)] == s.producers[a := PDone(true)];
    }
  }

  /** A delivery alone: running, then the status it reports; a last attempt that throws reports `failed`, an earlier one is retried. */
  lemma DeliveryMeans(s: State, st: RunStatus)
    requires s.job.Waiting? && s.status.Some? && (st.Completed? || st.Partial?)
    ensures Exec(s, [Pick, MarkRunning]).status == Some(Running)
    ensures Exec(s, [Pick, MarkRunning, Conclude(st), Settle])
         == s.(status := Some(st), job := Finished, resettableWrites := s.resettableWrites + if st.Partial? then 1 else 0)
    ensures Exec(s, [Pick, GiveUp(true)]) == s.(status := Some(Failed), job := Finished, resettableWrites := s.resettableWrites + 1)
    ensures Exec(s, [Pick, Retry]) == s.(job := Delayed) && Exec(s, [Pick, Retry, Promote, Pick]) == s.(job := Active(Nothing))
  {
    Two(s, Pick, MarkRunning);
    Four(s, Pick, MarkRunning, Conclude(st), Settle);
    Two(s, Pick, GiveUp(true));
    Two(s, Pick, Retry);
    Four(s, Pick, Retry, Promote, Pick);
  }

  // ---------------------------------------------------------------- one winner per reset

  predicate Counted(s: State) {
    s.resets + (if s.status.Some? && Resettable(s.status.value) then 1 else 0) <= s.resettableWrites
  }

  lemma {:induction false} RunCounted(s: State, acts: seq<Action>)
    requires Counted(s)
    ensures Counted(Exec(s, acts))
    decreases |acts|
  {
    if acts != [] { RunCounted(Step(s, acts[0]), acts[1..]); }
  }

  /** However many requests race, every reset that wins uses up one write of a resettable status. */
  lemma EachResetHasOneWinner(acts: seq<Action>)
    ensures Exec(START, acts).resets <= Exec(START, acts).resettableWrites
  {
    RunCounted(START, acts);
  }

  /** After one request has won, no other wins until the run is written resettable again. */
  lemma {:induction false} NoSecondWinner(s: State, acts: seq<Action>)
    requires s.status.Some? && !Resettable(s.status.value)
    requires Exec(s, acts).resettableWrites == s.resettableWrites
    ensures Exec(s, acts).resets == s.resets
    decreases |acts|
  {
    if acts != [] {
      WritesGrow(Step(s, acts[0]), acts[1..]);
      NoSecondWinner(Step(s, acts[0]), acts[1..]);
    }
  }

  lemma {:induction false} WritesGrow(s: State, acts: seq<Action>)
    ensures Exec(s, acts).resettableWrites >= s.resettableWrites
    decreases |acts|
  {
    if acts != [] { WritesGrow(Step(s, acts[0]), acts[1..]); }
  }

  // ---------------------------------------------------------------- the stores

  class RunStore {
    var status: Option<RunStatus>
    var job: JobState
    var producers: map<Actor, Pc>
    ghost var resets: nat
    ghost var resettableWrites: nat

    constructor ()
      ensures View() == START
    {
      status, job, producers, resets, resettableWrites := None, Absent, map[], 0, 0;
    }

    ghost function View(): State
      reads this
    {
      State(status, job, producers, resets, resettableWrites)
    }

    /** The lookup that opens `createRun`. */
    method FindRun(a: Actor)
      requires a !in producers
      modifies this
      ensures View() == Step(old(View()), Begin(a))
    {
      if status.None? {
        producers := producers[a := PInsert];
      } else if Resettable(status.value) {
        producers := producers[a := PReset];
      } else {
        producers := producers[a := PDone(false)];
      }
    }

    /** The insert or the conditional reset; `created` tells whether this request must enqueue. */
    method CreateOrReset(a: Actor, fault: Fault) returns (created: bool)
      requires a in producers && (producers[a].PInsert? || producers[a].PReset?)
      modifies this
      ensures View() == Step(old(View()), Advance(a, fault))
      ensures created <==> producers[a].PGetJob?
    {
      var hit := if producers[a].PInsert? then status.None? else status.Some? && Resettable(status.value);
      if hit && !fault.LostBefore? {
        if producers[a].PReset? { resets := resets + 1; }
        status := Some(Queued);
      }
      created := hit && fault.Fine?;
      if created {
        producers := producers[a := PGetJob];
      } else {
        producers := producers[a := if fault.Fine? then PDone(false) else PThrown];
      }
    }

    /** The next queue call of `enqueueReusingJobId`. */
    method EnqueueStep(a: Actor, fault: Fault)
      requires a in producers && (producers[a].PGetJob? || producers[a].PState? || producers[a].PRemove? || producers[a].PAdd?)
      modifies this
      ensures View() == Step(old(View()), Advance(a, fault))
    {
      match producers[a]
      case PGetJob =>
        producers := producers[a := if !fault.Fine? then PFail else if job.Absent? then PAdd else PState];
      case PState =>
        producers := producers[a := if !fault.Fine? || job.Active? then PFail else PRemove];
      case PRemove =>
        if fault.LostBefore? || job.Active? {
          producers := producers[a := PFail];
        } else {
          job := Absent;
          producers := producers[a := if fault.Fine? then PAdd else PFail];
        }
      case PAdd =>
        if !fault.LostBefore? && job.Absent? {
          job := Waiting;
        }
        producers := producers[a := if fault.Fine? then PDone(true) else PFail];
    }

    /** The unconditional status write. */
    method MarkStatus(st: RunStatus)
      modifies this`status, this`resettableWrites
      ensures View() == Write(old(View()), st)
    {
      status := Some(st);
      resettableWrites := resettableWrites + if Resettable(st) then 1 else 0;
    }

    /** The enqueue failed: the run is marked failed, not deleted, and an error goes to the caller. */
    method FailEnqueue(a: Actor, fault: Fault)
      requires a in producers && producers[a].PFail?
      modifies this
      ensures View() == Step(old(View()), Advance(a, fault))
    {
      if !fault.LostBefore? {
        MarkStatus(Failed);
      }
      producers := producers[a := PThrown];
    }
  }
}
