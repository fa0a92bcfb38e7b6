/** The lease that keeps scheduled sweeps apart: taken in one statement, given back at the end, expiring after a crash. */
module SweepLease {
  import opened Base

  /** What became of an attempt to sweep. */
  datatype Sweep =
    | Live(acquiredAt: int)
    | Ended(acquiredAt: int, endedAt: int, written: bool)   // `written`: its release reached the table
    | Crashed(acquiredAt: int)
    | Skipped

  /** `lease` is the stored expiry, `now` the database clock. */
  datatype State = State(lease: Option<int>, now: int, sweeps: seq<Sweep>)

  /** A failed release leaves the stored expiry alone; an acquisition whose answer is lost is one that crashes at once. */
  datatype Action = Tick(ms: nat) | Acquire | Release(i: nat, written: bool) | Crash(i: nat)

  predicate Free(lease: Option<int>, now: int) {
    lease.None? || lease.value < now
  }

  function Step(s: State, a: Action, ttl: nat): State {
    match a
    case Tick(ms) => s.(now := s.now + ms)
    case Acquire =>
      if Free(s.lease, s.now) then State(Some(s.now + ttl), s.now, s.sweeps + [Live(s.now)])
      else s.(sweeps := s.sweeps + [Skipped])
    case Release(i, written) =>
      if i < |s.sweeps| && s.sweeps[i].Live? then
        State(if written && s.lease.Some? then Some(s.now) else s.lease, s.now,
              s.sweeps[i := Ended(s.sweeps[i].acquiredAt, s.now, written)])
      else s
    case Crash(i) =>
      if i < |s.sweeps| && s.sweeps[i].Live? then s.(sweeps := s.sweeps[i := Crashed(s.sweeps[i].acquiredAt)]) else s
  }

  function Exec(actions: seq<Action>, start: int, ttl: nat): State {
    if actions == [] then State(None, start, []) else Step(Exec(actions[..|actions| - 1], start, ttl), Last(actions), ttl)
  }

  /** No live sweep has run longer than the lease lasts. */
  ghost predicate Timely(s: State, ttl: nat) {
    forall i :: 0 <= i < |s.sweeps| && s.sweeps[i].Live? ==> s.now <= s.sweeps[i].acquiredAt + ttl
  }

  ghost predicate TimelyRun(actions: seq<Action>, start: int, ttl: nat) {
    forall n :: 0 <= n <= |actions| ==> Timely(Exec(actions[..n], start, ttl), ttl)
  }

  ghost predicate AtMostOneLive(s: State) {
    forall i, j :: 0 <= i < |s.sweeps| && 0 <= j < |s.sweeps| && s.sweeps[i].Live? && s.sweeps[j].Live? ==> i == j
  }

  /** The live sweep, if any, holds the stored lease. */
  ghost predicate HeldByLive(s: State, ttl: nat) {
    forall i :: 0 <= i < |s.sweeps| && s.sweeps[i].Live? ==> s.lease == Some(s.sweeps[i].acquiredAt + ttl)
  }

  /** The last moment a sweep keeps others out: a written release cuts it short, a crash or a failed release does not. */
  function Until(sweep: Sweep, ttl: nat): int
    requires !sweep.Skipped?
  {
    if sweep.Ended? && sweep.written then sweep.endedAt else sweep.acquiredAt + ttl
  }

  predicate Blocks(sweep: Sweep, now: int, ttl: nat) {
    !sweep.Skipped? && now <= Until(sweep, ttl)
  }

  ghost predicate NoneBlocks(sweeps: seq<Sweep>, now: int, ttl: nat) {
    forall i :: 0 <= i < |sweeps| ==> !Blocks(sweeps[i], now, ttl)
  }

  /** The stored expiry is the latest moment any sweep keeps others out. */
  ghost predicate LatestStored(s: State, ttl: nat) {
    && (forall i :: 0 <= i < |s.sweeps| && !s.sweeps[i].Skipped? ==> s.lease.Some? && Until(s.sweeps[i], ttl) <= s.lease.value)
    && (s.lease.Some? ==> exists i :: 0 <= i < |s.sweeps| && !s.sweeps[i].Skipped? && Until(s.sweeps[i], ttl) == s.lease.value)
  }

  /** What a live sweep took over had run out before. */
  ghost predicate OthersOver(s: State, ttl: nat) {
    && (forall i :: 0 <= i < |s.sweeps| && !s.sweeps[i].Skipped? ==> s.sweeps[i].acquiredAt <= s.now)
    && (forall i, j :: 0 <= i < |s.sweeps| && 0 <= j < |s.sweeps| && i != j && s.sweeps[i].Live? && !s.sweeps[j].Skipped? ==>
          Until(s.sweeps[j], ttl) < s.sweeps[i].acquiredAt)
  }

  ghost predicate Orderly(s: State, ttl: nat) {
    AtMostOneLive(s) && HeldByLive(s, ttl) && LatestStored(s, ttl) && OthersOver(s, ttl)
  }

  lemma TakenOrderly(s: State, ttl: nat)
    requires Orderly(s, ttl) && Timely(s, ttl) && Free(s.lease, s.now)
    ensures Orderly(State(Some(s.now + ttl), s.now, s.sweeps + [Live(s.now)]), ttl)
  {
    var sweeps' := s.sweeps + [Live(s.now)];
    assert sweeps'[|s.sweeps|] == Live(s.now);
    forall i | 0 <= i < |s.sweeps| ensures !sweeps'[i].Live? && (!sweeps'[i].Skipped? ==> Until(sweeps'[i], ttl) < s.now) {
      assert sweeps'[i] == s.sweeps[i];
    }
  }

  lemma SkippedOrderly(s: State, ttl: nat)
    requires Orderly(s, ttl) && s.lease.Some?
    ensures Orderly(s.(sweeps := s.sweeps + [Skipped]), ttl)
  {
    var sweeps' := s.sweeps + [Skipped];
    assert sweeps'[|s.sweeps|] == Skipped;
    var i :| 0 <= i < |s.sweeps| && !s.sweeps[i].Skipped? && Until(s.sweeps[i], ttl) == s.lease.value;
    assert sweeps'[i] == s.sweeps[i];
  }

  lemma AcquireOrderly(s: State, ttl: nat)
    requires Orderly(s, ttl) && Timely(s, ttl)
    ensures Orderly(Step(s, Acquire, ttl), ttl)
  {
    if Free(s.lease, s.now) { TakenOrderly(s, ttl); } else { SkippedOrderly(s, ttl); }
  }

  lemma EndOrderly(s: State, ttl: nat, i: nat, sweep: Sweep, lease: Option<int>)
    requires Orderly(s, ttl) && Timely(s, ttl) && i < |s.sweeps| && s.sweeps[i].Live?
    requires sweep == Crashed(s.sweeps[i].acquiredAt) || (sweep.Ended? && sweep.acquiredAt == s.sweeps[i].acquiredAt && sweep.endedAt == s.now)
    requires lease == Some(Until(sweep, ttl))
    ensures Orderly(State(lease, s.now, s.sweeps[i := sweep]), ttl)
  {
    var s' := State(lease, s.now, s.sweeps[i := sweep]);
    assert s'.sweeps[i] == sweep;
    forall j | 0 <= j < |s.sweeps| && !s'.sweeps[j].Skipped? ensures Until(s'.sweeps[j], ttl) <= lease.value {
      if j != i { assert Until(s.sweeps[j], ttl) < s.sweeps[i].acquiredAt; }
    }
  }

  lemma StepKeepsOrder(s: State, a: Action, ttl: nat)
    requires Orderly(s, ttl) && Timely(s, ttl)
    ensures Orderly(Step(s, a, ttl), ttl)
  {
    match a
    case Tick(ms) =>
    case Acquire => AcquireOrderly(s, ttl);
    case Release(i, written) =>
      if i < |s.sweeps| && s.sweeps[i].Live? {
        var sweep := Ended(s.sweeps[i].acquiredAt, s.now, written);
        EndOrderly(s, ttl, i, sweep, Some(Until(sweep, ttl)));
      }
    case Crash(i) =>
      if i < |s.sweeps| && s.sweeps[i].Live? { EndOrderly(s, ttl, i, Crashed(s.sweeps[i].acquiredAt), s.lease); }
  }

  lemma {:induction false} TimelyRunOrderly(actions: seq<Action>, start: int, ttl: nat)
    requires TimelyRun(actions, start, ttl)
    ensures Orderly(Exec(actions, start, ttl), ttl) && Timely(Exec(actions, start, ttl), ttl)
  {
    assert actions[..|actions|] == actions;
    if actions != [] {
      var before := actions[..|actions| - 1];
      assert forall n :: 0 <= n <= |before| ==> before[..n] == actions[..n];
      TimelyRunOrderly(before, start, ttl);
      StepKeepsOrder(Exec(before, start, ttl), Last(actions), ttl);
    }
  }

  /** If every sweep ends, crashes or is done within the lease time, at most one sweep is live at any moment. */
  lemma SingleFlight(actions: seq<Action>, start: int, ttl: nat)
    requires TimelyRun(actions, start, ttl)
    ensures AtMostOneLive(Exec(actions, start, ttl)) && HeldByLive(Exec(actions, start, ttl), ttl)
  {
    TimelyRunOrderly(actions, start, ttl);
  }

  lemma ExecSnoc(actions: seq<Action>, a: Action, start: int, ttl: nat)
    ensures Exec(actions + [a], start, ttl) == Step(Exec(actions, start, ttl), a, ttl)
  {
    assert (actions + [a])[..|actions|] == actions;
  }

  lemma OverlapFrom(s: State, i: nat, ttl: nat)
    requires AtMostOneLive(s) && HeldByLive(s, ttl) && i < |s.sweeps| && s.sweeps[i].Live?
    ensures !AtMostOneLive(Step(s, Acquire, ttl)) <==> s.now > s.sweeps[i].acquiredAt + ttl
  {
    var s' := Step(s, Acquire, ttl);
    assert s'.sweeps[i] == s.sweeps[i];
    if s.now > s.sweeps[i].acquiredAt + ttl { assert s'.sweeps[|s.sweeps|].Live?; }
  }

  /** The lease time is exact: another sweep can start beside a live one precisely when the live one is overdue. */
  lemma OverlapIffOverdue(before: seq<Action>, last: Action, start: int, ttl: nat, i: nat)
    requires TimelyRun(before, start, ttl)
    requires i < |Exec(before + [last], start, ttl).sweeps| && Exec(before + [last], start, ttl).sweeps[i].Live?
    ensures var s := Exec(before + [last], start, ttl);
      !AtMostOneLive(Step(s, Acquire, ttl)) <==> s.now > s.sweeps[i].acquiredAt + ttl
  {
    TimelyRunOrderly(before, start, ttl);
    ExecSnoc(before, last, start, ttl);
    StepKeepsOrder(Exec(before, start, ttl), last, ttl);
    OverlapFrom(Exec(before + [last], start, ttl), i, ttl);
  }

  /** The lease has no owner: an overdue sweep that ends gives away the lease of the sweep that replaced it. */
  lemma LateReleaseFreesOthers(ttl: nat)
    requires ttl >= 1
    ensures var s := Exec([Acquire, Tick(ttl + 1), Acquire, Release(0, true), Tick(1), Acquire], 0, ttl);
      s.sweeps == [Ended(0, ttl + 1, true), Live(ttl + 1), Live(ttl + 2)] && s.now <= s.sweeps[1].acquiredAt + ttl
  {
    var s0 := State(None, 0, []);
    assert Exec([], 0, ttl) == s0;
    TwoMore([], Acquire, Tick(ttl + 1), 0, ttl);
    var run2 := [Acquire, Tick(ttl + 1)];
    assert [] + run2 == run2;
    var s2 := State(Some(ttl), ttl + 1, [Live(0)]);
    assert Step(s0, Acquire, ttl) == State(Some(ttl), 0, [Live(0)]);
    assert Exec(run2, 0, ttl) == s2;
    TwoMore(run2, Acquire, Release(0, true), 0, ttl);
    var run4 := [Acquire, Tick(ttl + 1), Acquire, Release(0, true)];
    assert run2 + [Acquire, Release(0, true)] == run4;
    assert Step(s2, Acquire, ttl) == State(Some(ttl + 1 + ttl), ttl + 1, [Live(0), Live(ttl + 1)]);
    var s4 := State(Some(ttl + 1), ttl + 1, [Ended(0, ttl + 1, true), Live(ttl + 1)]);
    assert Exec(run4, 0, ttl) == s4;
    TwoMore(run4, Tick(1), Acquire, 0, ttl);
    assert run4 + [Tick(1), Acquire] == [Acquire, Tick(ttl + 1), Acquire, Release(0, true), Tick(1), Acquire];
  }

  lemma {:induction false} ExpiryBounded(actions: seq<Action>, start: int, ttl: nat)
    ensures var s := Exec(actions, start, ttl); s.lease.Some? ==> s.lease.value <= s.now + ttl
  {
    if actions != [] { ExpiryBounded(actions[..|actions| - 1], start, ttl); }
  }

  /** The decision the table makes from one stored expiry is the one the sweeps' own histories call for. */
  lemma FreeIffNoneBlocks(s: State, ttl: nat)
    requires Orderly(s, ttl)
    ensures Free(s.lease, s.now) <==> NoneBlocks(s.sweeps, s.now, ttl)
  {
    if s.lease.Some? {
      var i :| 0 <= i < |s.sweeps| && !s.sweeps[i].Skipped? && Until(s.sweeps[i], ttl) == s.lease.value;
      assert Blocks(s.sweeps[i], s.now, ttl) <==> s.now <= s.lease.value;
    }
  }

  /**
   * When every sweep has been timely, an attempt succeeds if and only if no earlier sweep still blocks it: none is
   * live or died within the lease time, none failed to release within it, and none released at this very instant.
   */
  lemma AcquireSucceedsIff(before: seq<Action>, last: Action, start: int, ttl: nat)
    requires TimelyRun(before, start, ttl)
    ensures var s := Exec(before + [last], start, ttl);
      Last(Step(s, Acquire, ttl).sweeps) == Live(s.now) <==> NoneBlocks(s.sweeps, s.now, ttl)
  {
    TimelyRunOrderly(before, start, ttl);
    ExecSnoc(before, last, start, ttl);
    StepKeepsOrder(Exec(before, start, ttl), last, ttl);
    FreeIffNoneBlocks(Exec(before + [last], start, ttl), ttl);
  }

  /** After any history, crashes included, the lease is free again once it has been left alone for longer than it lasts. */
  lemma RecoversWithinTtl(actions: seq<Action>, start: int, ttl: nat, idle: nat)
    requires idle > ttl
    ensures var s := Exec(actions + [Tick(idle), Acquire], start, ttl); s.sweeps != [] && Last(s.sweeps) == Live(s.now)
  {
    ExpiryBounded(actions, start, ttl);
    TwoMore(actions, Tick(idle), Acquire, start, ttl);
  }

  /**
   * A sweep that ends in time hands over at once: the next attempt succeeds from the next millisecond on if the release
   * was written, and after the rest of the lease time if it was not.
   */
  lemma HandsOver(actions: seq<Action>, start: int, ttl: nat, i: nat, written: bool, idle: nat)
    requires TimelyRun(actions, start, ttl)
    requires i < |Exec(actions, start, ttl).sweeps| && Exec(actions, start, ttl).sweeps[i].Live?
    ensures var s := Exec(actions, start, ttl);
      var next := Exec(actions + [Release(i, written)] + [Tick(idle), Acquire], start, ttl);
      next.now == s.now + idle
      && (Last(next.sweeps) == Live(next.now) <==> if written then idle >= 1 else next.now > s.sweeps[i].acquiredAt + ttl)
  {
    TimelyRunOrderly(actions, start, ttl);
    ExecSnoc(actions, Release(i, written), start, ttl);
    TwoMore(actions + [Release(i, written)], Tick(idle), Acquire, start, ttl);
  }

  lemma TwoMore(actions: seq<Action>, a: Action, b: Action, start: int, ttl: nat)
    ensures Exec(actions + [a, b], start, ttl) == Step(Step(Exec(actions, start, ttl), a, ttl), b, ttl)
  {
    assert actions + [a, b] == (actions + [a]) + [b];
    ExecSnoc(actions + [a], b, start, ttl);
    ExecSnoc(actions, a, start, ttl);
  }

  // ---------------------------------------------------------------- the service

  class SweepLeases {
    const ttl: nat
    var lease: Option<int>
    var now: int
    var sweeps: seq<Sweep>

    constructor (ttl: nat, start: int)
      ensures this.ttl == ttl && View() == Exec([], start, ttl)
    {
      this.ttl := ttl;
      lease, now, sweeps := None, start, [];
    }

    ghost function View(): State
      reads this
    {
      State(lease, now, sweeps)
    }

    /** Inserts the row, or renews it where it has expired: one statement; the caller sweeps if it got a row back. */
    method Acquire() returns (acquired: bool)
      modifies this
      ensures View() == Step(old(View()), Action.Acquire, ttl)
      ensures acquired <==> Last(sweeps) == Live(now)
      ensures Orderly(old(View()), ttl) ==> (acquired <==> NoneBlocks(old(sweeps), now, ttl))
      ensures Orderly(old(View()), ttl) && Timely(old(View()), ttl) ==> Orderly(View(), ttl)
    {
      if Orderly(View(), ttl) {
        FreeIffNoneBlocks(View(), ttl);
        if Timely(View(), ttl) { AcquireOrderly(View(), ttl); }
      }
      if lease.None? {
        lease := Some(now + ttl);
        acquired := true;
      } else if lease.value < now {
        lease := Some(now + ttl);
        acquired := true;
      } else {
        acquired := false;
      }
      sweeps := sweeps + [if acquired then Live(now) else Skipped];
    }

    /** Sweep `i` ends and expires the stored lease, whoever holds it; an update that fails is only logged. */
    method Release(i: nat, written: bool)
      requires i < |sweeps| && sweeps[i].Live?
      modifies this
      ensures View() == Step(old(View()), Action.Release(i, written), ttl)
      ensures Orderly(old(View()), ttl) && Timely(old(View()), ttl) ==>
                Orderly(View(), ttl) && (NoneBlocks(sweeps, now + 1, ttl) <==> written || now >= old(sweeps[i]).acquiredAt + ttl)
    {
      ghost var before := View();
      if written && lease.Some? {
        lease := Some(now);
      }
      sweeps := sweeps[i := Ended(sweeps[i].acquiredAt, now, written)];
      if Orderly(before, ttl) && Timely(before, ttl) {
        StepKeepsOrder(before, Action.Release(i, written), ttl);
        assert Orderly(View().(now := now + 1), ttl);
        FreeIffNoneBlocks(View().(now := now + 1), ttl);
      }
    }

    /** The process running sweep `i` dies. */
    method Crash(i: nat)
      requires i < |sweeps| && sweeps[i].Live?
      modifies this`sweeps
      ensures View() == Step(old(View()), Action.Crash(i), ttl)
    {
      sweeps := sweeps[i := Crashed(sweeps[i].acquiredAt)];
    }

    method Pass(ms: nat)
      modifies this`now
      ensures View() == Step(old(View()), Tick(ms), ttl)
    {
      now := now + ms;
    }
  }
}
