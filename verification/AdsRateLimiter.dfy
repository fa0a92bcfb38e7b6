/**
 * The distributed Ads rate limiter: an atomic slot reservation on a shared key that expires,
 * callers whose clocks disagree, and the retry loop that reserves a slot for every attempt.
 */
module AdsRateLimiter {
  import opened Base

  const SLOT_TTL_BUFFER_MS: nat := 1000
  const MAX_BACKOFF_DOUBLINGS: nat := 2

  /** The shared key of one account; `deadline` is on the server's clock. */
  datatype SlotKey = Absent | Present(slot: int, deadline: int)

  /**
   * One reservation call: the caller's clock, the server's clock at that moment, and whether the server has
   * already dropped a key whose deadline is exactly now.
   */
  datatype Call = Call(now: int, server: int, dropped: bool) {
    function Skew(): int { now - server }
  }

  predicate Visible(key: SlotKey, c: Call) {
    key.Present? && (c.server < key.deadline || (c.server == key.deadline && !c.dropped))
  }

  function ReservedSlot(key: SlotKey, c: Call, minTime: int): int {
    var last := if Visible(key, c) then key.slot else 0;
    if last + minTime > c.now then last + minTime else c.now
  }

  function ReserveKey(key: SlotKey, c: Call, minTime: int, buffer: int): SlotKey {
    var slot := ReservedSlot(key, c, minTime);
    Present(slot, c.server + (slot - c.now) + minTime + buffer)
  }

  /** A reservation: `minTime` after the slot the caller still sees, but not before its own time, kept a second past its use. */
  lemma ReservationMeans(key: SlotKey, c: Call, minTime: int)
    ensures var gone := key.Absent? || key.deadline < c.server || (key.deadline == c.server && c.dropped);
      var next := (if gone then 0 else key.slot) + minTime;
      var slot := if next > c.now then next else c.now;
      ReserveKey(key, c, minTime, SLOT_TTL_BUFFER_MS) == Present(slot, c.server + (slot - c.now) + minTime + 1000)
  {
  }

  /** The slots a run of calls receives, whoever makes them. */
  function Slots(key: SlotKey, calls: seq<Call>, minTime: int, buffer: int): (r: seq<int>)
    ensures |r| == |calls|
    decreases |calls|
  {
    if calls == [] then []
    else [ReservedSlot(key, calls[0], minTime)] + Slots(ReserveKey(key, calls[0], minTime, buffer), calls[1..], minTime, buffer)
  }

  function KeyAfter(key: SlotKey, calls: seq<Call>, minTime: int, buffer: int): SlotKey
    decreases |calls|
  {
    if calls == [] then key else KeyAfter(ReserveKey(key, calls[0], minTime, buffer), calls[1..], minTime, buffer)
  }

  /** Any two callers' clock offsets differ by at most `bound`. */
  ghost predicate SkewWithin(calls: seq<Call>, bound: int) {
    forall i, j :: 0 <= i < |calls| && 0 <= j < |calls| ==> calls[i].Skew() - calls[j].Skew() <= bound
  }

  ghost predicate ServerMonotone(calls: seq<Call>) {
    forall i, j :: 0 <= i < j < |calls| ==> calls[i].server <= calls[j].server
  }

  ghost predicate Spaced(slots: seq<int>, minTime: int) {
    forall i :: 0 <= i < |slots| - 1 ==> slots[i + 1] >= slots[i] + minTime
  }

  /** The step of the spacing proof: a key that is gone was gone late enough. */
  lemma NextSlotSpaced(key: SlotKey, c: Call, d: Call, minTime: int, buffer: int)
    requires c.Skew() - d.Skew() <= buffer
    ensures ReservedSlot(ReserveKey(key, c, minTime, buffer), d, minTime) >= ReservedSlot(key, c, minTime) + minTime
  {
  }

  lemma {:induction false} SlotsSpaced(key: SlotKey, calls: seq<Call>, minTime: int, buffer: int)
    requires SkewWithin(calls, buffer)
    ensures Spaced(Slots(key, calls, minTime, buffer), minTime)
    decreases |calls|
  {
    if |calls| >= 2 {
      var key' := ReserveKey(key, calls[0], minTime, buffer);
      assert SkewWithin(calls[1..], buffer);
      SlotsSpaced(key', calls[1..], minTime, buffer);
      NextSlotSpaced(key, calls[0], calls[1], minTime, buffer);
      var rest := Slots(key', calls[1..], minTime, buffer);
      var all := Slots(key, calls, minTime, buffer);
      forall i | 0 <= i < |all| - 1 ensures all[i + 1] >= all[i] + minTime {
        if i > 0 { assert rest[i] >= rest[i - 1] + minTime; }
      }
    }
  }

  function Max(a: int, b: int): int {
    if a > b then a else b
  }

  /** Nobody waits longer than needed: a slot is the caller's own time, or just far enough from the slot before it. */
  lemma {:induction false} SlotsTight(key: SlotKey, calls: seq<Call>, minTime: int, buffer: int, i: nat)
    requires i + 1 < |calls| && calls[i + 1].now >= minTime
    ensures calls[i + 1].now <= Slots(key, calls, minTime, buffer)[i + 1]
         <= Max(calls[i + 1].now, Slots(key, calls, minTime, buffer)[i] + minTime)
    decreases |calls|
  {
    var key' := ReserveKey(key, calls[0], minTime, buffer);
    if i > 0 {
      SlotsTight(key', calls[1..], minTime, buffer, i - 1);
    } else {
      assert Slots(key', calls[1..], minTime, buffer)[0] == ReservedSlot(key', calls[1], minTime);
    }
  }

  /** Every run of `bound`-synchronised callers on a monotone server is spaced. */
  ghost predicate SafeUnderSkew(minTime: int, buffer: int, bound: int) {
    forall calls {:trigger SkewWithin(calls, bound)} :: SkewWithin(calls, bound) && ServerMonotone(calls) ==>
      Spaced(Slots(Absent, calls, minTime, buffer), minTime)
  }

  /** The buffer in the key's lifetime is exactly the clock disagreement the limiter survives. */
  lemma BufferIsExactSkewBound(minTime: int, buffer: nat, bound: nat)
    requires minTime >= 1
    ensures SafeUnderSkew(minTime, buffer, bound) <==> bound <= buffer
  {
    if bound <= buffer {
      forall calls: seq<Call> | SkewWithin(calls, bound) ensures Spaced(Slots(Absent, calls, minTime, buffer), minTime) {
        forall i, j | 0 <= i < |calls| && 0 <= j < |calls| ensures calls[i].Skew() - calls[j].Skew() <= buffer {}
        SlotsSpaced(Absent, calls, minTime, buffer);
      }
    } else {
      var start := minTime + bound;
      var c := Call(start, 0, false);
      var d := Call(minTime + buffer + start - bound, minTime + buffer, true);
      var run := [c, d];
      assert SkewWithin(run, bound) && ServerMonotone(run);
      var key := ReserveKey(Absent, c, minTime, buffer);
      assert run[1..] == [d];
      assert Slots(key, [d], minTime, buffer) == [ReservedSlot(key, d, minTime)];
      var slots := Slots(Absent, run, minTime, buffer);
      assert slots[0 + 1] < slots[0] + minTime;
    }
  }

  /** A server that still shows a key at its very deadline. */
  ghost predicate KeepsDeadline(calls: seq<Call>) {
    forall i :: 0 <= i < |calls| ==> !calls[i].dropped
  }

  ghost predicate SafeWhenKept(minTime: int, buffer: int, bound: int) {
    forall calls {:trigger SkewWithin(calls, bound)} :: SkewWithin(calls, bound) && ServerMonotone(calls) && KeepsDeadline(calls) ==>
      Spaced(Slots(Absent, calls, minTime, buffer), minTime)
  }

  /** On such a server a key is gone a millisecond later, and the slots stand one millisecond more of disagreement. */
  lemma {:induction false} KeptSlotsSpaced(key: SlotKey, calls: seq<Call>, minTime: int, buffer: int)
    requires SkewWithin(calls, buffer + 1) && KeepsDeadline(calls)
    ensures Spaced(Slots(key, calls, minTime, buffer), minTime)
    decreases |calls|
  {
    if |calls| >= 2 {
      var key' := ReserveKey(key, calls[0], minTime, buffer);
      assert SkewWithin(calls[1..], buffer + 1) && KeepsDeadline(calls[1..]);
      KeptSlotsSpaced(key', calls[1..], minTime, buffer);
      assert calls[0].Skew() - calls[1].Skew() <= buffer + 1 && !calls[1].dropped;
      var rest := Slots(key', calls[1..], minTime, buffer);
      var all := Slots(key, calls, minTime, buffer);
      forall i | 0 <= i < |all| - 1 ensures all[i + 1] >= all[i] + minTime {
        if i > 0 { assert rest[i] >= rest[i - 1] + minTime; }
      }
    }
  }

  /** There the exact bound is one millisecond more than the buffer. */
  lemma BufferBoundWhenKept(minTime: int, buffer: nat, bound: nat)
    requires minTime >= 1
    ensures SafeWhenKept(minTime, buffer, bound) <==> bound <= buffer + 1
  {
    if bound <= buffer + 1 {
      forall calls: seq<Call> | SkewWithin(calls, bound) && ServerMonotone(calls) && KeepsDeadline(calls)
        ensures Spaced(Slots(Absent, calls, minTime, buffer), minTime)
      {
        forall i, j | 0 <= i < |calls| && 0 <= j < |calls| ensures calls[i].Skew() - calls[j].Skew() <= buffer + 1 {}
        KeptSlotsSpaced(Absent, calls, minTime, buffer);
      }
    } else {
      var start := minTime + bound;
      var c := Call(start, 0, false);
      var d := Call(minTime + buffer + 1 + start - bound, minTime + buffer + 1, false);
      var run := [c, d];
      assert SkewWithin(run, bound) && ServerMonotone(run) && KeepsDeadline(run);
      var key := ReserveKey(Absent, c, minTime, buffer);
      assert run[1..] == [d];
      assert Slots(key, [d], minTime, buffer) == [ReservedSlot(key, d, minTime)];
      var slots := Slots(Absent, run, minTime, buffer);
      assert slots[0 + 1] < slots[0] + minTime;
    }
  }

  lemma {:induction false} SpacedFar(slots: seq<int>, minTime: int, i: nat, j: nat)
    requires Spaced(slots, minTime) && i <= j < |slots|
    ensures slots[j] >= slots[i] + (j - i) * minTime
    decreases j
  {
    if i < j {
      SpacedFar(slots, minTime, i, j - 1);
      assert slots[(j - 1) + 1] >= slots[j - 1] + minTime;
      assert (j - i) * minTime == (j - 1 - i) * minTime + minTime;
    }
  }

  // ---------------------------------------------------------------- calls per second

  function CeilReal(x: real): (r: int)
    ensures r as real >= x && (r - 1) as real < x
  {
    -((-x).Floor)
  }

  /** A rate that is not positive, or not a number at all, falls back to one call per second. */
  function EffectiveQps(qps: Option<real>): (r: real)
    ensures r > 0.0
  {
    if qps.Some? && qps.value > 0.0 then qps.value else 1.0
  }

  function MinTimeMs(qps: Option<real>): (r: int)
    ensures r >= 1
    ensures r as real * EffectiveQps(qps) >= 1000.0
  {
    var q := EffectiveQps(qps);
    var t := CeilReal(1000.0 / q);
    assert (t as real) * q >= (1000.0 / q) * q;
    if t > 1 then t else 1
  }

  /** No smaller spacing would do: one millisecond less is shorter than the rate's period. */
  lemma MinTimeIsLeast(qps: Option<real>)
    ensures MinTimeMs(qps) > 1 ==> (MinTimeMs(qps) - 1) as real < 1000.0 / EffectiveQps(qps)
  {
    var t := CeilReal(1000.0 / EffectiveQps(qps));
    assert (t - 1) as real < 1000.0 / EffectiveQps(qps);
  }

  /** A second without a configured rate or with one that is not positive; else the least whole number of milliseconds, at least one, that covers the rate's period. */
  lemma MinTimeIs(qps: Option<real>)
    ensures if qps.Some? && qps.value > 0.0 then
              var t, period := MinTimeMs(qps), 1000.0 / qps.value;
              t >= 1 && t as real >= period && (t == 1 || (t - 1) as real < period)
            else MinTimeMs(qps) == 1000
  {
    assert 1000.0 / 1.0 == 1000.0;
  }

  function WindowIndices(slots: seq<int>, t: int): set<nat> {
    set i: nat | i < |slots| && t <= slots[i] < t + 1000
  }

  lemma {:induction false} IndexSetSize(s: set<nat>, lo: nat, n: nat)
    requires forall i :: i in s ==> lo <= i < lo + n
    ensures |s| <= n
  {
    if n == 0 {
      assert s == {};
    } else {
      var top := lo + n - 1;
      IndexSetSize(s - {top}, lo, n - 1);
      if top in s { assert s == (s - {top}) + {top}; } else { assert s - {top} == s; }
    }
  }

  lemma LeastIndex(s: set<nat>) returns (m: nat)
    requires s != {}
    ensures m in s && forall i :: i in s ==> m <= i
    decreases s
  {
    m :| m in s;
    var below := set i | i in s && i < m;
    if below != {} {
      assert m !in below;
      var least := LeastIndex(below);
      forall i | i in s ensures least <= i { assert i < m ==> i in below; }
      m := least;
    } else {
      forall i | i in s ensures m <= i { assert i < m ==> i in below; }
    }
  }

  lemma GapFillsSecond(gap: nat, minTime: nat, q: real)
    requires minTime as real * q >= 1000.0 && gap as real >= q
    ensures gap * minTime >= 1000
  {
    assert (gap as real - q) * minTime as real >= 0.0;
    assert (gap * minTime) as real == gap as real * minTime as real;
  }

  lemma WindowSpan(slots: seq<int>, minTime: nat, q: real, i: nat, j: nat)
    requires minTime as real * q >= 1000.0 && Spaced(slots, minTime)
    requires i <= j < |slots| && slots[j] - slots[i] < 1000
    ensures j - i < CeilReal(q)
  {
    SpacedFar(slots, minTime, i, j);
    if j - i >= CeilReal(q) {
      GapFillsSecond(j - i, minTime, q);
    }
  }

  /** No half-open second ever holds more than ceil(qps) reserved slots, under any interleaving of callers. */
  lemma WindowHoldsAtMostQps(key: SlotKey, calls: seq<Call>, qps: Option<real>, t: int)
    requires SkewWithin(calls, SLOT_TTL_BUFFER_MS)
    ensures |WindowIndices(Slots(key, calls, MinTimeMs(qps), SLOT_TTL_BUFFER_MS), t)| <= CeilReal(EffectiveQps(qps))
  {
    var minTime, q := MinTimeMs(qps), EffectiveQps(qps);
    var slots := Slots(key, calls, minTime, SLOT_TTL_BUFFER_MS);
    SlotsSpaced(key, calls, minTime, SLOT_TTL_BUFFER_MS);
    WindowCount(slots, minTime, q, t);
  }

  lemma WindowCount(slots: seq<int>, minTime: nat, q: real, t: int)
    requires minTime as real * q >= 1000.0 && q > 0.0 && Spaced(slots, minTime)
    ensures |WindowIndices(slots, t)| <= CeilReal(q)
  {
    var hits := WindowIndices(slots, t);
    if hits != {} {
      var first := LeastIndex(hits);
      forall i | i in hits ensures first <= i < first + CeilReal(q) {
        WindowSpan(slots, minTime, q, first, i);
      }
      IndexSetSize(hits, first, CeilReal(q));
    }
  }

  // ---------------------------------------------------------------- the retry loop

  /** What an attempt comes to; `Unreserved` if its reservation call threw, having taken a slot or not: then nothing is sent. */
  datatype Reply<T> = Answered(value: T) | Exhausted | NonRetryable | Unreserved(taken: bool)

  function Pow2(n: nat): nat {
    if n == 0 then 1 else 2 * Pow2(n - 1)
  }

  /** Exponential backoff with positive jitter; `random` is in [0, 1). */
  function BackoffMs(base: nat, attempt: nat, random: real): int {
    var b := base * Pow2(if attempt < MAX_BACKOFF_DOUBLINGS then attempt else MAX_BACKOFF_DOUBLINGS);
    b + (b as real * 0.2 * random).Floor
  }

  /** The waits are base, 2·base, 4·base, 4·base, … each stretched by that much of a fifth, in whole milliseconds. */
  lemma BackoffIsCapped(base: nat, attempt: nat, random: real)
    requires 0.0 <= random < 1.0
    ensures var step := if attempt == 0 then base else if attempt == 1 then 2 * base else 4 * base;
      var b := BackoffMs(base, attempt, random);
      && step <= b && 5 * b <= 6 * step
      && b as real <= step as real + step as real * random / 5.0 < b as real + 1.0
  {
    assert Pow2(1) == 2 && Pow2(2) == 4;
    var step := if attempt == 0 then base else if attempt == 1 then 2 * base else 4 * base;
    var stretch := step as real * 0.2 * random;
    assert 0.0 <= step as real * random <= step as real;
    assert stretch == 0.2 * (step as real * random);
    assert 5.0 * stretch <= step as real;
  }

  /** How many attempts the loop makes: up to the first reply that ends it. */
  function Attempts<T>(replies: nat -> Reply<T>, retries: nat, attempt: nat): (n: nat)
    requires attempt <= retries
    ensures attempt < n <= retries + 1
    decreases retries - attempt
  {
    if replies(attempt).Exhausted? && attempt < retries then Attempts(replies, retries, attempt + 1) else attempt + 1
  }

  /** How many calls are sent: one per attempt that got its slot. */
  function CallsSent<T>(replies: nat -> Reply<T>, retries: nat): (n: nat)
    ensures n <= retries + 1
  {
    var attempts := Attempts(replies, retries, 0);
    if replies(attempts - 1).Unreserved? then attempts - 1 else attempts
  }

  /** The loop stops exactly at the first reply that is not a quota error, or when the retries are used up. */
  lemma {:induction false} AttemptsStopAtFirstEnd<T>(replies: nat -> Reply<T>, retries: nat, attempt: nat)
    requires attempt <= retries
    ensures var n := Attempts(replies, retries, attempt);
      && (forall k :: attempt <= k < n - 1 ==> replies(k).Exhausted?)
      && (replies(n - 1).Exhausted? ==> n == retries + 1)
    decreases retries - attempt
  {
    if replies(attempt).Exhausted? && attempt < retries {
      AttemptsStopAtFirstEnd(replies, retries, attempt + 1);
    }
  }

  /** Every attempt but one that got no slot is a call: `last` is the first that is no quota error, or the last retry. */
  lemma CallsSentAre<T>(replies: nat -> Reply<T>, retries: nat, last: nat)
    requires last <= retries && (forall k :: 0 <= k < last ==> replies(k).Exhausted?)
    requires replies(last).Exhausted? ==> last == retries
    ensures CallsSent(replies, retries) == if replies(last).Unreserved? then last else last + 1
    ensures replies(Attempts(replies, retries, 0) - 1) == replies(last)
  {
    AttemptsStopAtFirstEnd(replies, retries, 0);
    var stop: nat := Attempts(replies, retries, 0) - 1;
    assert stop < last ==> replies(stop).Exhausted?;
  }

  // ---------------------------------------------------------------- one caller among others

  /** A reservation on the account's key, by the caller in question or by anyone else. */
  datatype Turn = Turn(call: Call, own: bool)

  /** What happens on the account's key up to one attempt: others reserve, then the caller does. */
  datatype Moment = Moment(others: seq<Call>, own: Call)

  function Calls(turns: seq<Turn>): (r: seq<Call>)
    ensures |r| == |turns|
  {
    seq(|turns|, i requires 0 <= i < |turns| => turns[i].call)
  }

  function Foreign(calls: seq<Call>): (r: seq<Turn>)
    ensures |r| == |calls|
  {
    seq(|calls|, i requires 0 <= i < |calls| => Turn(calls[i], false))
  }

  /** Everything that is reserved up to and including attempt `n - 1`. */
  function Turns(clock: nat -> Moment, n: nat): seq<Turn> {
    if n == 0 then [] else Turns(clock, n - 1) + (Foreign(clock(n - 1).others) + [Turn(clock(n - 1).own, true)])
  }

  /** What a reservation call that threw leaves: the others' reservations, and a slot taken for nothing if it took effect. */
  function Wasted(m: Moment, taken: bool): seq<Turn> {
    Foreign(m.others + if taken then [m.own] else [])
  }

  /** Everything that is reserved while one operation runs. */
  function RequestTurns<T>(clock: nat -> Moment, replies: nat -> Reply<T>, retries: nat): seq<Turn> {
    var n, reply := CallsSent(replies, retries), replies(Attempts(replies, retries, 0) - 1);
    if reply.Unreserved? then Turns(clock, n) + Wasted(clock(n), reply.taken) else Turns(clock, n)
  }

  /** The slots that the caller's own reservations receive among everyone's. */
  function OwnSlots(key: SlotKey, turns: seq<Turn>, minTime: int, buffer: int): seq<int>
    decreases |turns|
  {
    if turns == [] then []
    else (if turns[0].own then [ReservedSlot(key, turns[0].call, minTime)] else [])
         + OwnSlots(ReserveKey(key, turns[0].call, minTime, buffer), turns[1..], minTime, buffer)
  }

  function KeyPast(key: SlotKey, turns: seq<Turn>, minTime: int, buffer: int): SlotKey {
    KeyAfter(key, Calls(turns), minTime, buffer)
  }

  lemma KeyStep(key: SlotKey, turns: seq<Turn>, minTime: int, buffer: int)
    requires turns != []
    ensures KeyPast(key, turns, minTime, buffer) == KeyPast(ReserveKey(key, turns[0].call, minTime, buffer), turns[1..], minTime, buffer)
    ensures Calls(turns) == [turns[0].call] + Calls(turns[1..])
  {
    assert Calls(turns)[1..] == Calls(turns[1..]);
  }

  lemma {:induction false} KeyConcat(key: SlotKey, a: seq<Turn>, b: seq<Turn>, minTime: int, buffer: int)
    ensures KeyPast(key, a + b, minTime, buffer) == KeyPast(KeyPast(key, a, minTime, buffer), b, minTime, buffer)
    decreases |a|
  {
    if a == [] {
      assert a + b == b;
    } else {
      assert (a + b)[1..] == a[1..] + b;
      KeyStep(key, a + b, minTime, buffer);
      KeyStep(key, a, minTime, buffer);
      KeyConcat(ReserveKey(key, a[0].call, minTime, buffer), a[1..], b, minTime, buffer);
    }
  }

  lemma {:induction false} OwnConcat(key: SlotKey, a: seq<Turn>, b: seq<Turn>, minTime: int, buffer: int)
    ensures OwnSlots(key, a + b, minTime, buffer)
         == OwnSlots(key, a, minTime, buffer) + OwnSlots(KeyPast(key, a, minTime, buffer), b, minTime, buffer)
    decreases |a|
  {
    if a == [] {
      assert a + b == b;
    } else {
      assert (a + b)[1..] == a[1..] + b;
      KeyStep(key, a, minTime, buffer);
      OwnConcat(ReserveKey(key, a[0].call, minTime, buffer), a[1..], b, minTime, buffer);
    }
  }

  lemma TurnsConcat(key: SlotKey, a: seq<Turn>, b: seq<Turn>, minTime: int, buffer: int)
    ensures KeyPast(key, a + b, minTime, buffer) == KeyPast(KeyPast(key, a, minTime, buffer), b, minTime, buffer)
    ensures OwnSlots(key, a + b, minTime, buffer)
         == OwnSlots(key, a, minTime, buffer) + OwnSlots(KeyPast(key, a, minTime, buffer), b, minTime, buffer)
  {
    KeyConcat(key, a, b, minTime, buffer);
    OwnConcat(key, a, b, minTime, buffer);
  }

  lemma {:induction false} ForeignOwnNothing(key: SlotKey, calls: seq<Call>, minTime: int, buffer: int)
    ensures OwnSlots(key, Foreign(calls), minTime, buffer) == []
    ensures KeyPast(key, Foreign(calls), minTime, buffer) == KeyAfter(key, calls, minTime, buffer)
    decreases |calls|
  {
    assert Calls(Foreign(calls)) == calls;
    if calls != [] {
      assert Foreign(calls)[1..] == Foreign(calls[1..]);
      ForeignOwnNothing(ReserveKey(key, calls[0], minTime, buffer), calls[1..], minTime, buffer);
    }
  }

  /** One attempt: the others' reservations, then the caller's. */
  lemma MomentSlots(key: SlotKey, m: Moment, minTime: int, buffer: int)
    ensures var turns := Foreign(m.others) + [Turn(m.own, true)]; var mid := KeyAfter(key, m.others, minTime, buffer);
      && OwnSlots(key, turns, minTime, buffer) == [ReservedSlot(mid, m.own, minTime)]
      && KeyPast(key, turns, minTime, buffer) == ReserveKey(mid, m.own, minTime, buffer)
  {
    var mid := KeyAfter(key, m.others, minTime, buffer);
    TurnsConcat(key, Foreign(m.others), [Turn(m.own, true)], minTime, buffer);
    ForeignOwnNothing(key, m.others, minTime, buffer);
    assert Calls([Turn(m.own, true)]) == [m.own] && [m.own][1..] == [];
    assert KeyAfter(mid, [m.own], minTime, buffer) == KeyAfter(ReserveKey(mid, m.own, minTime, buffer), [], minTime, buffer);
    assert OwnSlots(mid, [Turn(m.own, true)], minTime, buffer) == [ReservedSlot(mid, m.own, minTime)] + [];
  }

  lemma NextMoment(key: SlotKey, clock: nat -> Moment, n: nat, minTime: int, buffer: int)
    ensures var mid := KeyAfter(KeyPast(key, Turns(clock, n), minTime, buffer), clock(n).others, minTime, buffer);
      && OwnSlots(key, Turns(clock, n + 1), minTime, buffer)
         == OwnSlots(key, Turns(clock, n), minTime, buffer) + [ReservedSlot(mid, clock(n).own, minTime)]
      && KeyPast(key, Turns(clock, n + 1), minTime, buffer) == ReserveKey(mid, clock(n).own, minTime, buffer)
  {
    TurnsConcat(key, Turns(clock, n), Foreign(clock(n).others) + [Turn(clock(n).own, true)], minTime, buffer);
    MomentSlots(KeyPast(key, Turns(clock, n), minTime, buffer), clock(n), minTime, buffer);
  }

  lemma WastedTurns(key: SlotKey, clock: nat -> Moment, n: nat, taken: bool, minTime: int, buffer: int)
    ensures var m := clock(n); var before := KeyPast(key, Turns(clock, n), minTime, buffer);
      var turns := Turns(clock, n) + Wasted(m, taken);
      && OwnSlots(key, turns, minTime, buffer) == OwnSlots(key, Turns(clock, n), minTime, buffer)
      && KeyPast(key, turns, minTime, buffer) == KeyAfter(before, m.others + if taken then [m.own] else [], minTime, buffer)
  {
    var m := clock(n);
    var before := KeyPast(key, Turns(clock, n), minTime, buffer);
    TurnsConcat(key, Turns(clock, n), Wasted(m, taken), minTime, buffer);
    ForeignOwnNothing(before, m.others + if taken then [m.own] else [], minTime, buffer);
  }

  /** The caller's slots are some of everyone's, in order, so they are spaced as well. */
  lemma {:induction false} OwnSpaced(key: SlotKey, turns: seq<Turn>, minTime: int, buffer: int)
    requires minTime >= 0 && Spaced(Slots(key, Calls(turns), minTime, buffer), minTime)
    ensures Spaced(OwnSlots(key, turns, minTime, buffer), minTime)
    ensures forall x :: x in OwnSlots(key, turns, minTime, buffer) ==> x >= Slots(key, Calls(turns), minTime, buffer)[0]
    decreases |turns|
  {
    if turns != [] {
      KeyStep(key, turns, minTime, buffer);
      var key' := ReserveKey(key, turns[0].call, minTime, buffer);
      var all, rest := Slots(key, Calls(turns), minTime, buffer), Slots(key', Calls(turns[1..]), minTime, buffer);
      forall i | 0 <= i < |rest| - 1 ensures rest[i + 1] >= rest[i] + minTime { assert all[(i + 1) + 1] >= all[i + 1] + minTime; }
      OwnSpaced(key', turns[1..], minTime, buffer);
      var own := OwnSlots(key', turns[1..], minTime, buffer);
      if |turns| > 1 {
        assert all[0 + 1] >= all[0] + minTime && rest[0] == all[1];
        assert forall x :: x in own ==> x >= all[0] + minTime;
        SpacedCons(all[0], own, minTime);
      }
    }
  }

  lemma SpacedCons(first: int, rest: seq<int>, minTime: int)
    requires Spaced(rest, minTime) && forall x :: x in rest ==> x >= first + minTime
    ensures Spaced([first] + rest, minTime)
  {
    var all := [first] + rest;
    forall i | 0 <= i < |all| - 1 ensures all[i + 1] >= all[i] + minTime {
      assert all[i + 1] == rest[i] && rest[i] in rest;
      if i > 0 { assert rest[(i - 1) + 1] >= rest[i - 1] + minTime; }
    }
  }

  /** Consecutive slots are far enough apart, and no half-open second holds more than ceil(qps) of them. */
  ghost predicate WithinRate(slots: seq<int>, qps: Option<real>) {
    Spaced(slots, MinTimeMs(qps)) && forall t: int :: |WindowIndices(slots, t)| <= CeilReal(EffectiveQps(qps))
  }

  /** Whatever others reserve in between, a caller's own slots keep the rate. */
  lemma OwnWithinRate(key: SlotKey, turns: seq<Turn>, qps: Option<real>)
    requires SkewWithin(Calls(turns), SLOT_TTL_BUFFER_MS)
    ensures WithinRate(OwnSlots(key, turns, MinTimeMs(qps), SLOT_TTL_BUFFER_MS), qps)
  {
    var own := OwnSlots(key, turns, MinTimeMs(qps), SLOT_TTL_BUFFER_MS);
    SlotsSpaced(key, Calls(turns), MinTimeMs(qps), SLOT_TTL_BUFFER_MS);
    OwnSpaced(key, turns, MinTimeMs(qps), SLOT_TTL_BUFFER_MS);
    forall t: int ensures |WindowIndices(own, t)| <= CeilReal(EffectiveQps(qps)) {
      WindowCount(own, MinTimeMs(qps), EffectiveQps(qps), t);
    }
  }

  /** While any two callers' clocks agree within the buffer, these slots keep the rate. */
  ghost predicate KeepsRate(turns: seq<Turn>, slots: seq<int>, qps: Option<real>) {
    SkewWithin(Calls(turns), SLOT_TTL_BUFFER_MS) ==> WithinRate(slots, qps)
  }

  lemma OwnKeepsRate(key: SlotKey, turns: seq<Turn>, qps: Option<real>)
    ensures KeepsRate(turns, OwnSlots(key, turns, MinTimeMs(qps), SLOT_TTL_BUFFER_MS), qps)
  {
    if SkewWithin(Calls(turns), SLOT_TTL_BUFFER_MS) { OwnWithinRate(key, turns, qps); }
  }

  class Limiter {
    const qps: Option<real>
    const maxRetries: nat
    var keys: map<string, SlotKey>

    constructor (qps: Option<real>, maxRetries: nat)
      ensures this.qps == qps && this.maxRetries == maxRetries && keys == map[]
    {
      this.qps, this.maxRetries, keys := qps, maxRetries, map[];
    }

    function Key(cid: string): SlotKey
      reads this`keys
    {
      if cid in keys then keys[cid] else Absent
    }

    /** The reservation script: overwrites the account's key and returns how long to wait for the slot. */
    method Reserve(cid: string, c: Call, minTime: int) returns (wait: int)
      modifies this`keys
      ensures keys == old(keys)[cid := ReserveKey(old(Key(cid)), c, minTime, SLOT_TTL_BUFFER_MS)]
      ensures wait == ReservedSlot(old(Key(cid)), c, minTime) - c.now && wait >= 0
    {
      var last := 0;
      var key := Key(cid);
      if Visible(key, c) {
        last := key.slot;
      }
      var slot := c.now;
      if last + minTime > c.now {
        slot := last + minTime;
      }
      keys := keys[cid := Present(slot, c.server + (slot - c.now) + minTime + SLOT_TTL_BUFFER_MS)];
      wait := slot - c.now;
    }

    /** Any other callers' reservations on the account's key, in the order the server takes them. */
    method ReserveAll(cid: string, calls: seq<Call>, minTime: int)
      modifies this`keys
      ensures Key(cid) == KeyAfter(old(Key(cid)), calls, minTime, SLOT_TTL_BUFFER_MS)
      ensures forall c :: c != cid ==> Key(c) == old(Key(c))
    {
      for i := 0 to |calls|
        invariant KeyAfter(Key(cid), calls[i..], minTime, SLOT_TTL_BUFFER_MS)
               == KeyAfter(old(Key(cid)), calls, minTime, SLOT_TTL_BUFFER_MS)
        invariant forall c :: c != cid ==> Key(c) == old(Key(c))
      {
        assert calls[i..][1..] == calls[i + 1..];
        var _ := Reserve(cid, calls[i], minTime);
      }
    }

    /** One attempt's reservation, after those of the others. */
    method ReserveAfter(cid: string, m: Moment, minTime: int) returns (slot: int)
      modifies this`keys
      ensures var mid := KeyAfter(old(Key(cid)), m.others, minTime, SLOT_TTL_BUFFER_MS);
        slot == ReservedSlot(mid, m.own, minTime) && Key(cid) == ReserveKey(mid, m.own, minTime, SLOT_TTL_BUFFER_MS)
      ensures forall c :: c != cid ==> Key(c) == old(Key(c))
    {
      ReserveAll(cid, m.others, minTime);
      var wait := Reserve(cid, m.own, minTime);
      slot := m.own.now + wait;
    }

    /**
     * Runs one Ads operation: a slot of its own for every attempt, a backoff after each quota error, nothing after a
     * reservation that throws. `clock(k)` is what others reserve before attempt `k` and what the clocks say then,
     * `replies(k)` what the attempt would come to.
     */
    method Schedule<T>(cid: string, clock: nat -> Moment, replies: nat -> Reply<T>)
      returns (reply: Reply<T>, calls: nat, slots: seq<int>)
      modifies this`keys
      ensures calls == CallsSent(replies, maxRetries) && reply == replies(Attempts(replies, maxRetries, 0) - 1)
      ensures slots == OwnSlots(old(Key(cid)), RequestTurns(clock, replies, maxRetries), MinTimeMs(qps), SLOT_TTL_BUFFER_MS)
      ensures |slots| == calls <= maxRetries + 1
      ensures Key(cid) == KeyPast(old(Key(cid)), RequestTurns(clock, replies, maxRetries), MinTimeMs(qps), SLOT_TTL_BUFFER_MS)
      ensures forall c :: c != cid ==> Key(c) == old(Key(c))
    {
      var minTime := MinTimeMs(qps);
      var attempt: nat := 0;
      slots := [];
      while true
        invariant attempt <= maxRetries && |slots| == attempt
        invariant Attempts(replies, maxRetries, 0) == Attempts(replies, maxRetries, attempt)
        invariant slots == OwnSlots(old(Key(cid)), Turns(clock, attempt), minTime, SLOT_TTL_BUFFER_MS)
        invariant Key(cid) == KeyPast(old(Key(cid)), Turns(clock, attempt), minTime, SLOT_TTL_BUFFER_MS)
        invariant forall c :: c != cid ==> Key(c) == old(Key(c))
        decreases maxRetries - attempt
      {
        reply := replies(attempt);
        if reply.Unreserved? {
          WastedTurns(old(Key(cid)), clock, attempt, reply.taken, minTime, SLOT_TTL_BUFFER_MS);
          ReserveAll(cid, clock(attempt).others + if reply.taken then [clock(attempt).own] else [], minTime);
          calls := attempt;
          return;
        }
        NextMoment(old(Key(cid)), clock, attempt, minTime, SLOT_TTL_BUFFER_MS);
        var slot := ReserveAfter(cid, clock(attempt), minTime);
        slots := slots + [slot];
        if !reply.Exhausted? || attempt >= maxRetries {
          calls := attempt + 1;
          return;
        }
        attempt := attempt + 1;
      }
    }
  }
}
