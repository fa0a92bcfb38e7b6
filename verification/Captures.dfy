/**
 * Concurrent capture ingestion: every request mints ids for its distinct hashes, inserts them row by row where the hash
 * is still free, then reads the authoritative ids back. Rows of other requests may come in between any two steps.
 */
module Captures {
  import opened Base

  /** A random id, identified by the request that minted it and the position it was minted for: it never repeats. */
  datatype Id = Id(request: nat, position: nat)

  datatype Entry = Entry(hash: string, id: Id)

  datatype Report = Report(accepted: nat, deduped: int, ids: seq<Option<Id>>)

  /** `next` entries of `distinct` have been offered to the table. */
  datatype Request = Request(hashes: seq<string>, distinct: seq<Entry>, next: nat, report: Option<Report>)

  datatype State = State(rows: seq<Entry>, requests: seq<Request>)

  datatype Action = Start(hashes: seq<string>) | InsertNext(r: nat) | ReadBack(r: nat)

  // ---------------------------------------------------------------- guards before any row is touched

  datatype Admission = Admitted | TooManyItems | UnsupportedVersion | UnsafeNumber(item: nat)

  /** `unsafe[i]` says that item `i` holds a number beyond the safe integers. */
  function Admit(batchMax: nat, version: string, versions: seq<string>, unsafe: seq<bool>): (a: Admission)
    ensures a.Admitted? <==> |unsafe| <= batchMax && version in versions && forall i :: 0 <= i < |unsafe| ==> !unsafe[i]
    ensures a.TooManyItems? <==> |unsafe| > batchMax
    ensures a.UnsupportedVersion? <==> |unsafe| <= batchMax && version !in versions
    ensures a.UnsafeNumber? ==> a.item < |unsafe| && unsafe[a.item] && forall i :: 0 <= i < a.item ==> !unsafe[i]
  {
    if |unsafe| > batchMax then TooManyItems
    else if version !in versions then UnsupportedVersion
    else FirstUnsafe(unsafe, 0)
  }

  function FirstUnsafe(unsafe: seq<bool>, from: nat): (a: Admission)
    requires from <= |unsafe|
    ensures a.Admitted? || a.UnsafeNumber?
    ensures a.Admitted? <==> forall i :: from <= i < |unsafe| ==> !unsafe[i]
    ensures a.UnsafeNumber? ==> from <= a.item < |unsafe| && unsafe[a.item] && forall i :: from <= i < a.item ==> !unsafe[i]
    decreases |unsafe| - from
  {
    if from == |unsafe| then Admitted else if unsafe[from] then UnsafeNumber(from) else FirstUnsafe(unsafe, from + 1)
  }

  // ---------------------------------------------------------------- the steps

  /** One candidate row per distinct hash, in order of first appearance. */
  function Entries(r: nat, hashes: seq<string>): (e: seq<Entry>)
    ensures |e| == |Unique(hashes)|
  {
    seq(|Unique(hashes)|, i requires 0 <= i < |Unique(hashes)| => Entry(Unique(hashes)[i], Id(r, i)))
  }

  function FindId(rows: seq<Entry>, hash: string): Option<Id> {
    if rows == [] then None else if Last(rows).hash == hash then Some(Last(rows).id) else FindId(rows[..|rows| - 1], hash)
  }

  /** The unique index: a row whose hash is taken is skipped. */
  function Insert(rows: seq<Entry>, e: Entry): seq<Entry> {
    if FindId(rows, e.hash).Some? then rows else rows + [e]
  }

  /** How many of the entries are the row of their hash. */
  function Accepted(rows: seq<Entry>, distinct: seq<Entry>): nat {
    if distinct == [] then 0
    else Accepted(rows, distinct[..|distinct| - 1]) + (if FindId(rows, Last(distinct).hash) == Some(Last(distinct).id) then 1 else 0)
  }

  function Ids(rows: seq<Entry>, hashes: seq<string>): (r: seq<Option<Id>>)
    ensures |r| == |hashes|
  {
    seq(|hashes|, i requires 0 <= i < |hashes| => FindId(rows, hashes[i]))
  }

  function ReportOf(rows: seq<Entry>, q: Request): Report {
    var accepted := Accepted(rows, q.distinct);
    Report(accepted, |q.hashes| - accepted, Ids(rows, q.hashes))
  }

  function Step(s: State, a: Action): State {
    match a
    case Start(hashes) => s.(requests := s.requests + [Request(hashes, Entries(|s.requests|, hashes), 0, None)])
    case InsertNext(r) =>
      if r < |s.requests| && s.requests[r].next < |s.requests[r].distinct| then
        var q := s.requests[r];
        State(Insert(s.rows, q.distinct[q.next]), s.requests[r := q.(next := q.next + 1)])
      else s
    case ReadBack(r) =>
      if r < |s.requests| && s.requests[r].next == |s.requests[r].distinct| && s.requests[r].report.None? then
        s.(requests := s.requests[r := s.requests[r].(report := Some(ReportOf(s.rows, s.requests[r])))])
      else s
  }

  function Exec(actions: seq<Action>): State {
    if actions == [] then State([], []) else Step(Exec(actions[..|actions| - 1]), Last(actions))
  }

  // ---------------------------------------------------------------- what every step keeps

  /** How many rows request `r` inserted. */
  function InsertedBy(rows: seq<Entry>, r: nat): nat {
    if rows == [] then 0 else InsertedBy(rows[..|rows| - 1], r) + (if Last(rows).id.request == r then 1 else 0)
  }

  ghost predicate HashesDistinct(entries: seq<Entry>) {
    forall i, j :: 0 <= i < j < |entries| ==> entries[i].hash != entries[j].hash
  }

  ghost predicate RowsOk(rows: seq<Entry>, requests: nat) {
    HashesDistinct(rows) && forall i :: 0 <= i < |rows| ==> rows[i].id.request < requests
  }

  ghost predicate RequestOk(rows: seq<Entry>, r: nat, q: Request) {
    && q.distinct == Entries(r, q.hashes) && q.next <= |q.distinct|
    && Accepted(rows, q.distinct) == InsertedBy(rows, r)
    && (forall i :: 0 <= i < q.next ==> FindId(rows, q.distinct[i].hash).Some?)
    && (q.report.Some? ==> q.next == |q.distinct| && q.report.value == ReportOf(rows, q))
  }

  ghost predicate Inv(s: State) {
    && RowsOk(s.rows, |s.requests|)
    && forall r :: 0 <= r < |s.requests| ==> RequestOk(s.rows, r, s.requests[r])
  }

  lemma {:induction false} FindIdIs(rows: seq<Entry>, hash: string)
    ensures FindId(rows, hash).None? <==> forall i :: 0 <= i < |rows| ==> rows[i].hash != hash
    ensures FindId(rows, hash).Some? ==> Entry(hash, FindId(rows, hash).value) in rows
  {
    if rows != [] {
      FindIdIs(rows[..|rows| - 1], hash);
      if FindId(rows[..|rows| - 1], hash).Some? { assert Entry(hash, FindId(rows[..|rows| - 1], hash).value) in rows; }
    }
  }

  lemma FindAfterInsert(rows: seq<Entry>, e: Entry, hash: string)
    requires FindId(rows, e.hash).None?
    ensures FindId(rows + [e], hash) == if hash == e.hash then Some(e.id) else FindId(rows, hash)
  {
    assert (rows + [e])[..|rows|] == rows;
  }

  lemma {:induction false} AcceptedAfterInsert(rows: seq<Entry>, e: Entry, distinct: seq<Entry>)
    requires FindId(rows, e.hash).None? && HashesDistinct(distinct)
    ensures Accepted(rows + [e], distinct) == Accepted(rows, distinct) + (if e in distinct then 1 else 0)
  {
    if distinct != [] {
      var before := distinct[..|distinct| - 1];
      assert distinct == before + [Last(distinct)];
      AcceptedAfterInsert(rows, e, before);
      FindAfterInsert(rows, e, Last(distinct).hash);
      if e in before {
        var i :| 0 <= i < |before| && before[i] == e;
        assert distinct[i].hash != distinct[|distinct| - 1].hash;
      }
    }
  }

  lemma EntriesDistinct(r: nat, hashes: seq<string>)
    ensures HashesDistinct(Entries(r, hashes))
    ensures forall e :: e in Entries(r, hashes) ==> e.id.request == r
  {
    UniqueFacts(hashes);
  }

  lemma {:induction false} NothingAcceptedYet(rows: seq<Entry>, r: nat, distinct: seq<Entry>)
    requires forall i :: 0 <= i < |rows| ==> rows[i].id.request < r
    requires forall e :: e in distinct ==> e.id.request == r
    ensures Accepted(rows, distinct) == 0
  {
    if distinct != [] {
      assert distinct == distinct[..|distinct| - 1] + [Last(distinct)];
      NothingAcceptedYet(rows, r, distinct[..|distinct| - 1]);
      FindIdIs(rows, Last(distinct).hash);
    }
  }

  lemma {:induction false} NothingInsertedYet(rows: seq<Entry>, r: nat)
    requires forall i :: 0 <= i < |rows| ==> rows[i].id.request < r
    ensures InsertedBy(rows, r) == 0
  {
    if rows != [] { NothingInsertedYet(rows[..|rows| - 1], r); }
  }

  /** A new row leaves every other request's account as it is. */
  lemma RowKeepsOthers(rows: seq<Entry>, e: Entry, r: nat, q: Request)
    requires FindId(rows, e.hash).None? && RequestOk(rows, r, q) && e.id.request != r
    ensures RequestOk(rows + [e], r, q)
  {
    EntriesDistinct(r, q.hashes);
    AcceptedAfterInsert(rows, e, q.distinct);
    assert (rows + [e])[..|rows|] == rows;
    forall i | 0 <= i < q.next ensures FindId(rows + [e], q.distinct[i].hash).Some? { FindAfterInsert(rows, e, q.distinct[i].hash); }
    if q.report.Some? { IdsKept(rows, e, q); }
  }

  /** Once all distinct hashes have rows, the ids read back are final. */
  lemma IdsKept(rows: seq<Entry>, e: Entry, q: Request)
    requires FindId(rows, e.hash).None?
    requires q.next == |q.distinct| && exists r :: q.distinct == Entries(r, q.hashes)
    requires forall i :: 0 <= i < q.next ==> FindId(rows, q.distinct[i].hash).Some?
    ensures Ids(rows + [e], q.hashes) == Ids(rows, q.hashes)
  {
    UniqueFacts(q.hashes);
    forall i | 0 <= i < |q.hashes| ensures FindId(rows + [e], q.hashes[i]) == FindId(rows, q.hashes[i]) {
      var k := HashHasEntry(q, i);
      FindAfterInsert(rows, e, q.hashes[i]);
    }
  }

  lemma HashHasEntry(q: Request, i: nat) returns (k: nat)
    requires i < |q.hashes| && exists r :: q.distinct == Entries(r, q.hashes)
    ensures k < |q.distinct| && q.distinct[k].hash == q.hashes[i]
  {
    UniqueFacts(q.hashes);
    assert q.hashes[i] in Unique(q.hashes);
    k :| 0 <= k < |Unique(q.hashes)| && Unique(q.hashes)[k] == q.hashes[i];
  }

  lemma OwnRowCounted(rows: seq<Entry>, r: nat, q: Request)
    requires RequestOk(rows, r, q) && q.next < |q.distinct| && q.report.None?
    ensures RequestOk(Insert(rows, q.distinct[q.next]), r, q.(next := q.next + 1))
  {
    var e := q.distinct[q.next];
    if FindId(rows, e.hash).None? {
      EntriesDistinct(r, q.hashes);
      assert e in q.distinct;
      AcceptedAfterInsert(rows, e, q.distinct);
      assert (rows + [e])[..|rows|] == rows;
      forall i | 0 <= i < q.next + 1 ensures FindId(rows + [e], q.distinct[i].hash).Some? { FindAfterInsert(rows, e, q.distinct[i].hash); }
    }
  }

  lemma RowsStayOk(rows: seq<Entry>, e: Entry, n: nat)
    requires RowsOk(rows, n) && e.id.request < n
    ensures RowsOk(Insert(rows, e), n)
  {
    FindIdIs(rows, e.hash);
  }

  lemma InsertKeepsInv(s: State, r: nat)
    requires Inv(s)
    ensures Inv(Step(s, InsertNext(r)))
  {
    if r < |s.requests| && s.requests[r].next < |s.requests[r].distinct| {
      var q := s.requests[r];
      assert RequestOk(s.rows, r, q);
      var e := q.distinct[q.next];
      EntriesDistinct(r, q.hashes);
      assert e.id.request == r;
      RowsStayOk(s.rows, e, |s.requests|);
      OwnRowCounted(s.rows, r, q);
      forall o | 0 <= o < |s.requests| && o != r ensures RequestOk(Insert(s.rows, e), o, s.requests[o]) {
        assert RequestOk(s.rows, o, s.requests[o]);
        if FindId(s.rows, e.hash).None? { RowKeepsOthers(s.rows, e, o, s.requests[o]); }
      }
    }
  }

  lemma StartKeepsInv(s: State, hashes: seq<string>)
    requires Inv(s)
    ensures Inv(Step(s, Start(hashes)))
  {
    var r := |s.requests|;
    EntriesDistinct(r, hashes);
    NothingAcceptedYet(s.rows, r, Entries(r, hashes));
    NothingInsertedYet(s.rows, r);
    var q := Request(hashes, Entries(r, hashes), 0, None);
    assert RequestOk(s.rows, r, q);
    assert forall o :: 0 <= o < r ==> (s.requests + [q])[o] == s.requests[o];
  }

  lemma {:induction false} RunsKeepInv(actions: seq<Action>)
    ensures Inv(Exec(actions))
  {
    if actions != [] {
      var s := Exec(actions[..|actions| - 1]);
      RunsKeepInv(actions[..|actions| - 1]);
      match Last(actions)
      case Start(hashes) => StartKeepsInv(s, hashes);
      case InsertNext(r) => InsertKeepsInv(s, r);
      case ReadBack(r) =>
        forall o | 0 <= o < |s.requests| ensures RequestOk(s.rows, o, s.requests[o]) {}
    }
  }

  // ---------------------------------------------------------------- results

  /** In every interleaving a hash has at most one row. */
  lemma OneRowPerHash(actions: seq<Action>, i: nat, j: nat)
    requires i < |Exec(actions).rows| && j < |Exec(actions).rows|
    requires Exec(actions).rows[i].hash == Exec(actions).rows[j].hash
    ensures i == j
  {
    RunsKeepInv(actions);
    assert RowsOk(Exec(actions).rows, |Exec(actions).requests|);
  }

  /** Rows are only ever appended: what is stored stays, under its id. */
  lemma {:induction false} RowsStay(actions: seq<Action>, more: seq<Action>)
    ensures Exec(actions).rows <= Exec(actions + more).rows
  {
    if more == [] {
      assert actions + more == actions;
    } else {
      var all, front := actions + more, more[..|more| - 1];
      assert all[..|all| - 1] == actions + front;
      RowsStay(actions, front);
    }
  }

  /** A finished request accounts for every item, and returns for each the id of the row that holds its hash. */
  lemma ReportIsRight(actions: seq<Action>, r: nat, i: nat)
    requires r < |Exec(actions).requests| && Exec(actions).requests[r].report.Some?
    ensures var s := Exec(actions);
      var q := s.requests[r];
      && q.report.value.accepted + q.report.value.deduped == |q.hashes| == |q.report.value.ids|
      && 0 <= q.report.value.deduped
      && q.report.value.accepted == InsertedBy(s.rows, r)
      && (i < |q.hashes| ==> q.report.value.ids[i].Some? && Entry(q.hashes[i], q.report.value.ids[i].value) in s.rows)
  {
    RunsKeepInv(actions);
    var s := Exec(actions);
    var q := s.requests[r];
    assert RequestOk(s.rows, r, q);
    AcceptedAtMost(s.rows, q.distinct);
    UniqueShorter(q.hashes);
    if i < |q.hashes| {
      var k := HashHasEntry(q, i);
      FindIdIs(s.rows, q.hashes[i]);
    }
  }

  lemma {:induction false} AcceptedAtMost(rows: seq<Entry>, distinct: seq<Entry>)
    ensures Accepted(rows, distinct) <= |distinct|
  {
    if distinct != [] { AcceptedAtMost(rows, distinct[..|distinct| - 1]); }
  }

  lemma {:induction false} UniqueShorter<T>(xs: seq<T>)
    ensures |Unique(xs)| <= |xs|
  {
    if xs != [] { UniqueShorter(xs[..|xs| - 1]); }
  }

  function TotalAccepted(requests: seq<Request>): nat {
    if requests == [] then 0
    else TotalAccepted(requests[..|requests| - 1]) + (if Last(requests).report.Some? then Last(requests).report.value.accepted else 0)
  }

  function InsertedBelow(rows: seq<Entry>, n: nat): nat {
    if n == 0 then 0 else InsertedBelow(rows, n - 1) + InsertedBy(rows, n - 1)
  }

  lemma {:induction false} InsertedBelowSnoc(rows: seq<Entry>, e: Entry, n: nat)
    ensures InsertedBelow(rows + [e], n) == InsertedBelow(rows, n) + (if e.id.request < n then 1 else 0)
  {
    if n > 0 {
      InsertedBelowSnoc(rows, e, n - 1);
      assert (rows + [e])[..|rows|] == rows;
    }
  }

  lemma {:induction false} InsertedBelowIsAll(rows: seq<Entry>, n: nat)
    requires forall i :: 0 <= i < |rows| ==> rows[i].id.request < n
    ensures InsertedBelow(rows, n) == |rows|
  {
    if rows == [] {
      NoneInserted(n);
    } else {
      InsertedBelowIsAll(rows[..|rows| - 1], n);
      InsertedBelowSnoc(rows[..|rows| - 1], Last(rows), n);
      assert rows == rows[..|rows| - 1] + [Last(rows)];
    }
  }

  lemma {:induction false} NoneInserted(n: nat)
    ensures InsertedBelow([], n) == 0
  {
    if n > 0 { NoneInserted(n - 1); }
  }

  lemma {:induction false} AcceptedSum(rows: seq<Entry>, requests: seq<Request>)
    requires forall r :: 0 <= r < |requests| ==> requests[r].report.Some? && requests[r].report.value.accepted == InsertedBy(rows, r)
    ensures TotalAccepted(requests) == InsertedBelow(rows, |requests|)
  {
    if requests != [] { AcceptedSum(rows, requests[..|requests| - 1]); }
  }

  /** When all requests have finished, what they accepted together is exactly the number of rows inserted. */
  lemma AcceptedAddsUp(actions: seq<Action>)
    requires forall r :: 0 <= r < |Exec(actions).requests| ==> Exec(actions).requests[r].report.Some?
    ensures TotalAccepted(Exec(actions).requests) == |Exec(actions).rows|
  {
    RunsKeepInv(actions);
    var s := Exec(actions);
    forall r | 0 <= r < |s.requests| ensures s.requests[r].report.value.accepted == InsertedBy(s.rows, r) {
      assert RequestOk(s.rows, r, s.requests[r]);
    }
    AcceptedSum(s.rows, s.requests);
    InsertedBelowIsAll(s.rows, |s.requests|);
  }

  // ---------------------------------------------------------------- the service

  class CaptureTable {
    var rows: seq<Entry>
    var requests: seq<Request>

    constructor ()
      ensures Now() == State([], [])
    {
      rows, requests := [], [];
    }

    function Now(): State
      reads this
    {
      State(rows, requests)
    }

    /** Keeps the first occurrence of every hash and mints its id. */
    method Begin(hashes: seq<string>) returns (r: nat)
      modifies this`requests
      ensures Now() == Step(old(Now()), Start(hashes)) && r == |old(requests)|
    {
      r := |requests|;
      var seen: set<string>, distinct: seq<Entry> := {}, [];
      for i := 0 to |hashes|
        invariant distinct == Entries(r, hashes[..i])
        invariant forall h :: h in seen <==> h in Unique(hashes[..i])
      {
        assert hashes[..i + 1][..i] == hashes[..i];
        if hashes[i] !in seen {
          seen := seen + {hashes[i]};
          distinct := distinct + [Entry(hashes[i], Id(r, |distinct|))];
        }
      }
      assert hashes[..|hashes|] == hashes;
      requests := requests + [Request(hashes, distinct, 0, None)];
    }

    /** One row of the insert that skips duplicates. */
    method InsertOne(r: nat)
      requires r < |requests| && requests[r].next < |requests[r].distinct|
      modifies this
      ensures Now() == Step(old(Now()), InsertNext(r))
    {
      var q := requests[r];
      var e := q.distinct[q.next];
      if FindId(rows, e.hash).None? {
        rows := rows + [e];
      }
      requests := requests[r := q.(next := q.next + 1)];
    }

    /** Reads the authoritative ids and counts the rows that are this request's own. */
    method ReadIds(r: nat) returns (report: Report)
      requires r < |requests| && requests[r].next == |requests[r].distinct| && requests[r].report.None?
      modifies this`requests
      ensures Now() == Step(old(Now()), ReadBack(r))
      ensures requests[r].report == Some(report)
    {
      var q := requests[r];
      var accepted := 0;
      for i := 0 to |q.distinct|
        invariant accepted == Accepted(rows, q.distinct[..i])
      {
        assert q.distinct[..i + 1][..i] == q.distinct[..i];
        if FindId(rows, q.distinct[i].hash) == Some(q.distinct[i].id) {
          accepted := accepted + 1;
        }
      }
      assert q.distinct[..|q.distinct|] == q.distinct;
      report := Report(accepted, |q.hashes| - accepted, Ids(rows, q.hashes));
      requests := requests[r := q.(report := Some(report))];
    }
  }
}
