// One run's processing row and the statements that change it:
// internal/infrastructure/postgres/generated/run_processing.sql.go.
module RunRow {
  import opened Prelude

  type Token = int

  datatype Status = Pending | Running | Completed | Failed

  datatype Row = Row(
    status: Status, token: Option<Token>, lease: Option<Time>, cursor: Option<Id>,
    seen: nat, added: nat, moved: nat, kept: nat, failed: nat, createdAt: Time)

  // What a page adds to the counters.
  datatype PageCounts = PageCounts(seen: nat, added: nat, moved: nat, kept: nat, failed: nat)

  function NewRow(createdAt: Time): Row {
    Row(Pending, None, None, None, 0, 0, 0, 0, 0, createdAt)
  }

  predicate Expired(r: Row, now: Time) {
    r.lease.Some? && r.lease.value < now
  }

  predicate Holds(r: Row, t: Token) {
    r.token == Some(t)
  }

  // Finished or waiting, or the holder's lease ran out.
  predicate Free(r: Row, now: Time) {
    r.status != Running || Expired(r, now)
  }

  predicate Claimable(r: Row, now: Time) {
    r.status == Pending || (r.status == Running && Expired(r, now))
  }

  function Claimed(r: Row, t: Token, now: Time, duration: Time): Row {
    r.(status := Running, token := Some(t), lease := Some(now + duration))
  }

  // Waiting to be claimed: pending, or running under a lease that is over.
  predicate Waits(r: Row, now: Time) {
    r.status == Pending || (r.status == Running && r.lease.Some? && r.lease.value < now)
  }

  // ClaimNext on this row.
  function ClaimNext(r: Row, t: Token, now: Time, duration: Time): Option<Row> {
    if Claimable(r, now) then Some(Claimed(r, t, now, duration)) else None
  }

  function ClaimSpecific(r: Row, t: Token, now: Time, duration: Time): Option<Row> {
    if Free(r, now) || Holds(r, t) then Some(Claimed(r, t, now, duration)) else None
  }

  function Unclaimed(r: Row, status: Status): Row {
    r.(status := status, token := None, lease := None)
  }

  function ResetFromStart(r: Row, now: Time): Option<Row> {
    if Free(r, now) then Some(NewRow(r.createdAt)) else None
  }

  function UpdateProgress(r: Row, t: Token, cursor: Id, c: PageCounts, now: Time, duration: Time): Option<Row> {
    if r.status == Running && Holds(r, t) then
      Some(r.(cursor := Some(cursor), seen := r.seen + c.seen, added := r.added + c.added, moved := r.moved + c.moved,
              kept := r.kept + c.kept, failed := r.failed + c.failed, lease := Some(now + duration)))
    else None
  }

  function Release(r: Row, t: Token): Option<Row> {
    if Holds(r, t) then Some(Unclaimed(r, Pending)) else None
  }

  function Complete(r: Row, t: Token): Option<Row> {
    if Holds(r, t) then Some(Unclaimed(r, Completed)) else None
  }

  // Without a token, whoever holds the run is overruled.
  function Fail(r: Row, t: Option<Token>): Option<Row> {
    if t.None? || r.token == t then Some(Unclaimed(r, Failed)) else None
  }

  // A run has a holder and a lease exactly while it is running.
  predicate RowOk(r: Row) {
    (r.status == Running <==> r.token.Some?) && (r.token.Some? <==> r.lease.Some?)
  }

  // A live lease stands: nobody else claims the run, and it is not reset.
  lemma LiveLeaseStands(r: Row, t: Token, now: Time, duration: Time)
    requires r.status == Running && r.token.Some? && r.token != Some(t) && r.lease.Some? && now <= r.lease.value
    ensures ClaimNext(r, t, now, duration).None? && ClaimSpecific(r, t, now, duration).None?
    ensures ResetFromStart(r, now).None?
  {}

  // Who may claim: the next worker a waiting run or one whose lease ran out; a worker that names the run also
  // a finished one, or the run it holds already. A reset takes whatever nobody holds.
  lemma WhoMayClaim(r: Row, t: Token, now: Time, duration: Time)
    requires RowOk(r)
    ensures ClaimNext(r, t, now, duration).Some? <==>
              r.status == Pending || (r.token.Some? && r.lease.value < now)
    ensures ClaimSpecific(r, t, now, duration).Some? <==>
              r.token.None? || r.lease.value < now || r.token == Some(t)
    ensures ResetFromStart(r, now).Some? <==> r.token.None? || r.lease.value < now
  {}

  // What a claim leaves: the claimant holds the run for the duration and stands where the last one left it.
  predicate ClaimedBy(r: Row, q: Row, t: Token, until: Time) {
    && q.status == Running && q.token == Some(t) && q.lease == Some(until)
    && q.cursor == r.cursor && q.seen == r.seen && q.added == r.added && q.moved == r.moved && q.kept == r.kept
    && q.failed == r.failed && q.createdAt == r.createdAt
  }

  lemma ClaimsMean(r: Row, t: Token, now: Time, duration: Time)
    ensures var q := ClaimNext(r, t, now, duration); q.Some? ==> ClaimedBy(r, q.value, t, now + duration)
    ensures var q := ClaimSpecific(r, t, now, duration); q.Some? ==> ClaimedBy(r, q.value, t, now + duration)
  {}

  // Only the holder writes, and leaves the run to nobody in the state it says; a page's progress renews the
  // lease and adds its counts.
  lemma WritesMean(r: Row, t: Token, cursor: Id, c: PageCounts, now: Time, duration: Time)
    requires RowOk(r)
    ensures Release(r, t).Some? <==> r.token == Some(t)
    ensures Complete(r, t).Some? <==> r.token == Some(t)
    ensures Fail(r, Some(t)).Some? <==> r.token == Some(t)
    ensures UpdateProgress(r, t, cursor, c, now, duration).Some? <==> r.token == Some(t)
    ensures r.token == Some(t) ==>
              && Left(r, Release(r, t).value, Pending) && Left(r, Complete(r, t).value, Completed)
              && Left(r, Fail(r, Some(t)).value, Failed)
              && var q := UpdateProgress(r, t, cursor, c, now, duration).value;
                 && q.status == Running && q.token == Some(t) && q.lease == Some(now + duration)
                 && q.cursor == Some(cursor) && q.seen == r.seen + c.seen && q.added == r.added + c.added
                 && q.moved == r.moved + c.moved && q.kept == r.kept + c.kept && q.failed == r.failed + c.failed
    ensures Left(r, Fail(r, None).value, Failed)
  {}

  // Nobody holds the run, which stays where it was.
  predicate Left(r: Row, q: Row, status: Status) {
    && q.status == status && q.token == None && q.lease == None
    && q.cursor == r.cursor && q.seen == r.seen && q.added == r.added && q.moved == r.moved && q.kept == r.kept
    && q.failed == r.failed && q.createdAt == r.createdAt
  }

  // A reset run starts over: waiting, with nothing counted.
  lemma ResetMeans(r: Row, now: Time)
    ensures var q := ResetFromStart(r, now);
            q.Some? ==>
              && q.value.status == Pending && q.value.token == None && q.value.lease == None
              && q.value.cursor == None && q.value.createdAt == r.createdAt
              && q.value.seen == q.value.added == q.value.moved == q.value.kept == q.value.failed == 0
  {}

  function OrSame(after: Option<Row>, r: Row): Row {
    if after.Some? then after.value else r
  }

  // ---------------------------------------------------------------- the table

  // ingestion_run_processing.
  class Queue {
    var rows: map<Id, Row>

    constructor ()
      ensures rows == map[]
    {
      rows := map[];
    }

    method EnsureExists(run: Id, now: Time)
      modifies this
      ensures run in rows && rows[run] == (if run in old(rows) then old(rows)[run] else NewRow(now))
      ensures rows == old(rows)[run := rows[run]]
    {
      if run !in rows {
        rows := rows[run := NewRow(now)];
      }
    }

    // Writes the row a guard let through; no row returned means the guard refused.
    method Write(run: Id, after: Option<Row>) returns (written: bool)
      requires run in rows
      modifies this
      ensures written == after.Some?
      ensures rows == old(rows)[run := OrSame(after, old(rows)[run])]
    {
      written := after.Some?;
      if written {
        rows := rows[run := after.value];
      }
    }

    // The oldest claimable run, if there is one.
    method ClaimOldest(t: Token, now: Time, duration: Time) returns (run: Option<Id>)
      modifies this
      ensures run.None? ==> rows == old(rows) && NoneClaimable(old(rows), old(rows.Keys), now)
      ensures run.Some? ==>
        && OldestClaimable(old(rows), old(rows.Keys), now, run.value)
        && rows == old(rows)[run.value := Claimed(old(rows)[run.value], t, now, duration)]
        && ClaimedBy(old(rows)[run.value], rows[run.value], t, now + duration)
      // a run is claimed exactly when one waits or its lease ran out, and then the oldest such run
      ensures run.None? <==> forall i | i in old(rows) :: !Waits(old(rows)[i], now)
      ensures run.Some? ==>
        && Waits(old(rows)[run.value], now)
        && forall i | i in old(rows) && Waits(old(rows)[i], now) ::
             old(rows)[run.value].createdAt <= old(rows)[i].createdAt
    {
      run := None;
      var left := rows.Keys;
      while left != {}
        invariant left <= rows.Keys && rows == old(rows)
        invariant run.None? ==> NoneClaimable(rows, rows.Keys - left, now)
        invariant run.Some? ==> OldestClaimable(rows, rows.Keys - left, now, run.value)
        decreases left
      {
        var i := Any(left);
        left := left - {i};
        if Claimable(rows[i], now) && (run.None? || rows[i].createdAt < rows[run.value].createdAt) {
          run := Some(i);
        }
      }
      if run.Some? {
        rows := rows[run.value := Claimed(rows[run.value], t, now, duration)];
      }
    }
  }

  predicate NoneClaimable(rows: map<Id, Row>, among: set<Id>, now: Time) {
    forall i | i in among && i in rows :: !Claimable(rows[i], now)
  }

  predicate OldestClaimable(rows: map<Id, Row>, among: set<Id>, now: Time, run: Id) {
    && run in rows && Claimable(rows[run], now)
    && forall i | i in among && i in rows && Claimable(rows[i], now) :: rows[run].createdAt <= rows[i].createdAt
  }
}
