// The orchestrator's loop against the database, while other actors may cancel its run.
module SyncLoop {
  import opened Prelude
  import opened Budget
  import opened Ndjson
  import opened Resume
  import opened Sync

  datatype Result = AlreadyActive | Stopped(run: nat) | Done(run: nat)

  // What is decided from outside at each turn: whether another actor cancels the run, with which of the
  // checkpoints it has stored; whether the caller cancels; whether the database refuses the batch, or its
  // answer is lost.
  datatype Turn = Turn(interferes: bool, read: nat, cancelled: bool, refused: bool, lost: bool)

  predicate Disturbed(o: Turn) {
    o.interferes || o.cancelled || o.refused || o.lost
  }

  // The tables, with every committed state so far.
  class Database<R(!new)> {
    const feed: Feed<R>
    var store: Store<R>
    ghost var states: seq<Store<R>>
    ghost var events: seq<Event>

    ghost predicate Valid()
      reads this
    {
      IsHistory(feed, states, events) && states[|states|-1] == store
    }

    constructor (feed: Feed<R>)
      ensures Valid() && this.feed == feed && store == Store([], [])
    {
      this.feed, store := feed, Store([], []);
      states, events := [Store([], [])], [];
    }

    // One transaction.
    method Commit(ghost e: Event, t: Store<R>)
      requires Valid() && Step(feed, store, e, t)
      modifies this
      ensures Valid() && store == t && states == old(states) + [t] && events == old(events) + [e]
    {
      store, states, events := t, states + [t], events + [e];
    }

    // Refused while a run of the source is active.
    method CreateRun(initial: Checkpoint) returns (created: bool)
      requires Valid()
      modifies this
      ensures Valid() && old(states) <= states
      ensures created <==> forall i | 0 <= i < |old(store).runs| :: old(store).runs[i].status != Running
      ensures store == if created then old(store).(runs := old(store).runs + [NewRun(initial)]) else old(store)
    {
      created := Idle(store);
      if created {
        Commit(StartRun(initial), store.(runs := store.runs + [NewRun(initial)]));
      }
    }

    // Saves a batch with its progress, or nothing: the run is no longer RUNNING, or the database refused.
    // The answer to a commit may be lost, which looks like a refusal.
    method Persist(i: nat, limit: nat, b: Batch<R>, o: Turn) returns (ok: bool, ghost saved: bool)
      requires Valid() && i < |store.runs| && limit > 0
      requires store.runs[i].status.Running? ==>
                 !store.runs[i].exhausted && b == Stream(feed.parse, feed.data, At(store.runs[i].checkpoint), limit)
      modifies this
      ensures Valid() && old(states) <= states
      ensures saved <==> old(store).runs[i].status.Running? && !o.refused
      ensures ok <==> saved && !o.lost
      ensures store == if saved then Put(old(store), i, Progressed(old(store).runs[i], b), b.records) else old(store)
    {
      ok, saved := false, false;
      if store.runs[i].status.Running? && !o.refused {
        Commit(PersistBatch(i, limit), Put(store, i, Progressed(store.runs[i], b), b.records));
        ok, saved := !o.lost, true;
      }
    }

    // Reads the row, then writes its new status; a run that is no longer RUNNING is left alone.
    method End(i: nat, to: Status) returns (ok: bool)
      requires Valid() && i < |store.runs| && (to.Failed? || to.Cancelled?)
      modifies this
      ensures Valid() && old(states) <= states && ok == old(store).runs[i].status.Running?
      ensures |store.runs| == |old(store).runs| && !store.runs[i].status.Running?
      ensures store.runs[i] == if ok then Finished(old(store).runs[i], to, old(store).runs[i].checkpoint)
              else old(store).runs[i]
    {
      ok := store.runs[i].status.Running?;
      if ok {
        var read := store.runs[i].checkpoint;
        CheckpointIsPast(this, i);
        Commit(EndRun(i, to, read), Put(store, i, Finished(store.runs[i], to, read), []));
      }
    }

    method Complete(i: nat, checkpoint: Checkpoint) returns (ok: bool)
      requires Valid() && i < |store.runs|
      requires store.runs[i].status.Running? ==> store.runs[i].exhausted && checkpoint == store.runs[i].checkpoint
      modifies this
      ensures Valid() && old(states) <= states && ok == old(store).runs[i].status.Running?
      ensures |store.runs| == |old(store).runs| && !store.runs[i].status.Running?
      ensures ok ==>
                var run := old(store).runs[i];
                store.runs[i] == Finished(run, if run.failed > 0 then Partial else Completed, checkpoint)
    {
      ok := store.runs[i].status.Running?;
      if ok {
        var to := if store.runs[i].failed > 0 then Partial else Completed;
        CheckpointIsPast(this, i);
        Commit(EndRun(i, to, checkpoint), Put(store, i, Finished(store.runs[i], to, checkpoint), []));
      }
    }

    // Another actor may cancel the run, with a checkpoint it read at any time before.
    method Interfere(i: nat, o: Turn)
      requires Valid() && i < |store.runs|
      modifies this
      ensures Valid() && old(states) <= states && |store.runs| == |old(store).runs|
      ensures store.runs[i] == old(store).runs[i] || !store.runs[i].status.Running?
      ensures !o.interferes ==> store == old(store)
    {
      if o.interferes && store.runs[i].status.Running? && |store.runs[i].past| > 0 {
        var read := store.runs[i].past[if o.read < |store.runs[i].past| then o.read else 0];
        Commit(EndRun(i, Cancelled, read), Put(store, i, Finished(store.runs[i], Cancelled, read), []));
      }
    }
  }

  // Every committed state of the database is sound.
  lemma CommittedStateHolds<R(!new)>(db: Database<R>)
    requires db.Valid()
    ensures Inv(db.feed, db.store)
  {
    HistoryKeeps(db.feed, db.states, db.events, |db.states| - 1);
  }

  lemma CheckpointIsPast<R(!new)>(db: Database<R>, i: nat)
    requires db.Valid() && i < |db.store.runs|
    ensures db.store.runs[i].checkpoint in db.store.runs[i].past
  {
    CommittedStateHolds(db);
    assert RunHolds(db.feed, db.store.runs[i]);
  }

  lemma CompletedHolds<R(!new)>(db: Database<R>, i: nat)
    requires db.Valid() && i < |db.store.runs|
             && (db.store.runs[i].status.Completed? || db.store.runs[i].status.Partial?)
    ensures var run := db.store.runs[i];
            Rest(db.feed, run.start) == Batch(run.records, run.failed, None) && run.seen == |run.records| + run.failed
            && run.status == if run.failed > 0 then Partial else Completed
  {
    SyncNeverSkips(db.feed, db.states, db.events, |db.states| - 1, i);
  }

  // What the loop knows of its run while nobody ended it.
  ghost predicate OnTrack<R(!new)>(run: Run<R>, initial: Checkpoint, cp: Checkpoint, seen: nat, failed: nat,
                                   exhausted: bool) {
    && run.status.Running? && run.checkpoint == cp && run.seen == seen && run.failed == failed
    && run.exhausted == exhausted && run.start == initial
  }

  // What the next batch of a run is: it moves forward, and a bad row in it is one of the feed from its start.
  lemma BatchAhead<R(!new)>(db: Database<R>, i: nat, limit: nat)
    requires db.Valid() && i < |db.store.runs| && limit > 0
    requires db.store.runs[i].status.Running? && !db.store.runs[i].exhausted
    ensures var run := db.store.runs[i];
            var b := Stream(db.feed.parse, db.feed.data, At(run.checkpoint), limit);
            && (b.next.Some? ==> At(run.checkpoint) < b.next.value <= |db.feed.data| && b.next != run.checkpoint)
            && (b.failed > 0 ==> Rest(db.feed, run.start).failed > 0)
  {
    CommittedStateHolds(db);
    assert RunHolds(db.feed, db.store.runs[i]);
    BatchIsPrefix(db.feed.parse, db.feed.data, At(db.store.runs[i].checkpoint), limit);
  }

  // One turn of the loop: fetch, check the adapter's contract, persist. None means the run has been ended:
  // somebody disturbed the turn, or the batch has a row the policy does not skip.
  method SyncBatch<R(!new)>(db: Database<R>, i: nat, cp: Checkpoint, limit: nat, skip: bool, seekable: bool, o: Turn)
    returns (synced: Option<Batch<R>>)
    requires db.Valid() && i < |db.store.runs| && limit > 0
    requires db.store.runs[i].status.Running? && db.store.runs[i].checkpoint == cp && !db.store.runs[i].exhausted
    modifies db
    ensures db.Valid() && old(db.states) <= db.states && |db.store.runs| == |old(db.store).runs|
    ensures synced.None? ==> !db.store.runs[i].status.Running?
    ensures synced.None? && !o.interferes ==>
              db.store.runs[i].status == if o.cancelled then Cancelled else Status.Failed
    ensures synced.None? ==> Disturbed(o) || (!skip && Rest(db.feed, old(db.store).runs[i].start).failed > 0)
    ensures synced.Some? ==>
              (synced.value.next.Some? ==> At(cp) < synced.value.next.value <= |db.feed.data|)
              && db.store.runs[i] == Progressed(old(db.store).runs[i], synced.value)
  {
    BatchAhead(db, i, limit);
    db.Interfere(i, o);
    if o.cancelled {
      var _ := db.End(i, Cancelled);
      return None;
    }
    var reader := new Reader(db.feed.data);
    var fetched := StreamNDJSON(reader, db.feed.parse, skip, seekable, At(cp), limit);
    if fetched.RowError? || (fetched.batch.next.Some? && fetched.batch.next == cp) {
      var _ := db.End(i, Failed);
      return None;
    }
    var ok, saved := db.Persist(i, limit, fetched.batch, o);
    if !ok {
      var _ := db.End(i, Failed);
      return None;
    }
    return Some(fetched.batch);
  }

  // Fetches and persists batch after batch. Done means the run saved or counted every row from its start
  // to the end of the file, within the budget; Stopped means it has been ended as failed or cancelled, and
  // only because a turn was disturbed, a row may not be skipped or the budget is exceeded.
  method SyncSource<R(!new)>(db: Database<R>, initial: Checkpoint, requested: int, batchSize: nat, skip: bool,
                             seekable: bool, budget: ErrorBudget, outside: nat -> Turn)
    returns (result: Result, ghost last: nat)
    requires db.Valid() && batchSize > 0
    modifies db
    ensures db.Valid() && old(db.states) <= db.states
    ensures result.AlreadyActive? <==>
              exists i :: 0 <= i < |old(db.store).runs| && old(db.store).runs[i].status == Running
    ensures result.AlreadyActive? ==> db.store == old(db.store)
    ensures !result.AlreadyActive? ==>
              result.run == |old(db.store).runs| < |db.store.runs| && !db.store.runs[result.run].status.Running?
    ensures result.Done? ==>
              var run := db.store.runs[result.run];
              Rest(db.feed, initial) == Batch(run.records, run.failed, None) && run.seen == |run.records| + run.failed
              && run.status == (if run.failed > 0 then Partial else Completed)
              && WithinBudget(budget, run.seen, run.failed)
    ensures result.Stopped? ==>
              var run := db.store.runs[result.run];
              || Disturbed(outside(last)) || (!skip && Rest(db.feed, initial).failed > 0)
              || !WithinBudget(budget, run.seen, run.failed)
    ensures result.Stopped? && !outside(last).interferes ==>
              db.store.runs[result.run].status == Status.Failed
              || (db.store.runs[result.run].status == Cancelled && outside(last).cancelled)
  {
    last := 0;
    var created := db.CreateRun(initial);
    if !created {
      return AlreadyActive, 0;
    }
    var i := |db.store.runs| - 1;
    var limit := if requested > 0 then requested else batchSize;
    var totalSeen: nat, totalFailed: nat, currentCP := 0, 0, initial;
    var exhausted, turn: nat := false, 0;
    while !exhausted
      invariant db.Valid() && old(db.states) <= db.states && i == |old(db.store).runs| < |db.store.runs|
      invariant OnTrack(db.store.runs[i], initial, currentCP, totalSeen, totalFailed, exhausted)
      invariant exhausted ==> WithinBudget(budget, totalSeen, totalFailed)
      decreases !exhausted, |db.feed.data| - At(currentCP)
    {
      last := turn;
      var synced := SyncBatch(db, i, currentCP, limit, skip, seekable, outside(turn));
      if synced.None? {
        return Stopped(i), turn;
      }
      var b := synced.value;
      totalSeen, totalFailed := totalSeen + |b.records| + b.failed, totalFailed + b.failed;
      if !WithinBudget(budget, totalSeen, totalFailed) {
        var _ := db.End(i, Failed);
        return Stopped(i), turn;
      }
      currentCP, exhausted := Kept(b.next, currentCP), b.next.None?;
      turn := turn + 1;
    }
    last := turn;
    db.Interfere(i, outside(turn));
    var ok := db.Complete(i, currentCP);
    if !ok {
      return Stopped(i), turn;
    }
    CompletedHolds(db, i);
    return Done(i), turn;
  }
}
