// Ingestion runs over a feed: internal/application/ingestion/sync.go. Each batch's records, counters and
// checkpoint are one transaction; other actors may end a run between any two of them, having read its
// row earlier. A checkpoint is the offset its text stands for, by the round trip of Resume.
module Sync {
  import opened Prelude
  import opened Ndjson
  import opened Resume

  datatype Status = Running | Completed | Partial | Failed | Cancelled

  // The checkpoint column: empty, or an offset.
  type Checkpoint = Option<nat>

  function At(cp: Checkpoint): nat {
    match cp
    case None => 0
    case Some(offset) => offset
  }

  // The column keeps its value when the new one is empty.
  function Kept(cp: Checkpoint, stored: Checkpoint): Checkpoint {
    if cp.Some? then cp else stored
  }

  // How much a run had saved and counted as failed at some point.
  datatype Tally = Tally(saved: nat, failed: nat)

  // An ingestion_runs row. The rest is history: where the run began, every checkpoint it has stored with
  // the tally then, the records it saved, and those of the last batch, which stores no checkpoint.
  datatype Run<R> = Run(status: Status, checkpoint: Checkpoint, seen: nat, failed: nat,
                        start: Checkpoint, past: seq<Checkpoint>, tallies: seq<Tally>, records: seq<R>, tail: seq<R>,
                        exhausted: bool)

  // The runs of one source, oldest first, and its raw records.
  datatype Store<R> = Store(runs: seq<Run<R>>, saved: seq<R>)

  // The file and what its lines hold.
  datatype Feed<R> = Feed(parse: Bytes -> Row<R>, data: Bytes)

  // ---------------------------------------------------------------- the writes

  function NewRun<R>(initial: Checkpoint): Run<R> {
    Run(Running, initial, 0, 0, initial, [initial], [Tally(0, 0)], [], [], false)
  }

  // records_seen and records_failed grow; the last batch, which has no next offset, keeps the checkpoint.
  function Progressed<R>(run: Run<R>, b: Batch<R>): Run<R> {
    var counted := run.(seen := run.seen + |b.records| + b.failed, failed := run.failed + b.failed,
                        records := run.records + b.records);
    if b.next.None? then counted.(tail := b.records, exhausted := true)
    else counted.(checkpoint := b.next, past := run.past + [b.next],
                  tallies := run.tallies + [Tally(|counted.records|, counted.failed)])
  }

  function Finished<R>(run: Run<R>, to: Status, read: Checkpoint): Run<R> {
    run.(status := to, checkpoint := Kept(read, run.checkpoint))
  }

  function Put<R>(s: Store<R>, i: nat, run: Run<R>, records: seq<R>): Store<R>
    requires i < |s.runs|
  {
    Store(s.runs[i := run], s.saved + records)
  }

  // No run of the source is active.
  predicate Idle<R>(s: Store<R>) {
    forall i | 0 <= i < |s.runs| :: !s.runs[i].status.Running?
  }

  // The beginning, or a checkpoint some run has stored.
  predicate Known<R>(s: Store<R>, initial: Checkpoint) {
    initial == None || exists i :: 0 <= i < |s.runs| && initial in s.runs[i].past
  }

  datatype Event = StartRun(initial: Checkpoint) | PersistBatch(run: nat, limit: nat)
    | EndRun(run: nat, to: Status, read: Checkpoint)

  // One committed write. Ending a run writes the checkpoint its actor read before, guarded only by the
  // status; only the worker completes a run, after the last batch.
  ghost predicate Step<R(!new)>(feed: Feed<R>, s: Store<R>, e: Event, t: Store<R>) {
    match e
    case StartRun(initial) =>
      Idle(s) && t == s.(runs := s.runs + [NewRun(initial)])
    case PersistBatch(i, limit) =>
      && i < |s.runs| && s.runs[i].status.Running? && !s.runs[i].exhausted && limit > 0
      && var b := Stream(feed.parse, feed.data, At(s.runs[i].checkpoint), limit);
         t == Put(s, i, Progressed(s.runs[i], b), b.records)
    case EndRun(i, to, read) =>
      && i < |s.runs| && s.runs[i].status.Running? && read in s.runs[i].past
      && (to.Failed? || to.Cancelled?
          || (s.runs[i].exhausted && read == s.runs[i].checkpoint && to == if s.runs[i].failed > 0 then Partial
              else Completed))
      && t == Put(s, i, Finished(s.runs[i], to, read), [])
  }

  // ---------------------------------------------------------------- the invariant

  function TotalFailed<R>(runs: seq<Run<R>>): nat {
    if runs == [] then 0 else TotalFailed(runs[..|runs|-1]) + runs[|runs|-1].failed
  }

  // Everything before pos is among the saved records or counted as failed.
  ghost predicate NoLossAt<R(!new)>(feed: Feed<R>, saved: seq<R>, lost: nat, pos: nat, pre: seq<R>, bad: nat) {
    && Pass(feed.parse, feed.data, 0) == After(pre, bad, Pass(feed.parse, feed.data, pos))
    && multiset(pre) <= multiset(saved) && bad <= lost
  }

  ghost predicate NoLoss<R(!new)>(feed: Feed<R>, saved: seq<R>, lost: nat, pos: nat) {
    exists pre: seq<R>, bad: nat :: NoLossAt(feed, saved, lost, pos, pre, bad)
  }

  function Rest<R>(feed: Feed<R>, cp: Checkpoint): Batch<R> {
    Pass(feed.parse, feed.data, At(cp))
  }

  function LastStored<R>(run: Run<R>): Checkpoint {
    if run.past == [] then None else run.past[|run.past|-1]
  }

  function LastTally<R>(run: Run<R>): Tally {
    if run.tallies == [] then Tally(0, 0) else run.tallies[|run.tallies|-1]
  }

  // What is left of the feed after everything the run has read.
  function Ahead<R>(feed: Feed<R>, run: Run<R>): Batch<R> {
    if run.exhausted then Batch([], 0, None) else Rest(feed, LastStored(run))
  }

  // The records up to the j-th stored checkpoint are the first the run saved, in order and once.
  ghost predicate StoredAt<R(!new)>(feed: Feed<R>, run: Run<R>, j: nat)
    requires j < |run.past| == |run.tallies|
  {
    var n := run.tallies[j];
    && n.saved <= |run.records| && n.failed <= run.failed
    && Rest(feed, run.start) == After(run.records[..n.saved], n.failed, Rest(feed, run.past[j]))
  }

  // Stored checkpoints move forward, each over at least one record.
  ghost predicate Forward<R>(run: Run<R>) {
    && 0 < |run.past| == |run.tallies|
    && forall a, b | 0 <= a < b < |run.past| ::
         At(run.past[a]) < At(run.past[b]) && run.tallies[a].saved < run.tallies[b].saved
  }

  ghost predicate Accounts<R(!new)>(feed: Feed<R>, run: Run<R>) {
    && run.seen == |run.records| + run.failed && |run.records| == LastTally(run).saved + |run.tail|
    && (!run.exhausted ==> run.tail == [])
    && Rest(feed, run.start) == After(run.records, run.failed, Ahead(feed, run))
  }

  // Only ending a run can leave its checkpoint behind the last one it stored; a run that ended by itself
  // has read the whole feed.
  ghost predicate RunHolds<R(!new)>(feed: Feed<R>, run: Run<R>) {
    && Forward(run) && Accounts(feed, run) && (forall j | 0 <= j < |run.past| :: StoredAt(feed, run, j))
    && run.checkpoint in run.past && (run.status.Running? ==> run.checkpoint == LastStored(run))
    && (run.status.Completed? || run.status.Partial? ==> run.exhausted && (run.status.Partial? <==> run.failed > 0))
  }

  ghost predicate Inv<R(!new)>(feed: Feed<R>, s: Store<R>) {
    forall i | 0 <= i < |s.runs| :: RunHolds(feed, s.runs[i])
  }

  ghost predicate Safe<R(!new)>(feed: Feed<R>, s: Store<R>) {
    forall i, cp | 0 <= i < |s.runs| && cp in s.runs[i].past :: NoLoss(feed, s.saved, TotalFailed(s.runs), At(cp))
  }

  // ---------------------------------------------------------------- proofs

  lemma NoLossGrows<R(!new)>(feed: Feed<R>, saved: seq<R>, lost: nat, more: seq<R>, bad: nat, pos: nat)
    requires NoLoss(feed, saved, lost, pos)
    ensures NoLoss(feed, saved + more, lost + bad, pos)
  {
    var pre: seq<R>, n: nat :| NoLossAt(feed, saved, lost, pos, pre, n);
    assert NoLossAt(feed, saved + more, lost + bad, pos, pre, n);
  }

  lemma NoLossAtStart<R(!new)>(feed: Feed<R>, saved: seq<R>, lost: nat)
    ensures NoLoss(feed, saved, lost, 0)
  {
    var all := Pass(feed.parse, feed.data, 0);
    assert [] + all.records == all.records;
    assert NoLossAt(feed, saved, lost, 0, [], 0);
  }

  // A batch moves the position over exactly what it saved or counted.
  lemma NoLossAfterBatch<R(!new)>(feed: Feed<R>, saved: seq<R>, lost: nat, pos: nat, b: Batch<R>, q: nat)
    requires NoLoss(feed, saved, lost, pos)
    requires Pass(feed.parse, feed.data, pos) == After(b.records, b.failed, Pass(feed.parse, feed.data, q))
    ensures NoLoss(feed, saved + b.records, lost + b.failed, q)
  {
    var pre: seq<R>, n: nat :| NoLossAt(feed, saved, lost, pos, pre, n);
    AfterAfter(pre, n, b.records, b.failed, Pass(feed.parse, feed.data, q));
    assert NoLossAt(feed, saved + b.records, lost + b.failed, q, pre + b.records, n + b.failed);
  }

  lemma {:induction false} TotalPut<R>(runs: seq<Run<R>>, i: nat, run: Run<R>)
    requires i < |runs|
    ensures TotalFailed(runs[i := run]) == TotalFailed(runs) - runs[i].failed + run.failed
  {
    var last := |runs| - 1;
    if i < last {
      assert runs[i := run][..last] == runs[..last][i := run];
      TotalPut(runs[..last], i, run);
    } else {
      assert runs[i := run][..last] == runs[..last];
    }
  }

  lemma LastBatchHolds<R(!new)>(feed: Feed<R>, run: Run<R>, b: Batch<R>)
    requires RunHolds(feed, run) && run.status.Running? && !run.exhausted
    requires b == Rest(feed, run.checkpoint)
    ensures RunHolds(feed, Progressed(run, b))
  {
    var t := Progressed(run, b);
    assert b.records + [] == b.records;
    AfterAfter(run.records, run.failed, b.records, b.failed, Batch([], 0, None));
    forall j | 0 <= j < |t.past| ensures StoredAt(feed, t, j) {
      assert StoredAt(feed, run, j);
      assert t.records[..t.tallies[j].saved] == run.records[..run.tallies[j].saved];
    }
  }

  lemma FullBatchHolds<R(!new)>(feed: Feed<R>, run: Run<R>, b: Batch<R>)
    requires RunHolds(feed, run) && run.status.Running? && !run.exhausted
    requires b.next.Some? && At(run.checkpoint) < b.next.value && b.records != [] && Splits(feed, At(run.checkpoint), b)
    ensures RunHolds(feed, Progressed(run, b))
  {
    var t := Progressed(run, b);
    AfterAfter(run.records, run.failed, b.records, b.failed, Pass(feed.parse, feed.data, b.next.value));
    FullBatchForward(run, b);
    assert t.records[..|t.records|] == t.records;
    forall j | 0 <= j < |t.past| ensures StoredAt(feed, t, j) {
      if j < |run.past| {
        assert StoredAt(feed, run, j);
        assert t.records[..t.tallies[j].saved] == run.records[..run.tallies[j].saved];
      }
    }
    assert t.past[|t.past|-1] == b.next;
  }

  lemma FullBatchForward<R>(run: Run<R>, b: Batch<R>)
    requires Forward(run) && |run.records| == LastTally(run).saved && b.records != []
    requires b.next.Some? && At(LastStored(run)) < b.next.value
    ensures Forward(Progressed(run, b))
  {
    var t, last := Progressed(run, b), |run.past| - 1;
    forall x, y | 0 <= x < y < |t.past|
      ensures At(t.past[x]) < At(t.past[y]) && t.tallies[x].saved < t.tallies[y].saved {
      if y == |run.past| && x < last {
        assert At(run.past[x]) < At(run.past[last]) && run.tallies[x].saved < run.tallies[last].saved;
      }
    }
  }

  lemma ProgressHolds<R(!new)>(feed: Feed<R>, run: Run<R>, limit: nat)
    requires RunHolds(feed, run) && run.status.Running? && !run.exhausted && limit > 0
    ensures RunHolds(feed, Progressed(run, Stream(feed.parse, feed.data, At(run.checkpoint), limit)))
  {
    var b := Stream(feed.parse, feed.data, At(run.checkpoint), limit);
    BatchIsPrefix(feed.parse, feed.data, At(run.checkpoint), limit);
    if b.next.Some? { FullBatchHolds(feed, run, b); } else { LastBatchHolds(feed, run, b); }
  }

  lemma FinishHolds<R(!new)>(feed: Feed<R>, run: Run<R>, to: Status, read: Checkpoint)
    requires RunHolds(feed, run) && run.status.Running? && read in run.past
    requires to.Failed? || to.Cancelled? || (run.exhausted && to == if run.failed > 0 then Partial else Completed)
    ensures RunHolds(feed, Finished(run, to, read))
  {
    var t := Finished(run, to, read);
    forall j | 0 <= j < |t.past| ensures StoredAt(feed, t, j) { assert StoredAt(feed, run, j); }
  }

  lemma NewRunHolds<R(!new)>(feed: Feed<R>, initial: Checkpoint)
    ensures RunHolds(feed, NewRun(initial))
  {
    var rest := Rest(feed, initial);
    assert [] + rest.records == rest.records;
    assert NewRun<R>(initial).records[..0] == [];
  }

  lemma StartKeeps<R(!new)>(feed: Feed<R>, s: Store<R>, initial: Checkpoint)
    requires Inv(feed, s)
    ensures Inv(feed, s.(runs := s.runs + [NewRun(initial)]))
  {
    NewRunHolds(feed, initial);
  }

  lemma StartSafe<R(!new)>(feed: Feed<R>, s: Store<R>, initial: Checkpoint)
    requires Safe(feed, s) && Known(s, initial)
    ensures Safe(feed, s.(runs := s.runs + [NewRun(initial)]))
  {
    var t := s.(runs := s.runs + [NewRun(initial)]);
    assert t.runs[..|t.runs|-1] == s.runs;
    NoLossAtStart(feed, s.saved, TotalFailed(s.runs));
    forall i, c | 0 <= i < |t.runs| && c in t.runs[i].past ensures NoLoss(feed, t.saved, TotalFailed(t.runs), At(c)) {
      if i < |s.runs| { assert t.runs[i] == s.runs[i]; }
    }
  }

  // b is what lies between pos and where it says to resume.
  ghost predicate Splits<R(!new)>(feed: Feed<R>, pos: nat, b: Batch<R>) {
    b.next.Some? ==>
      Pass(feed.parse, feed.data, pos) == After(b.records, b.failed, Pass(feed.parse, feed.data, b.next.value))
  }

  // What was reached before a batch still is, and so is where the batch ends.
  lemma BatchReaches<R(!new)>(feed: Feed<R>, saved: seq<R>, lost: nat, cp: Checkpoint, b: Batch<R>)
    requires NoLoss(feed, saved, lost, At(cp)) && Splits(feed, At(cp), b)
    ensures NoLoss(feed, saved + b.records, lost + b.failed, At(Kept(b.next, cp)))
  {
    if b.next.Some? {
      NoLossAfterBatch(feed, saved, lost, At(cp), b, b.next.value);
    } else {
      NoLossGrows(feed, saved, lost, b.records, b.failed, At(cp));
    }
  }

  lemma ProgressStores<R>(run: Run<R>, b: Batch<R>)
    ensures Progressed(run, b).failed == run.failed + b.failed
    ensures forall c | c in Progressed(run, b).past :: c in run.past || c == Kept(b.next, run.checkpoint)
  {}

  // Run i becomes p, which has stored at most one more checkpoint.
  lemma PutSafe<R(!new)>(feed: Feed<R>, s: Store<R>, i: nat, b: Batch<R>, p: Run<R>, cp: Checkpoint)
    requires Safe(feed, s) && i < |s.runs| && p.failed == s.runs[i].failed + b.failed
    requires forall c | c in p.past :: c in s.runs[i].past || c == cp
    requires NoLoss(feed, s.saved + b.records, TotalFailed(s.runs) + b.failed, At(cp))
    ensures Safe(feed, Put(s, i, p, b.records))
  {
    var t := Put(s, i, p, b.records);
    TotalPut(s.runs, i, p);
    forall j, c | 0 <= j < |t.runs| && c in t.runs[j].past ensures NoLoss(feed, t.saved, TotalFailed(t.runs), At(c)) {
      CheckpointSafe(feed, s, b, s.runs[j].past, c, cp);
    }
  }

  // One checkpoint, stored before the batch or by it.
  lemma CheckpointSafe<R(!new)>(feed: Feed<R>, s: Store<R>, b: Batch<R>, past: seq<Checkpoint>, c: Checkpoint,
                                cp: Checkpoint)
    requires forall x | x in past :: NoLoss(feed, s.saved, TotalFailed(s.runs), At(x))
    requires c in past || c == cp
    requires NoLoss(feed, s.saved + b.records, TotalFailed(s.runs) + b.failed, At(cp))
    ensures NoLoss(feed, s.saved + b.records, TotalFailed(s.runs) + b.failed, At(c))
  {
    if c in past { NoLossGrows(feed, s.saved, TotalFailed(s.runs), b.records, b.failed, At(c)); }
  }

  lemma BatchSafe<R(!new)>(feed: Feed<R>, s: Store<R>, i: nat, b: Batch<R>)
    requires Inv(feed, s) && Safe(feed, s) && i < |s.runs| && Splits(feed, At(s.runs[i].checkpoint), b)
    ensures Safe(feed, Put(s, i, Progressed(s.runs[i], b), b.records))
  {
    var run := s.runs[i];
    assert RunHolds(feed, run);
    BatchReaches(feed, s.saved, TotalFailed(s.runs), run.checkpoint, b);
    ProgressStores(run, b);
    PutSafe(feed, s, i, b, Progressed(run, b), Kept(b.next, run.checkpoint));
  }

  lemma StreamSplits<R(!new)>(feed: Feed<R>, pos: nat, limit: nat)
    ensures Splits(feed, pos, Stream(feed.parse, feed.data, pos, limit))
  {
    BatchIsPrefix(feed.parse, feed.data, pos, limit);
  }

  lemma EndSafe<R(!new)>(feed: Feed<R>, s: Store<R>, i: nat, to: Status, read: Checkpoint)
    requires Safe(feed, s) && i < |s.runs|
    ensures Safe(feed, Put(s, i, Finished(s.runs[i], to, read), []))
  {
    var t := Put(s, i, Finished(s.runs[i], to, read), []);
    TotalPut(s.runs, i, Finished(s.runs[i], to, read));
    assert s.saved + [] == s.saved;
    forall j, c | 0 <= j < |t.runs| && c in t.runs[j].past ensures NoLoss(feed, t.saved, TotalFailed(t.runs), At(c)) {
      assert c in s.runs[j].past;
    }
  }

  // Every committed write keeps what holds of each run.
  lemma StepKeeps<R(!new)>(feed: Feed<R>, s: Store<R>, e: Event, t: Store<R>)
    requires Inv(feed, s) && Step(feed, s, e, t)
    ensures Inv(feed, t)
  {
    match e
    case StartRun(initial) => StartKeeps(feed, s, initial);
    case PersistBatch(i, limit) => ProgressHolds(feed, s.runs[i], limit);
    case EndRun(i, to, read) => FinishHolds(feed, s.runs[i], to, read);
  }

  // And nothing is lost, if runs start from the beginning or from stored checkpoints.
  lemma StepSafe<R(!new)>(feed: Feed<R>, s: Store<R>, e: Event, t: Store<R>)
    requires Inv(feed, s) && Safe(feed, s) && Step(feed, s, e, t) && (e.StartRun? ==> Known(s, e.initial))
    ensures Safe(feed, t)
  {
    match e
    case StartRun(initial) => StartSafe(feed, s, initial);
    case PersistBatch(i, limit) =>
      StreamSplits(feed, At(s.runs[i].checkpoint), limit);
      BatchSafe(feed, s, i, Stream(feed.parse, feed.data, At(s.runs[i].checkpoint), limit));
    case EndRun(i, to, read) => EndSafe(feed, s, i, to, read);
  }

  // ---------------------------------------------------------------- over all histories

  ghost predicate IsHistory<R(!new)>(feed: Feed<R>, states: seq<Store<R>>, events: seq<Event>) {
    && |states| == |events| + 1 && states[0] == Store([], [])
    && forall k | 0 <= k < |events| :: Step(feed, states[k], events[k], states[k+1])
  }

  // No run of the history was started from a checkpoint of an operator's own making.
  ghost predicate Resumed<R(!new)>(states: seq<Store<R>>, events: seq<Event>)
    requires |states| == |events| + 1
  {
    forall k | 0 <= k < |events| && events[k].StartRun? :: Known(states[k], events[k].initial)
  }

  lemma {:induction false} HistoryKeeps<R(!new)>(feed: Feed<R>, states: seq<Store<R>>, events: seq<Event>, k: nat)
    requires IsHistory(feed, states, events) && k < |states|
    ensures Inv(feed, states[k])
  {
    if k > 0 {
      HistoryKeeps(feed, states, events, k - 1);
      StepKeeps(feed, states[k-1], events[k-1], states[k]);
    }
  }

  lemma {:induction false} HistorySafe<R(!new)>(feed: Feed<R>, states: seq<Store<R>>, events: seq<Event>, k: nat)
    requires IsHistory(feed, states, events) && Resumed(states, events) && k < |states|
    ensures Safe(feed, states[k])
  {
    if k > 0 {
      HistoryKeeps(feed, states, events, k - 1);
      HistorySafe(feed, states, events, k - 1);
      StepSafe(feed, states[k-1], events[k-1], states[k]);
    }
  }

  // After any writes, in any order, by workers that fail, resume or are cancelled: a run's totals are its
  // batches', and a finished run has saved everything from its start. If no run was started from a
  // checkpoint of an operator's own making, the stored checkpoint of every run has nothing behind it that
  // was not saved or counted as failed.
  lemma SyncNeverSkips<R(!new)>(feed: Feed<R>, states: seq<Store<R>>, events: seq<Event>, k: nat, i: nat)
    requires IsHistory(feed, states, events) && k < |states| && i < |states[k].runs|
    ensures var run := states[k].runs[i];
            && run.seen == |run.records| + run.failed
            && (run.status.Completed? || run.status.Partial? ==>
                  Rest(feed, run.start) == Batch(run.records, run.failed, None)
                    && (run.status.Partial? <==> run.failed > 0))
            && (Resumed(states, events) ==>
                NoLoss(feed, states[k].saved, TotalFailed(states[k].runs), At(run.checkpoint)))
  {
    HistoryKeeps(feed, states, events, k);
    var run := states[k].runs[i];
    assert RunHolds(feed, run) && run.records + [] == run.records;
    if Resumed(states, events) { HistorySafe(feed, states, events, k); }
  }

  lemma StepEnds<R(!new)>(feed: Feed<R>, s: Store<R>, e: Event, t: Store<R>, i: nat)
    requires Step(feed, s, e, t) && i < |s.runs|
    ensures |s.runs| <= |t.runs| && (s.runs[i].status != Running ==> t.runs[i] == s.runs[i])
    ensures i < |t.runs| - 1 && t.runs[i].status == Running ==> |t.runs| == |s.runs| && s.runs[i].status == Running
  {}

  // In every committed state of a source only its newest run can be RUNNING.
  lemma {:induction false} OneRunAtATime<R(!new)>(feed: Feed<R>, states: seq<Store<R>>, events: seq<Event>, k: nat,
                                                  i: nat)
    requires IsHistory(feed, states, events) && k < |states| && i < |states[k].runs| - 1
    ensures states[k].runs[i].status != Running
  {
    if k > 0 {
      if i < |states[k-1].runs| - 1 { OneRunAtATime(feed, states, events, k - 1, i); }
      if i < |states[k-1].runs| { StepEnds(feed, states[k-1], events[k-1], states[k], i); }
    }
  }

  // A run that has ended stays as it ended.
  lemma {:induction false} EndedRunsStay<R(!new)>(feed: Feed<R>, states: seq<Store<R>>, events: seq<Event>, k: nat,
                                                  j: nat, i: nat)
    requires IsHistory(feed, states, events) && k <= j < |states| && i < |states[k].runs|
    requires states[k].runs[i].status != Running
    ensures i < |states[j].runs| && states[j].runs[i] == states[k].runs[i]
  {
    if k < j {
      EndedRunsStay(feed, states, events, k, j - 1, i);
      StepEnds(feed, states[j-1], events[j-1], states[j], i);
    }
  }
}
