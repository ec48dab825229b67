// What resuming a run saves again: internal/application/ingestion/service.go. The checkpoint a run is
// resumed from can lie before rows it has saved, because the last batch stores none and because a caller of
// the service that ends a run writes the one it read.
module SyncResume {
  import opened Prelude
  import opened Ndjson
  import opened Resume
  import opened Sync

  // ---------------------------------------------------------------- what lies behind a checkpoint

  lemma CancelFront<R>(a: seq<R>, x: seq<R>, y: seq<R>)
    requires a + x == a + y
    ensures x == y
  {
    assert x == (a + x)[|a|..] && y == (a + y)[|a|..];
  }

  // From the j-th checkpoint a run stored, the feed still holds what the run saved after storing it, and
  // then what the run has not read.
  lemma BehindCheckpoint<R(!new)>(feed: Feed<R>, run: Run<R>, j: nat)
    requires RunHolds(feed, run) && j < |run.past|
    ensures run.tallies[j].saved <= |run.records| && run.tallies[j].failed <= run.failed
    ensures Rest(feed, run.past[j]) ==
              After(run.records[run.tallies[j].saved..], run.failed - run.tallies[j].failed, Ahead(feed, run))
  {
    var n := run.tallies[j];
    assert StoredAt(feed, run, j);
    var ahead := Ahead(feed, run);
    assert run.records + ahead.records == run.records[..n.saved] + (run.records[n.saved..] + ahead.records);
    CancelFront(run.records[..n.saved], Rest(feed, run.past[j]).records, run.records[n.saved..] + ahead.records);
  }

  // The place of a run's checkpoint among those it stored; there is only one.
  lemma CheckpointStoredOnce<R(!new)>(feed: Feed<R>, run: Run<R>) returns (j: nat)
    requires RunHolds(feed, run)
    ensures j < |run.past| && run.past[j] == run.checkpoint
    ensures forall i | 0 <= i < |run.past| && run.past[i] == run.checkpoint :: i == j
  {
    j :| 0 <= j < |run.past| && run.past[j] == run.checkpoint;
    forall i | 0 <= i < |run.past| && i != j ensures run.past[i] != run.past[j] {
      assert if i < j then At(run.past[i]) < At(run.past[j]) else At(run.past[j]) < At(run.past[i]);
    }
  }

  // ---------------------------------------------------------------- what a resumed run saves again

  // In every committed state, for a run and any run resumed from its checkpoint: up to the checkpoint the
  // first has saved exactly the rows from its start; what it saved beyond, the second saves again, in
  // order, before anything the first has not read - all of it once it has read the feed to the end, and
  // otherwise as far as it has got.
  lemma ResumeSavesAgain<R(!new)>(feed: Feed<R>, states: seq<Store<R>>, events: seq<Event>, k: nat, i: nat, l: nat)
    returns (j: nat)
    requires IsHistory(feed, states, events) && k < |states| && i < |states[k].runs| && l < |states[k].runs|
    requires states[k].runs[l].start == states[k].runs[i].checkpoint
    ensures var run, resumed := states[k].runs[i], states[k].runs[l];
            && j < |run.past| && run.past[j] == run.checkpoint
            && j < |run.tallies| && run.tallies[j].saved <= |run.records|
            && var n := run.tallies[j];
               var again := run.records[n.saved..] + Ahead(feed, run).records;
               && Rest(feed, run.start) == After(run.records[..n.saved], n.failed, Rest(feed, run.checkpoint))
               && resumed.records <= again
               && (resumed.exhausted ==> resumed.records == again)
  {
    HistoryKeeps(feed, states, events, k);
    var run, resumed := states[k].runs[i], states[k].runs[l];
    assert RunHolds(feed, run) && RunHolds(feed, resumed);
    j := CheckpointStoredOnce(feed, run);
    assert StoredAt(feed, run, j);
    BehindCheckpoint(feed, run, j);
    assert resumed.records + [] == resumed.records;
    assert resumed.records <= resumed.records + Ahead(feed, resumed).records;
  }

  // A run resumed from a run's checkpoint repeats none of the run's rows exactly when the checkpoint is the
  // last one the run stored and its last batch, if it has read the feed to the end, held no record.
  lemma ResumeRepeatsNothingIff<R(!new)>(feed: Feed<R>, states: seq<Store<R>>, events: seq<Event>, k: nat, i: nat)
    returns (j: nat)
    requires IsHistory(feed, states, events) && k < |states| && i < |states[k].runs|
    ensures var run := states[k].runs[i];
            && j < |run.past| && run.past[j] == run.checkpoint
            && j < |run.tallies| && run.tallies[j].saved <= |run.records|
            && (run.records[run.tallies[j].saved..] == []
                <==> run.checkpoint == LastStored(run) && (!run.exhausted || run.tail == []))
  {
    HistoryKeeps(feed, states, events, k);
    var run := states[k].runs[i];
    assert RunHolds(feed, run);
    j := CheckpointStoredOnce(feed, run);
    assert StoredAt(feed, run, j);
    var last := |run.past| - 1;
    if j < last {
      assert At(run.past[j]) < At(run.past[last]) && run.tallies[j].saved < run.tallies[last].saved;
    }
  }

  // ---------------------------------------------------------------- it does happen

  const A: bv8 := 97
  const ONE_LINE: Bytes := [A, NEWLINE]
  const TWO_LINES: Bytes := [A, NEWLINE, A, NEWLINE]

  // A feed whose every line is the record r.
  function FeedOf<R>(data: Bytes, r: R): Feed<R> {
    Feed((_: Bytes) => Record(r), data)
  }

  lemma LineOfTwo(data: Bytes, pos: nat)
    requires pos + 1 < |data| && data[pos] != NEWLINE && data[pos+1] == NEWLINE
    ensures LineEnd(data, pos) == pos + 2
  {}

  // One line of two bytes, read with room for it.
  lemma BatchOfLine<R>(data: Bytes, r: R, pos: nat, room: nat)
    requires pos + 1 < |data| && data[pos] != NEWLINE && data[pos+1] == NEWLINE && room > 0
    ensures var f := FeedOf(data, r);
            Stream(f.parse, data, pos, room) == After([r], 0, Stream(f.parse, data, pos + 2, room - 1))
  {
    var f := FeedOf(data, r);
    LineOfTwo(data, pos);
    StreamFirst(f.parse, data, pos, room);
    assert RowOf(f.parse, data[pos..pos+2]) == Record(r);
    assert RowRecords(Record(r)) == [r] && RowFailures<R>(Record(r)) == 0;
  }

  lemma PersistIs<R(!new)>(feed: Feed<R>, s: Store<R>, i: nat, limit: nat, b: Batch<R>)
    requires i < |s.runs| && s.runs[i].status.Running? && !s.runs[i].exhausted && limit > 0
    requires b == Stream(feed.parse, feed.data, At(s.runs[i].checkpoint), limit)
    ensures Step(feed, s, PersistBatch(i, limit), Put(s, i, Progressed(s.runs[i], b), b.records))
  {}

  // The last batch stores no checkpoint: a run that fails after it and is resumed saves its rows twice.
  lemma ResumeCanRepeat<R(!new)>(r: R) returns (states: seq<Store<R>>, events: seq<Event>)
    ensures IsHistory(FeedOf(ONE_LINE, r), states, events) && Resumed(states, events)
    ensures var s := states[|states|-1];
            && |s.runs| == 2 && s.runs[0].status == Failed && s.runs[1].start == s.runs[0].checkpoint
            && s.saved == [r, r]
    ensures Rest(FeedOf(ONE_LINE, r), None).records == [r]
  {
    var feed := FeedOf(ONE_LINE, r);
    BatchOfLine(ONE_LINE, r, 0, 5);
    var b := Stream(feed.parse, feed.data, 0, 5);
    assert b == Batch([r], 0, None);
    BatchIsPrefix(feed.parse, feed.data, 0, 5);
    var s0: Store<R> := Store([], []);
    var s1: Store<R> := Store([NewRun(None)], []);
    var s2 := Put(s1, 0, Progressed(s1.runs[0], b), b.records);
    var s3 := Put(s2, 0, Finished(s2.runs[0], Failed, None), []);
    var s4 := s3.(runs := s3.runs + [NewRun(s3.runs[0].checkpoint)]);
    var s5 := Put(s4, 1, Progressed(s4.runs[1], b), b.records);
    assert None in s2.runs[0].past;
    states := [s0, s1, s2, s3, s4, s5];
    events := [StartRun(None), PersistBatch(0, 5), EndRun(0, Failed, None), StartRun(None), PersistBatch(1, 5)];
    assert Step(feed, s0, events[0], s1);
    PersistIs(feed, s1, 0, 5, b);
    PersistIs(feed, s4, 1, 5, b);
    assert Step(feed, s2, events[2], s3) && Step(feed, s3, events[3], s4);
  }

  // A caller of the service that read the run between two batches and ends it after the second takes the
  // checkpoint back. The run's own worker never does: it ends the run after its own writes.
  lemma EndCanLowerCheckpoint<R(!new)>(r: R) returns (states: seq<Store<R>>, events: seq<Event>)
    ensures IsHistory(FeedOf(TWO_LINES, r), states, events) && |states| >= 2 && events[|events|-1].EndRun?
    ensures var was, now := states[|states|-2], states[|states|-1];
            && |was.runs| == |now.runs| == 1
            && was.runs[0].checkpoint == Some(4) && now.runs[0].checkpoint == Some(2)
            && now.saved == was.saved == [r, r]
  {
    var feed := FeedOf(TWO_LINES, r);
    BatchOfLine(TWO_LINES, r, 0, 1);
    BatchOfLine(TWO_LINES, r, 2, 1);
    var b, c := Stream(feed.parse, feed.data, 0, 1), Stream(feed.parse, feed.data, 2, 1);
    assert b == Batch([r], 0, Some(2)) && c == Batch([r], 0, Some(4));
    var s0: Store<R> := Store([], []);
    var s1: Store<R> := Store([NewRun(None)], []);
    var s2 := Put(s1, 0, Progressed(s1.runs[0], b), b.records);
    var s3 := Put(s2, 0, Progressed(s2.runs[0], c), c.records);
    var s4 := Put(s3, 0, Finished(s3.runs[0], Cancelled, Some(2)), []);
    assert s3.runs[0].past[1] == Some(2);
    states := [s0, s1, s2, s3, s4];
    events := [StartRun(None), PersistBatch(0, 1), PersistBatch(0, 1), EndRun(0, Cancelled, Some(2))];
    assert Step(feed, s0, events[0], s1);
    PersistIs(feed, s1, 0, 1, b);
    PersistIs(feed, s2, 0, 1, c);
    assert Step(feed, s3, events[3], s4);
  }
}
