// A newline-delimited feed read in batches: internal/adapters/sources/feed_file_adapter.go. What one
// line holds is an abstract function of its bytes; lines, limits and offsets are exact.
module Ndjson {
  import opened Prelude

  type Bytes = seq<bv8>

  const NEWLINE: bv8 := 10
  const MAX_LINE_BYTES := 1024 * 1024

  // A line is blank after trimming, a record, or a row the policy may skip.
  datatype Row<R> = Blank | Malformed | Record(record: R)

  datatype LineError = NoError | EndOfFile | LineTooLong

  // ---------------------------------------------------------------- lines

  // Just past the newline that ends the line at pos, or the end of the data.
  function LineEnd(data: Bytes, pos: nat): (end: nat)
    ensures if pos >= |data| then end == pos else pos < end <= |data|
    decreases |data| - pos
  {
    if pos >= |data| then pos else if data[pos] == NEWLINE then pos + 1 else LineEnd(data, pos + 1)
  }

  // A stretch without a newline belongs to the line that follows it.
  lemma {:induction false} LineEndSkips(data: Bytes, a: nat, b: nat)
    requires a <= b <= |data| && NEWLINE !in data[a..b]
    ensures LineEnd(data, a) == LineEnd(data, b)
    decreases b - a
  {
    if a < b {
      assert data[a] == data[a..b][0];
      assert data[a+1..b] == data[a..b][1..];
      LineEndSkips(data, a + 1, b);
    }
  }

  // ---------------------------------------------------------------- the buffered reader

  datatype SliceError = Delimited | BufferFull | Ended

  class Reader {
    const data: Bytes
    var pos: nat

    constructor (data: Bytes)
      ensures this.data == data && pos == 0
    {
      this.data, pos := data, 0;
    }

    // Seek, or a copy to nowhere that stops at the end.
    method SkipTo(offset: nat, seekable: bool)
      requires pos == 0
      modifies this
      ensures pos == if seekable then offset else Min(offset, |data|)
    {
      pos := if seekable then offset else Min(offset, |data|);
    }

    // Up to the next newline, to the end, or to wherever the buffer happens to be full.
    method ReadSlice() returns (chunk: Bytes, err: SliceError)
      modifies this
      ensures old(pos) <= pos && (pos <= |data| || pos == old(pos))
      ensures chunk == if old(pos) <= |data| then data[old(pos)..pos] else []
      ensures err.Delimited? ==>
                pos <= |data| && chunk != [] && data[pos-1] == NEWLINE && NEWLINE !in data[old(pos)..pos-1]
      ensures !err.Delimited? ==> NEWLINE !in chunk
      ensures err.BufferFull? ==> chunk != []
      ensures err.Ended? ==> pos >= |data|
    {
      var room: nat :| room > 0;
      chunk, err := [], BufferFull;
      ghost var start := pos;
      while true
        invariant start <= pos && (pos <= |data| || pos == start)
        invariant chunk == if start <= |data| then data[start..pos] else []
        invariant NEWLINE !in chunk && |chunk| < room
        decreases |data| - pos
      {
        if pos >= |data| {
          return chunk, Ended;
        }
        chunk, pos := chunk + [data[pos]], pos + 1;
        if data[pos-1] == NEWLINE {
          return chunk, Delimited;
        }
        if |chunk| == room {
          return chunk, BufferFull;
        }
      }
    }
  }

  // What reading one line gives; no buffer appears in it.
  ghost predicate ReadsLine(data: Bytes, start: nat, line: Bytes, n: nat, err: LineError, maxBytes: nat) {
    var end := LineEnd(data, start);
    && n == end - start
    && if n > maxBytes then line == [] && err == LineTooLong
       else line == (if start <= |data| then data[start..end] else [])
            && err == if n > 0 && line[n-1] == NEWLINE then NoError else EndOfFile
  }

  // However the chunks fall, the line, its length and its error are those of the data.
  method ReadBoundedLine(r: Reader, maxBytes: nat) returns (line: Bytes, n: nat, err: LineError)
    modifies r
    ensures r.pos == LineEnd(r.data, old(r.pos)) == old(r.pos) + n
    ensures ReadsLine(r.data, old(r.pos), line, n, err, maxBytes)
  {
    var buf: Bytes := [];
    n := 0;
    var oversized := false;
    ghost var start := r.pos;
    while true
      invariant r.pos == start + n && (r.pos <= |r.data| || n == 0)
      invariant start <= |r.data| ==> NEWLINE !in r.data[start..r.pos]
      invariant oversized <==> n > maxBytes
      invariant !oversized ==> buf == if start <= |r.data| then r.data[start..r.pos] else []
      decreases |r.data| - r.pos
    {
      ghost var before := r.pos;
      var chunk, sliceErr := r.ReadSlice();
      n := n + |chunk|;
      if !oversized {
        if |buf| + |chunk| > maxBytes {
          oversized := true;
        } else {
          buf := buf + chunk;
        }
      }
      LineEnds(r.data, start, before, r.pos, sliceErr);
      if !sliceErr.BufferFull? {
        if oversized {
          return [], n, LineTooLong;
        }
        return buf, n, if sliceErr.Delimited? then NoError else EndOfFile;
      }
    }
  }

  lemma LineEnds(data: Bytes, start: nat, before: nat, pos: nat, err: SliceError)
    requires start <= before <= pos && (pos <= |data| || pos == start)
    requires start <= |data| ==> NEWLINE !in data[start..before]
    requires before <= |data| ==>
               (err.Delimited? ==> pos > before && data[pos-1] == NEWLINE && NEWLINE !in data[before..pos-1])
    requires before <= |data| && !err.Delimited? ==> NEWLINE !in data[before..pos]
    requires err.Delimited? ==> pos <= |data|
    requires err.Ended? ==> pos >= |data|
    ensures !err.BufferFull? ==> LineEnd(data, start) == pos
    ensures start <= |data| && !err.Delimited? ==> NEWLINE !in data[start..pos]
  {
    if start < |data| {
      if err.Delimited? {
        assert data[start..pos-1] == data[start..before] + data[before..pos-1];
        LineEndSkips(data, start, pos - 1);
      } else {
        assert data[start..pos] == data[start..before] + data[before..pos];
        LineEndSkips(data, start, pos);
      }
    }
  }

  // ---------------------------------------------------------------- one batch

  // next is the offset to resume from; None when the feed is exhausted.
  datatype Batch<R> = Batch(records: seq<R>, failed: nat, next: Option<nat>)

  function After<R>(records: seq<R>, failed: nat, rest: Batch<R>): Batch<R> {
    Batch(records + rest.records, failed + rest.failed, rest.next)
  }

  // The row of a line; one that is too long is malformed whatever it says.
  function RowOf<R>(parse: Bytes -> Row<R>, line: Bytes): Row<R> {
    if |line| > MAX_LINE_BYTES then Malformed else parse(line)
  }

  function RowRecords<R>(row: Row<R>): seq<R> {
    if row.Record? then [row.record] else []
  }

  function RowFailures<R>(row: Row<R>): nat {
    if row.Malformed? then 1 else 0
  }

  predicate Terminated(line: Bytes) {
    line != [] && line[|line|-1] == NEWLINE
  }

  // What a batch of at most `room` records from pos is, skipping malformed rows. A last line without a
  // newline ends the feed even when it fills the batch; one that is too long is only found to be last by
  // the next read.
  function Stream<R>(parse: Bytes -> Row<R>, data: Bytes, pos: nat, room: nat): Batch<R>
    decreases |data| - pos
  {
    if room == 0 then Batch([], 0, Some(pos))
    else if pos >= |data| then Batch([], 0, None)
    else
      var end := LineEnd(data, pos);
      var line := data[pos..end];
      var row := RowOf(parse, line);
      var rest := if !Terminated(line) && |line| <= MAX_LINE_BYTES then Batch([], 0, None)
                  else Stream(parse, data, end, if row.Record? then room - 1 else room);
      After(RowRecords(row), RowFailures(row), rest)
  }

  datatype FetchResult<R> = Fetched(batch: Batch<R>) | RowError

  lemma AfterAfter<R>(a: seq<R>, m: nat, b: seq<R>, n: nat, rest: Batch<R>)
    ensures After(a, m, After(b, n, rest)) == After(a + b, m + n, rest)
  {
    assert a + (b + rest.records) == a + b + rest.records;
  }

  // The batch of a first line, which may end the feed, and what follows it.
  function LineThen<R>(parse: Bytes -> Row<R>, line: Bytes, rest: Batch<R>): Batch<R> {
    var row := RowOf(parse, line);
    After(RowRecords(row), RowFailures(row),
          if !Terminated(line) && |line| <= MAX_LINE_BYTES then Batch([], 0, None) else rest)
  }

  function RoomAfter<R>(row: Row<R>, room: nat): nat {
    if row.Record? && room > 0 then room - 1 else room
  }

  lemma StreamFirst<R>(parse: Bytes -> Row<R>, data: Bytes, pos: nat, room: nat)
    requires room > 0 && pos < |data|
    ensures var end := LineEnd(data, pos);
            var line := data[pos..end];
            Stream(parse, data, pos, room) ==
              LineThen(parse, line, Stream(parse, data, end, RoomAfter(RowOf(parse, line), room)))
  {}

  // What reading a line says about it.
  lemma LineRead(data: Bytes, pos: nat, line: Bytes, n: nat, err: LineError)
    requires n > 0 && ReadsLine(data, pos, line, n, err, MAX_LINE_BYTES)
    ensures pos < |data| && LineEnd(data, pos) == pos + n <= |data|
    ensures err.LineTooLong? <==> n > MAX_LINE_BYTES
    ensures !err.LineTooLong? ==> line == data[pos..pos+n] && (Terminated(line) <==> err.NoError?)
  {}

  lemma LongThen<R>(parse: Bytes -> Row<R>, line: Bytes, rest: Batch<R>)
    requires |line| > MAX_LINE_BYTES
    ensures RowOf(parse, line).Malformed? && LineThen(parse, line, rest) == After([], 1, rest)
  {}

  lemma RowThen<R>(parse: Bytes -> Row<R>, line: Bytes, rest: Batch<R>)
    requires |line| <= MAX_LINE_BYTES
    ensures RowOf(parse, line) == parse(line)
    ensures LineThen(parse, line, rest) ==
              After(RowRecords(parse(line)), RowFailures(parse(line)),
                    if Terminated(line) then rest else Batch([], 0, None))
  {}

  lemma StreamLongLine<R>(parse: Bytes -> Row<R>, data: Bytes, pos: nat, room: nat, n: nat)
    requires room > 0 && ReadsLine(data, pos, [], n, LineTooLong, MAX_LINE_BYTES)
    ensures Stream(parse, data, pos, room) == After([], 1, Stream(parse, data, pos + n, room))
  {
    LineRead(data, pos, [], n, LineTooLong);
    StreamFirst(parse, data, pos, room);
    LongThen(parse, data[pos..pos+n], Stream(parse, data, pos + n, room));
  }

  // What follows a row: nothing when it is the last line.
  function RestOf<R>(parse: Bytes -> Row<R>, data: Bytes, end: nat, row: Row<R>, room: nat, last: bool): Batch<R> {
    if last then Batch([], 0, None) else Stream(parse, data, end, RoomAfter(row, room))
  }

  lemma StreamRow<R>(parse: Bytes -> Row<R>, data: Bytes, pos: nat, room: nat, line: Bytes, n: nat, err: LineError)
    requires room > 0 && ReadsLine(data, pos, line, n, err, MAX_LINE_BYTES) && n > 0 && !err.LineTooLong?
    ensures var row := parse(line);
            Stream(parse, data, pos, room) ==
              After(RowRecords(row), RowFailures(row), RestOf(parse, data, pos + n, row, room, err.EndOfFile?))
  {
    LineRead(data, pos, line, n, err);
    StreamFirst(parse, data, pos, room);
    RowThen(parse, line, Stream(parse, data, pos + n, RoomAfter(parse(line), room)));
  }

  // What has been read so far followed by what is left.
  function Continued<R>(parse: Bytes -> Row<R>, data: Bytes, limit: nat, pos: nat, records: seq<R>,
                        failed: nat): Batch<R> {
    After(records, failed, Stream(parse, data, pos, if |records| <= limit then limit - |records| else 0))
  }

  // A row error stands in the batch that goes on from it.
  lemma FailedStays<R>(parse: Bytes -> Row<R>, data: Bytes, limit: nat, pos: nat, records: seq<R>, failed: nat)
    ensures Continued(parse, data, limit, pos, records, failed).failed >= failed
  {}

  lemma LongLineGrows<R>(parse: Bytes -> Row<R>, data: Bytes, whole: Batch<R>, limit: nat, pos: nat, records: seq<R>,
                         failed: nat, next: nat, bad: nat)
    requires |records| < limit && whole == Continued(parse, data, limit, pos, records, failed) && bad == failed + 1
    requires next >= pos && ReadsLine(data, pos, [], next - pos, LineTooLong, MAX_LINE_BYTES)
    ensures whole == Continued(parse, data, limit, next, records, bad) && whole.failed > 0
  {
    var rest := Stream(parse, data, next, limit - |records|);
    StreamLongLine(parse, data, pos, limit - |records|, next - pos);
    AfterAfter(records, failed, [], 1, rest);
    assert records + [] == records;
    FailedStays(parse, data, limit, next, records, bad);
  }

  lemma RowTaken<R>(parse: Bytes -> Row<R>, data: Bytes, limit: nat, pos: nat, records: seq<R>, failed: nat,
                    line: Bytes, next: nat, err: LineError)
    requires |records| < limit
    requires next > pos && ReadsLine(data, pos, line, next - pos, err, MAX_LINE_BYTES) && !err.LineTooLong?
    ensures var row := parse(line);
            Continued(parse, data, limit, pos, records, failed) ==
              After(records + RowRecords(row), failed + RowFailures(row),
                    RestOf(parse, data, next, row, limit - |records|, err.EndOfFile?))
  {
    var row, room := parse(line), limit - |records|;
    StreamRow(parse, data, pos, room, line, next - pos, err);
    AfterAfter(records, failed, RowRecords(row), RowFailures(row),
               RestOf(parse, data, next, row, room, err.EndOfFile?));
  }

  lemma RowGrows<R>(parse: Bytes -> Row<R>, data: Bytes, whole: Batch<R>, limit: nat, pos: nat, records: seq<R>,
                    failed: nat, line: Bytes, next: nat, err: LineError, all: seq<R>, bad: nat)
    requires |records| < limit && whole == Continued(parse, data, limit, pos, records, failed)
    requires next > pos && ReadsLine(data, pos, line, next - pos, err, MAX_LINE_BYTES) && !err.LineTooLong?
    requires all == records + RowRecords(parse(line)) && bad == failed + RowFailures(parse(line))
    ensures err.EndOfFile? ==> whole == Batch(all, bad, None)
    ensures !err.EndOfFile? ==> whole == Continued(parse, data, limit, next, all, bad)
  {
    RowTaken(parse, data, limit, pos, records, failed, line, next, err);
    assert all + [] == all;
    assert RoomAfter(parse(line), limit - |records|) == limit - |all|;
  }

  lemma FeedEnds<R>(parse: Bytes -> Row<R>, data: Bytes, whole: Batch<R>, limit: nat, pos: nat, records: seq<R>,
                    failed: nat)
    requires |records| <= limit && whole == Continued(parse, data, limit, pos, records, failed)
    ensures |records| < limit && pos >= |data| ==> whole == Batch(records, failed, None)
    ensures |records| == limit ==> whole == Batch(records, failed, Some(pos))
  {
    assert records + [] == records;
  }

  // A malformed row under the strict policy.
  lemma BadRowFails<R>(parse: Bytes -> Row<R>, data: Bytes, whole: Batch<R>, limit: nat, pos: nat, records: seq<R>,
                       failed: nat, line: Bytes, next: nat, err: LineError)
    requires |records| < limit && whole == Continued(parse, data, limit, pos, records, failed)
    requires next > pos && ReadsLine(data, pos, line, next - pos, err, MAX_LINE_BYTES) && !err.LineTooLong?
    requires parse(line).Malformed?
    ensures whole.failed > 0
  {
    assert records + [] == records;
    RowGrows(parse, data, whole, limit, pos, records, failed, line, next, err, records, failed + 1);
    FailedStays(parse, data, limit, next, records, failed + 1);
  }

  // Reads until the batch is full or the feed ends; without `skip`, until the first bad row.
  method StreamNDJSON<R>(r: Reader, parse: Bytes -> Row<R>, skip: bool, seekable: bool, startOffset: nat, limit: nat)
    returns (result: FetchResult<R>)
    requires r.pos == 0 && limit > 0
    modifies r
    ensures result.Fetched? ==> result.batch == Stream(parse, r.data, startOffset, limit)
    ensures result.RowError? <==> !skip && Stream(parse, r.data, startOffset, limit).failed > 0
  {
    r.SkipTo(startOffset, seekable);
    var offset: nat, records: seq<R>, failed: nat := startOffset, [], 0;
    ghost var whole := Stream(parse, r.data, startOffset, limit);
    assert [] + whole.records == whole.records;
    while |records| < limit
      invariant r.pos == offset || (offset >= |r.data| && r.pos >= |r.data|)
      invariant |records| <= limit && whole == Continued(parse, r.data, limit, offset, records, failed)
      invariant !skip ==> failed == 0
      decreases |r.data| - offset
    {
      var line, n, err := ReadBoundedLine(r, MAX_LINE_BYTES);
      if n == 0 && err.EndOfFile? {
        FeedEnds(parse, r.data, whole, limit, offset, records, failed);
        return Fetched(Batch(records, failed, None));
      }
      ghost var before, recordsBefore, failedBefore := offset, records, failed;
      offset := offset + n;
      if err.LineTooLong? {
        LongLineGrows(parse, r.data, whole, limit, before, records, failed, offset, failed + 1);
        if !skip {
          return RowError;
        }
        failed := failed + 1;
        continue;
      }
      var row := parse(line);
      if row.Malformed? {
        if !skip {
          BadRowFails(parse, r.data, whole, limit, before, records, failed, line, offset, err);
          return RowError;
        }
        failed := failed + 1;
      } else if row.Record? {
        records := records + [row.record];
      }
      assert failed == failedBefore + RowFailures(row) && records == recordsBefore + RowRecords(row) by {
        assert recordsBefore + [] == recordsBefore;
      }
      RowGrows(parse, r.data, whole, limit, before, recordsBefore, failedBefore, line, offset, err, records, failed);
      if err.EndOfFile? {
        return Fetched(Batch(records, failed, None));
      }
    }
    FeedEnds(parse, r.data, whole, limit, offset, records, failed);
    return Fetched(Batch(records, failed, Some(offset)));
  }
}
