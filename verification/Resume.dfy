// Resuming a feed from its checkpoints: internal/domain/ingestion/checkpoint.go and the fetch loop's
// answer to it. Batches of any sizes, one after another, are one pass over the file.
module Resume {
  import opened Prelude
  import opened Ndjson
  import Decimal
  import Text

  // ---------------------------------------------------------------- checkpoints

  const PREFIX := "offset:"

  function Digits(n: nat): string {
    if n < 10 then [(n + '0' as int) as char] else Digits(n / 10) + [(n % 10 + '0' as int) as char]
  }

  function FormatByteOffset(offset: int): string {
    if offset < 0 then "" else PREFIX + Digits(offset)
  }

  function Lower(c: char): char {
    if 'A' <= c <= 'Z' then (c as int + 32) as char else c
  }

  predicate HasPrefix(s: string) {
    |s| >= |PREFIX| && forall i | 0 <= i < |PREFIX| :: Lower(s[i]) == PREFIX[i]
  }

  // An offset that fits 64 bits and is not negative, prefix optional.
  function OffsetOf(s: string): Option<nat> {
    var text := if HasPrefix(s) then s[|PREFIX|..] else s;
    match Decimal.ParseInt(text)
    case None => None
    case Some(n) => if n < 0 then None else Some(n)
  }

  // Blank means the start.
  function ParseByteOffset(checkpoint: string): Option<nat> {
    var s := Text.TrimSpace(checkpoint);
    if s == "" then Some(0) else OffsetOf(s)
  }

  lemma {:induction false} DigitsDenote(n: nat)
    ensures Decimal.AllDigits(Digits(n)) && Digits(n) != "" && Decimal.Amount(Digits(n)) == n
  {
    if n >= 10 {
      DigitsDenote(n / 10);
      var s := Digits(n);
      assert s[..|s|-1] == Digits(n / 10);
    } else {
      assert Digits(n)[..0] == "";
    }
  }

  lemma FormattedTrims(offset: nat)
    ensures Text.TrimSpace(FormatByteOffset(offset)) == FormatByteOffset(offset)
  {
    var s := FormatByteOffset(offset);
    DigitsDenote(offset);
    assert s[|s|-1] == Digits(offset)[|Digits(offset)|-1];
    Text.TrimPadded("", s, "");
    assert "" + s + "" == s;
  }

  // A formatted offset parses to itself, for every offset a file can have.
  lemma CheckpointRoundTrip(offset: nat)
    requires offset <= MAX_INT64
    ensures ParseByteOffset(FormatByteOffset(offset)) == Some(offset)
  {
    FormattedTrims(offset);
    DigitsDenote(offset);
    var s := FormatByteOffset(offset);
    assert s[|PREFIX|..] == Digits(offset);
    PlainDigits(Digits(offset));
  }

  lemma PlainDigits(s: string)
    requires Decimal.AllDigits(s) && s != "" && 0 <= Decimal.Amount(s) <= MAX_INT64
    ensures Decimal.ParseInt(s) == Some(Decimal.Amount(s))
  {
    assert Decimal.IsDigit(s[0]);
  }

  // The word in any case of its letters.
  predicate IsPrefix(p: string) {
    && |p| == 7 && p[0] in {'o', 'O'} && p[1] in {'f', 'F'} && p[2] in {'f', 'F'} && p[3] in {'s', 'S'}
    && p[4] in {'e', 'E'} && p[5] in {'t', 'T'} && p[6] == ':'
  }

  predicate DenotesAs(s: string, n: nat, word: string, sign: string, digits: string) {
    && s == word + sign + digits && (word == "" || IsPrefix(word)) && (sign == "" || sign == "+" || sign == "-")
    && digits != "" && Decimal.AllDigits(digits) && Decimal.Amount(digits) == n <= MAX_INT64
    && (sign == "-" ==> n == 0)
  }

  // An optional word, an optional sign and the digits of n, which fits 64 bits.
  ghost predicate Denotes(s: string, n: nat) {
    exists word, sign, digits :: DenotesAs(s, n, word, sign, digits)
  }

  lemma PrefixIsWord(s: string)
    ensures HasPrefix(s) <==> |s| >= 7 && IsPrefix(s[..7])
  {
    assert PREFIX[0] == 'o' && PREFIX[1] == 'f' && PREFIX[2] == 'f' && PREFIX[3] == 's' && PREFIX[4] == 'e'
      && PREFIX[5] == 't' && PREFIX[6] == ':';
    if |s| >= 7 {
      assert forall i | 0 <= i < 7 :: s[..7][i] == s[i];
    }
  }

  lemma SignedIsParsed(text: string, sign: string, digits: string)
    requires text == sign + digits && (sign == "" || sign == "+" || sign == "-")
    requires digits != "" && Decimal.AllDigits(digits)
    ensures var n := if sign == "-" then -Decimal.Amount(digits) else Decimal.Amount(digits);
            Decimal.ParseInt(text) == if n < MIN_INT64 || n > MAX_INT64 then None else Some(n)
  {
    assert Decimal.IsDigit(digits[0]);
    if sign == "" {
      assert text == digits;
    } else {
      assert text[1..] == digits;
    }
  }

  lemma ParsedIsSigned(text: string) returns (sign: string, digits: string)
    requires Decimal.ParseInt(text).Some?
    ensures text == sign + digits && (sign == "" || sign == "+" || sign == "-")
    ensures digits != "" && Decimal.AllDigits(digits)
  {
    if text != [] && (text[0] == '-' || text[0] == '+') {
      sign, digits := text[..1], text[1..];
    } else {
      sign, digits := "", text;
    }
  }

  lemma ReadIsDenoted(s: string, n: nat)
    requires OffsetOf(s) == Some(n)
    ensures Denotes(s, n)
  {
    PrefixIsWord(s);
    var word := if HasPrefix(s) then s[..7] else "";
    var sign, digits := ParsedIsSigned(s[|word|..]);
    SignedIsParsed(s[|word|..], sign, digits);
    Decimal.AmountBounds(digits);
    assert DenotesAs(s, n, word, sign, digits);
  }

  lemma DenotedIsRead(s: string, n: nat, word: string, sign: string, digits: string)
    requires DenotesAs(s, n, word, sign, digits)
    ensures s != "" && OffsetOf(s) == Some(n)
  {
    PrefixIsWord(s);
    SignedIsParsed(sign + digits, sign, digits);
    assert Decimal.IsDigit(digits[0]);
    if word == "" {
      assert s == sign + digits && s[0] == if sign == "" then digits[0] else sign[0];
    } else {
      assert s[..7] == word && s[7..] == sign + digits;
    }
  }

  // A checkpoint is read as n exactly when it is blank and n is the start, or when, trimmed, it denotes n;
  // everything else is refused.
  lemma CheckpointsAccepted(checkpoint: string, n: nat)
    ensures ParseByteOffset(checkpoint) == Some(n)
            <==> (Text.TrimSpace(checkpoint) == "" && n == 0) || Denotes(Text.TrimSpace(checkpoint), n)
  {
    var s := Text.TrimSpace(checkpoint);
    if s != "" && OffsetOf(s) == Some(n) { ReadIsDenoted(s, n); }
    if Denotes(s, n) {
      var word, sign, digits :| DenotesAs(s, n, word, sign, digits);
      DenotedIsRead(s, n, word, sign, digits);
    }
  }

  // ---------------------------------------------------------------- one pass

  function Lines(data: Bytes, pos: nat): seq<Bytes>
    decreases |data| - pos
  {
    if pos >= |data| then [] else [data[pos..LineEnd(data, pos)]] + Lines(data, LineEnd(data, pos))
  }

  function Records<R>(parse: Bytes -> Row<R>, lines: seq<Bytes>): seq<R> {
    if lines == [] then [] else RowRecords(RowOf(parse, lines[0])) + Records(parse, lines[1..])
  }

  function Failures<R>(parse: Bytes -> Row<R>, lines: seq<Bytes>): nat {
    if lines == [] then 0 else RowFailures(RowOf(parse, lines[0])) + Failures(parse, lines[1..])
  }

  // The records and failures of the whole rest of the file.
  function Pass<R>(parse: Bytes -> Row<R>, data: Bytes, pos: nat): Batch<R> {
    Batch(Records(parse, Lines(data, pos)), Failures(parse, Lines(data, pos)), None)
  }

  lemma PassSteps<R>(parse: Bytes -> Row<R>, data: Bytes, pos: nat)
    requires pos < |data|
    ensures var row := RowOf(parse, data[pos..LineEnd(data, pos)]);
            Pass(parse, data, pos) == After(RowRecords(row), RowFailures(row), Pass(parse, data, LineEnd(data, pos)))
  {
    var end := LineEnd(data, pos);
    assert Lines(data, pos)[1..] == Lines(data, end);
  }

  // An unterminated line is the last one.
  lemma {:induction false} UnterminatedIsLast(data: Bytes, pos: nat)
    requires pos < |data| && !Terminated(data[pos..LineEnd(data, pos)])
    ensures LineEnd(data, pos) == |data|
    decreases |data| - pos
  {
    var end := LineEnd(data, pos);
    assert data[pos..end][end-pos-1] == data[end-1];
    if data[pos] != NEWLINE && pos + 1 < |data| {
      assert LineEnd(data, pos + 1) == end;
      assert data[pos+1..end][end-pos-2] == data[end-1];
      UnterminatedIsLast(data, pos + 1);
    }
  }

  // What a batch leaves is the pass from where it says to resume: nothing is lost or read twice. A
  // batch that is not the last is full and moves forward.
  lemma {:induction false} BatchIsPrefix<R>(parse: Bytes -> Row<R>, data: Bytes, pos: nat, room: nat)
    ensures var b := Stream(parse, data, pos, room);
            match b.next
            case None => b == Pass(parse, data, pos)
            case Some(q) =>
              |b.records| == room && Pass(parse, data, pos) == After(b.records, b.failed, Pass(parse, data, q))
              && if room == 0 then q == pos else pos < q <= |data|
    decreases |data| - pos
  {
    if room > 0 && pos < |data| {
      var end := LineEnd(data, pos);
      var line := data[pos..end];
      var row := RowOf(parse, line);
      PassSteps(parse, data, pos);
      if !Terminated(line) && |line| <= MAX_LINE_BYTES {
        UnterminatedIsLast(data, pos);
      } else {
        var more := if row.Record? then room - 1 else room;
        BatchIsPrefix(parse, data, end, more);
        var b := Stream(parse, data, end, more);
        if b.next.Some? {
          AfterAfter(RowRecords(row), RowFailures(row), b.records, b.failed, Pass(parse, data, b.next.value));
        }
      }
    }
  }

  // ---------------------------------------------------------------- following checkpoints

  datatype Answer<R> = Answer(records: seq<R>, failed: nat, next: string) | BadCheckpoint

  // One fetch, checkpoint text in and checkpoint text out.
  function Fetch<R>(parse: Bytes -> Row<R>, data: Bytes, checkpoint: string, limit: nat): Answer<R> {
    match ParseByteOffset(checkpoint)
    case None => BadCheckpoint
    case Some(pos) =>
      var b := Stream(parse, data, pos, limit);
      Answer(b.records, b.failed, if b.next.Some? then FormatByteOffset(b.next.value) else "")
  }

  datatype Outcome<R> = Good(batch: Batch<R>, fetches: nat) | Stuck

  ghost predicate Positive(limits: nat -> nat) {
    forall i :: limits(i) > 0
  }

  // Fetches until the checkpoint comes back empty; the i-th fetch asks for limits(i) records.
  ghost function Follow<R>(parse: Bytes -> Row<R>, data: Bytes, checkpoint: string, limits: nat -> nat,
                           i: nat): Outcome<R>
    requires Positive(limits) && |data| <= MAX_INT64
    decreases match ParseByteOffset(checkpoint) { case None => 0 case Some(pos) => |data| - pos }
  {
    match Fetch(parse, data, checkpoint, limits(i))
    case BadCheckpoint => Stuck
    case Answer(records, failed, next) =>
      FetchAdvances(parse, data, checkpoint, limits(i));
      if next == "" then Good(Batch(records, failed, None), 1)
      else
        match Follow(parse, data, next, limits, i + 1)
        case Stuck => Stuck
        case Good(rest, n) => Good(After(records, failed, rest), n + 1)
  }

  lemma FetchAdvances<R>(parse: Bytes -> Row<R>, data: Bytes, checkpoint: string, limit: nat)
    requires limit > 0 && |data| <= MAX_INT64
    ensures var a := Fetch(parse, data, checkpoint, limit);
            a.Answer? && a.next != "" ==>
              ParseByteOffset(checkpoint).Some? && ParseByteOffset(a.next).Some?
              && ParseByteOffset(checkpoint).value < ParseByteOffset(a.next).value <= |data| && |a.records| > 0
  {
    var from := ParseByteOffset(checkpoint);
    if from.Some? {
      BatchIsPrefix(parse, data, from.value, limit);
      var b := Stream(parse, data, from.value, limit);
      if b.next.Some? { CheckpointRoundTrip(b.next.value); }
    }
  }

  // For every file and every positive batch sizes, following the checkpoints ends after at most one
  // fetch more than there are records, and gives the records and failures of one pass.
  lemma {:induction false} ResumeIsOnePass<R>(parse: Bytes -> Row<R>, data: Bytes, checkpoint: string,
                                              limits: nat -> nat, i: nat)
    requires Positive(limits) && |data| <= MAX_INT64 && ParseByteOffset(checkpoint).Some?
    ensures var whole, got :=
              Pass(parse, data, ParseByteOffset(checkpoint).value), Follow(parse, data, checkpoint, limits, i);
            got.Good? && got.batch == whole && 1 <= got.fetches <= |whole.records| + 1
    decreases |data| - ParseByteOffset(checkpoint).value
  {
    var pos := ParseByteOffset(checkpoint).value;
    var b := Stream(parse, data, pos, limits(i));
    BatchIsPrefix(parse, data, pos, limits(i));
    if b.next.Some? {
      CheckpointRoundTrip(b.next.value);
      FetchAdvances(parse, data, checkpoint, limits(i));
      ResumeIsOnePass(parse, data, FormatByteOffset(b.next.value), limits, i + 1);
    }
  }

  // The whole file, from a run's empty first checkpoint.
  lemma WholeFile<R>(parse: Bytes -> Row<R>, data: Bytes, limits: nat -> nat)
    requires Positive(limits) && |data| <= MAX_INT64
    ensures Follow(parse, data, "", limits, 0).Good?
    ensures Follow(parse, data, "", limits, 0).batch.records == Records(parse, Lines(data, 0))
    ensures Follow(parse, data, "", limits, 0).batch.failed == Failures(parse, Lines(data, 0))
  {
    ResumeIsOnePass(parse, data, "", limits, 0);
  }

  // The adapter's fetch on a fresh reader of the file.
  method FetchNDJSON<R>(r: Reader, parse: Bytes -> Row<R>, skip: bool, seekable: bool, checkpoint: string,
                        requested: int, batchSize: nat)
    returns (answer: Answer<R>, rowError: bool)
    requires r.pos == 0 && batchSize > 0
    modifies r
    ensures var fetched := Fetch(parse, r.data, checkpoint, if requested > 0 then requested else batchSize);
            (rowError <==> !skip && fetched.Answer? && fetched.failed > 0) && (!rowError ==> answer == fetched)
  {
    var limit := batchSize;
    if requested > 0 {
      limit := requested;
    }
    var start := ParseByteOffset(checkpoint);
    if start.None? {
      return BadCheckpoint, false;
    }
    var result := StreamNDJSON(r, parse, skip, seekable, start.value, limit);
    match result
    case RowError => return BadCheckpoint, true;
    case Fetched(b) =>
      return Answer(b.records, b.failed,
                    match b.next { case None => "" case Some(offset) => FormatByteOffset(offset) }), false;
  }
}
