// The outbox rows, the statements of outbox_events.sql, and one round of a relay:
// internal/application/outbox/relay.go.
module Outbox {
  import opened Prelude

  type Token = int
  type RowId = int

  datatype Status = Pending | Processed | Failed

  datatype Row = Row(status: Status, claim: Option<Token>, availableAt: Time, retryCount: nat)

  // chk_outbox_claim_pending: only a pending row is claimed.
  predicate RowOk(r: Row) {
    r.claim.Some? ==> r.status == Pending
  }

  predicate Claimable(r: Row, now: Time) {
    r.status == Pending && r.availableAt <= now
  }

  predicate Holds(r: Row, t: Token) {
    r.claim == Some(t)
  }

  function Claimed(r: Row, t: Token, now: Time, lease: Time): Row {
    r.(claim := Some(t), availableAt := now + lease)
  }

  function Marked(r: Row, t: Token): Row {
    if Holds(r, t) then r.(status := Processed, claim := None) else r
  }

  function Charged(r: Row, t: Token, now: Time, backoff: Time, maxAttempts: nat): Row {
    if Holds(r, t)
    then Row(if r.retryCount + 1 >= maxAttempts then Failed else Pending, None, now + backoff, r.retryCount + 1)
    else r
  }

  function Released(r: Row, t: Token, now: Time): Row {
    if Holds(r, t) then r.(claim := None, availableAt := now) else r
  }

  // What a statement that marks, charges or releases leaves of a row, field by field.
  predicate IsMarked(r: Row, q: Row) {
    q.status == Processed && q.claim == None && q.retryCount == r.retryCount && q.availableAt == r.availableAt
  }

  predicate IsCharged(r: Row, q: Row, until: Time, maxAttempts: nat) {
    && q.retryCount == r.retryCount + 1 && q.claim == None && q.availableAt == until
    && q.status == (if q.retryCount >= maxAttempts then Failed else Pending)
  }

  predicate IsReleased(r: Row, q: Row, now: Time) {
    q.status == r.status && q.claim == None && q.availableAt == now && q.retryCount == r.retryCount
  }

  // Only the holder's token writes.
  lemma WritesMean(r: Row, t: Token, now: Time, backoff: Time, maxAttempts: nat)
    ensures r.claim != Some(t) ==>
              Marked(r, t) == r && Charged(r, t, now, backoff, maxAttempts) == r && Released(r, t, now) == r
    ensures r.claim == Some(t) ==>
              IsMarked(r, Marked(r, t)) && IsReleased(r, Released(r, t, now), now)
              && IsCharged(r, Charged(r, t, now, backoff, maxAttempts), now + backoff, maxAttempts)
  {}

  // One statement applied to the rows with the given identifiers.
  function Each(rows: map<RowId, Row>, ids: seq<RowId>, write: Row -> Row): map<RowId, Row> {
    map i | i in rows :: if i in ids then write(rows[i]) else rows[i]
  }

  // ORDER BY available_at, id.
  predicate Earlier(rows: map<RowId, Row>, i: RowId, j: RowId)
    requires i in rows && j in rows
  {
    rows[i].availableAt < rows[j].availableAt || (rows[i].availableAt == rows[j].availableAt && i < j)
  }

  predicate Distinct(ids: seq<RowId>) {
    forall i, j | 0 <= i < j < |ids| :: ids[i] != ids[j]
  }

  method Earliest(rows: map<RowId, Row>, ids: set<RowId>) returns (first: RowId)
    requires ids != {} && forall i | i in ids :: i in rows
    ensures first in ids && forall j | j in ids && j != first :: Earlier(rows, first, j)
  {
    first := Any(ids);
    var left := ids - {first};
    while left != {}
      invariant left <= ids && first in ids && first !in left
      invariant forall j | j in ids && j !in left && j != first :: Earlier(rows, first, j)
      decreases left
    {
      var j := Any(left);
      left := left - {j};
      if Earlier(rows, j, first) {
        first := j;
      }
    }
  }

  // The statements a round made, in order.
  datatype Call = MarkPublished(ids: seq<RowId>) | RecordFailure(id: RowId, backoff: Time) | Release(ids: seq<RowId>)

  // What the writes of a relay have in common, and which of its statements since the claim succeed.
  datatype Round = Round(token: Token, maxAttempts: nat, now: Time, succeeds: nat -> bool)

  function Effect(o: Round, c: Call): Row -> Row {
    match c
    case MarkPublished(_) => (r: Row) => Marked(r, o.token)
    case RecordFailure(_, backoff) => (r: Row) => Charged(r, o.token, o.now, backoff, o.maxAttempts)
    case Release(_) => (r: Row) => Released(r, o.token, o.now)
  }

  function IdsOf(c: Call): seq<RowId> {
    match c
    case MarkPublished(ids) => ids
    case RecordFailure(id, _) => [id]
    case Release(ids) => ids
  }

  // The rows after the statements, of which some failed and wrote nothing.
  function Replayed(o: Round, rows: map<RowId, Row>, calls: seq<Call>, written: seq<bool>): map<RowId, Row>
    requires |written| == |calls|
  {
    if calls == [] then rows
    else
      var n := |calls| - 1;
      var before := Replayed(o, rows, calls[..n], written[..n]);
      if written[n] then Each(before, IdsOf(calls[n]), Effect(o, calls[n])) else before
  }

  lemma ReplayedMore(o: Round, rows: map<RowId, Row>, calls: seq<Call>, written: seq<bool>, c: Call, ok: bool)
    requires |written| == |calls|
    ensures Replayed(o, rows, calls + [c], written + [ok]) ==
              var before := Replayed(o, rows, calls, written);
              if ok then Each(before, IdsOf(c), Effect(o, c)) else before
  {
    assert (calls + [c])[..|calls|] == calls && (written + [ok])[..|calls|] == written;
  }

  // outbox_events as one relay sees it. The log starts over with each claim.
  class Table {
    var rows: map<RowId, Row>
    ghost var atClaim: map<RowId, Row>
    var calls: seq<Call>
    ghost var written: seq<bool>

    constructor (rows: map<RowId, Row>)
      ensures this.rows == atClaim == rows && calls == [] && written == []
    {
      this.rows, atClaim := rows, rows;
      calls, written := [], [];
    }

    // The rows are what the logged statements that succeeded made of those the claim left.
    ghost predicate Follows(o: Round)
      reads this
    {
      && |written| == |calls| && (forall i | 0 <= i < |written| :: written[i] == o.succeeds(i))
      && rows == Replayed(o, atClaim, calls, written)
    }

    // The claimable events that have been available longest, at most n; ties by identifier.
    method ClaimBatch(t: Token, n: nat, now: Time, lease: Time) returns (ids: seq<RowId>)
      modifies this
      ensures Distinct(ids) && |ids| <= n && calls == [] && written == [] && atClaim == rows
      ensures forall i | i in ids :: i in old(rows) && old(rows)[i].status == Pending && old(rows)[i].availableAt <= now
      ensures forall i, j | i in ids && j in old(rows) && j !in ids
                            && old(rows)[j].status == Pending && old(rows)[j].availableAt <= now ::
                old(rows)[i].availableAt < old(rows)[j].availableAt
                || (old(rows)[i].availableAt == old(rows)[j].availableAt && i < j)
      ensures |ids| < n ==>
                forall j | j in old(rows) && old(rows)[j].status == Pending && old(rows)[j].availableAt <= now ::
                  j in ids
      ensures rows == Each(old(rows), ids, r => Claimed(r, t, now, lease))
      ensures rows.Keys == old(rows).Keys && forall i | i in rows ::
                if i in ids
                then rows[i] == old(rows)[i].(claim := Some(t), availableAt := now + lease)
                else rows[i] == old(rows)[i]
    {
      ids := [];
      var left := set i | i in rows && Claimable(rows[i], now);
      while |ids| < n && left != {}
        invariant rows == old(rows) && |ids| <= n && Distinct(ids)
        invariant forall i | i in rows && Claimable(rows[i], now) :: i in ids || i in left
        invariant forall i | i in ids :: i in rows && Claimable(rows[i], now) && i !in left
        invariant forall i | i in left :: i in rows && Claimable(rows[i], now)
        invariant forall i, j | i in ids && j in left :: Earlier(rows, i, j)
        decreases left
      {
        var first := Earliest(rows, left);
        ids := ids + [first];
        left := left - {first};
      }
      rows := Each(rows, ids, r => Claimed(r, t, now, lease));
      atClaim, calls, written := rows, [], [];
    }

    // One statement; it writes every row it names, or fails.
    method Do(o: Round, c: Call) returns (ok: bool)
      requires Follows(o)
      modifies this`rows, this`calls, this`written
      ensures Follows(o) && calls == old(calls) + [c] && written == old(written) + [ok]
      ensures ok == o.succeeds(|old(calls)|)
      ensures rows == if ok then Each(old(rows), IdsOf(c), Effect(o, c)) else old(rows)
    {
      ok := o.succeeds(|calls|);
      ReplayedMore(o, atClaim, calls, written, c, ok);
      if ok {
        rows := Each(rows, IdsOf(c), Effect(o, c));
      }
      calls, written := calls + [c], written + [ok];
    }

    method MarkPublished(o: Round, ids: seq<RowId>) returns (ok: bool)
      requires Follows(o)
      modifies this`rows, this`calls, this`written
      ensures Follows(o) && calls == old(calls) + [Call.MarkPublished(ids)] && written == old(written) + [ok]
      ensures ok == o.succeeds(|old(calls)|)
      ensures rows == if ok then Each(old(rows), IdsOf(Call.MarkPublished(ids)), r => Marked(r, o.token)) else old(rows)
      ensures rows.Keys == old(rows).Keys && forall i | i in rows ::
                if ok && i in ids && old(rows)[i].claim == Some(o.token) then IsMarked(old(rows)[i], rows[i])
                else rows[i] == old(rows)[i]
    {
      ok := Do(o, Call.MarkPublished(ids));
    }

    method RecordFailure(o: Round, id: RowId, backoff: Time) returns (ok: bool)
      requires Follows(o)
      modifies this`rows, this`calls, this`written
      ensures Follows(o) && calls == old(calls) + [Call.RecordFailure(id, backoff)] && written == old(written) + [ok]
      ensures ok == o.succeeds(|old(calls)|)
      ensures rows == if ok then Each(old(rows), IdsOf(Call.RecordFailure(id, backoff)),
                                      r => Charged(r, o.token, o.now, backoff, o.maxAttempts)) else old(rows)
      ensures rows.Keys == old(rows).Keys && forall i | i in rows ::
                if ok && i == id && old(rows)[i].claim == Some(o.token)
                then IsCharged(old(rows)[i], rows[i], o.now + backoff, o.maxAttempts)
                else rows[i] == old(rows)[i]
    {
      ok := Do(o, Call.RecordFailure(id, backoff));
    }

    method Release(o: Round, ids: seq<RowId>) returns (ok: bool)
      requires Follows(o)
      modifies this`rows, this`calls, this`written
      ensures Follows(o) && calls == old(calls) + [Call.Release(ids)] && written == old(written) + [ok]
      ensures ok == o.succeeds(|old(calls)|)
      ensures rows == if ok then Each(old(rows), IdsOf(Call.Release(ids)), r => Released(r, o.token, o.now))
              else old(rows)
      ensures rows.Keys == old(rows).Keys && forall i | i in rows ::
                if ok && i in ids && old(rows)[i].claim == Some(o.token) then IsReleased(old(rows)[i], rows[i], o.now)
                else rows[i] == old(rows)[i]
    {
      ok := Do(o, Call.Release(ids));
    }
  }

  // ---------------------------------------------------------------- one round of a relay

  // What happens to one claimed event: the caller's context before and after, and the broker's answer.
  datatype Answer = Sent | Unavailable | Rejected

  datatype Turn = Turn(cancelledBefore: bool, answer: Answer, cancelledAfter: bool)

  datatype Exit = Finished | Outage | Cancelled

  // The round stops at an event: the caller cancelled, or the broker was down.
  predicate Stops(o: Turn) {
    o.cancelledBefore || o.answer == Unavailable || (o.answer == Rejected && o.cancelledAfter)
  }

  // What the declarative reading says: events before the stop are sent or charged, the rest released.
  function StopAt(turns: seq<Turn>): (k: nat)
    ensures k <= |turns| && (forall i | 0 <= i < k :: !Stops(turns[i])) && (k < |turns| ==> Stops(turns[k]))
  {
    if turns == [] || Stops(turns[0]) then 0 else 1 + StopAt(turns[1..])
  }

  function SentOf(ids: seq<RowId>, turns: seq<Turn>): seq<RowId>
    requires |turns| == |ids|
  {
    if ids == [] then []
    else SentOf(ids[..|ids|-1], turns[..|ids|-1]) + if turns[|ids|-1].answer == Sent then [ids[|ids|-1]] else []
  }

  function ChargedOf(ids: seq<RowId>, turns: seq<Turn>): seq<RowId>
    requires |turns| == |ids|
  {
    if ids == [] then []
    else ChargedOf(ids[..|ids|-1], turns[..|ids|-1]) + if turns[|ids|-1].answer == Rejected then [ids[|ids|-1]] else []
  }

  function Charges(ids: seq<RowId>, backoff: RowId -> Time): seq<Call> {
    seq(|ids|, i requires 0 <= i < |ids| => Call.RecordFailure(ids[i], backoff(ids[i])))
  }

  lemma ChargesSnoc(ids: seq<RowId>, i: RowId, backoff: RowId -> Time)
    ensures Charges(ids + [i], backoff) == Charges(ids, backoff) + [Call.RecordFailure(i, backoff(i))]
  {}

  function IfAny(ids: seq<RowId>, c: Call): seq<Call> {
    if ids == [] then [] else [c]
  }

  // Settles a cancelled round: what reached the broker is marked, the rest is given back, and each is
  // tried even if the other fails.
  method SettleOnCancel(table: Table, o: Round, publishedIds: seq<RowId>, unprocessed: seq<RowId>)
    requires table.Follows(o)
    modifies table
    ensures table.atClaim == old(table.atClaim) && table.Follows(o)
    ensures table.calls == old(table.calls) + IfAny(publishedIds, Call.MarkPublished(publishedIds))
            + IfAny(unprocessed, Call.Release(unprocessed))
  {
    if |publishedIds| > 0 {
      var _ := table.MarkPublished(o, publishedIds);
    }
    if |unprocessed| > 0 {
      var _ := table.Release(o, unprocessed);
    }
  }

  // The same while the broker is down, before backing off.
  method SettleOnOutage(table: Table, o: Round, publishedIds: seq<RowId>, unprocessed: seq<RowId>)
    requires table.Follows(o) && unprocessed != []
    modifies table
    ensures table.atClaim == old(table.atClaim) && table.Follows(o)
    ensures table.calls == old(table.calls) + IfAny(publishedIds, Call.MarkPublished(publishedIds))
            + IfAny(unprocessed, Call.Release(unprocessed))
  {
    if |publishedIds| > 0 {
      var _ := table.MarkPublished(o, publishedIds);
    }
    var _ := table.Release(o, unprocessed);
  }

  // The events sent and the charges made by the first i turns.
  function Sending(events: seq<RowId>, turns: seq<Turn>, i: nat): seq<RowId>
    requires i <= |turns| == |events|
  {
    SentOf(events[..i], turns[..i])
  }

  function Charging(events: seq<RowId>, turns: seq<Turn>, backoff: RowId -> Time, i: nat): seq<Call>
    requires i <= |turns| == |events|
  {
    Charges(ChargedOf(events[..i], turns[..i]), backoff)
  }

  // Each charge, then what was sent is marked and the rest released.
  function Statements(charged: seq<RowId>, sent: seq<RowId>, rest: seq<RowId>, backoff: RowId -> Time): seq<Call> {
    Charges(charged, backoff) + IfAny(sent, Call.MarkPublished(sent)) + IfAny(rest, Call.Release(rest))
  }

  // The statements of a round, in order.
  function RoundCalls(events: seq<RowId>, turns: seq<Turn>, backoff: RowId -> Time): seq<Call>
    requires |turns| == |events|
  {
    var k := StopAt(turns);
    Statements(ChargedOf(events[..k], turns[..k]), Sending(events, turns, k), events[k..], backoff)
  }

  // Finished unless the round stopped; an outage is reported only when the caller was not cancelled before.
  function ExitOf(turns: seq<Turn>): Exit {
    var k := StopAt(turns);
    if k == |turns| then Finished
    else if !turns[k].cancelledBefore && turns[k].answer == Unavailable then Outage
    else Cancelled
  }

  // Every exit path, whichever writes fail: each claimed event is in exactly one of the sent ones, passed
  // to MarkPublished; the rejected ones, each charged once; and the suffix from the stop on, released. An
  // outage or a cancellation never charges an event. The rows are what the statements that succeeded made
  // of them.
  method RunOnce(table: Table, o: Round, events: seq<RowId>, turns: seq<Turn>, backoff: RowId -> Time)
    returns (exit: Exit, publishedIds: seq<RowId>)
    requires |turns| == |events| && table.Follows(o)
    modifies table
    ensures table.atClaim == old(table.atClaim) && table.Follows(o)
    ensures table.calls == old(table.calls) + RoundCalls(events, turns, backoff)
    ensures publishedIds == Sending(events, turns, StopAt(turns))
    ensures exit == ExitOf(turns)
  {
    ghost var was := table.calls;
    publishedIds := [];
    for i := 0 to |events|
      invariant i <= StopAt(turns)
      invariant publishedIds == Sending(events, turns, i)
      invariant table.calls == was + Charging(events, turns, backoff, i)
      invariant table.atClaim == old(table.atClaim) && table.Follows(o)
    {
      StopsHere(turns, i);
      if turns[i].cancelledBefore {
        RoundEnds(was, events, turns, backoff, i);
        SettleOnCancel(table, o, publishedIds, events[i..]);
        return Cancelled, publishedIds;
      }
      match turns[i].answer {
        case Sent =>
          OneMoreTurn(was, events, turns, backoff, i);
          publishedIds := publishedIds + [events[i]];
        case Unavailable =>
          RoundEnds(was, events, turns, backoff, i);
          SettleOnOutage(table, o, publishedIds, events[i..]);
          return Outage, publishedIds;
        case Rejected =>
          if turns[i].cancelledAfter {
            RoundEnds(was, events, turns, backoff, i);
            SettleOnCancel(table, o, publishedIds, events[i..]);
            return Cancelled, publishedIds;
          }
          OneMoreTurn(was, events, turns, backoff, i);
          var _ := table.RecordFailure(o, events[i], backoff(events[i]));
      }
    }
    RoundEnds(was, events, turns, backoff, |events|);
    if |publishedIds| > 0 {
      var _ := table.MarkPublished(o, publishedIds);
    }
    exit := Finished;
  }

  lemma OneMoreTurn(was: seq<Call>, events: seq<RowId>, turns: seq<Turn>, backoff: RowId -> Time, i: nat)
    requires i < |turns| == |events|
    ensures Sending(events, turns, i + 1) ==
              Sending(events, turns, i) + if turns[i].answer == Sent then [events[i]] else []
    ensures was + Charging(events, turns, backoff, i + 1) ==
              if turns[i].answer == Rejected
              then was + Charging(events, turns, backoff, i) + [Call.RecordFailure(events[i], backoff(events[i]))]
              else was + Charging(events, turns, backoff, i)
  {
    assert events[..i+1][..i] == events[..i] && turns[..i+1][..i] == turns[..i];
    ChargesSnoc(ChargedOf(events[..i], turns[..i]), events[i], backoff);
  }

  lemma RoundEnds(was: seq<Call>, events: seq<RowId>, turns: seq<Turn>, backoff: RowId -> Time, k: nat)
    requires k == StopAt(turns) && |turns| == |events|
    ensures var sent := Sending(events, turns, k);
            was + RoundCalls(events, turns, backoff) ==
              was + Charging(events, turns, backoff, k) + IfAny(sent, Call.MarkPublished(sent))
              + IfAny(events[k..], Call.Release(events[k..]))
  {}

  lemma StopsHere(turns: seq<Turn>, i: nat)
    requires i < |turns| && i <= StopAt(turns)
    ensures Stops(turns[i]) <==> i == StopAt(turns)
  {}

  // ---------------------------------------------------------------- what the disposition means

  lemma LastDisposed(events: seq<RowId>, turns: seq<Turn>)
    requires |turns| == |events| > 0 && !Stops(turns[|turns|-1])
    ensures var n, m := |events| - 1, multiset{events[|events|-1]};
            if turns[n].answer == Sent then
              multiset(SentOf(events, turns)) == multiset(SentOf(events[..n], turns[..n])) + m
              && ChargedOf(events, turns) == ChargedOf(events[..n], turns[..n])
            else
              multiset(ChargedOf(events, turns)) == multiset(ChargedOf(events[..n], turns[..n])) + m
              && SentOf(events, turns) == SentOf(events[..n], turns[..n])
  {}

  lemma LastOf(events: seq<RowId>)
    requires events != []
    ensures multiset(events) == multiset(events[..|events|-1]) + multiset{events[|events|-1]}
  {
    assert events == events[..|events|-1] + [events[|events|-1]];
  }

  // Each claimed event is disposed of exactly once.
  lemma {:induction false} Disposed(events: seq<RowId>, turns: seq<Turn>)
    requires |turns| == |events| && forall i | 0 <= i < |turns| :: !Stops(turns[i])
    ensures multiset(SentOf(events, turns)) + multiset(ChargedOf(events, turns)) == multiset(events)
  {
    if events != [] {
      Disposed(events[..|events|-1], turns[..|events|-1]);
      LastOf(events);
      LastDisposed(events, turns);
    }
  }

  lemma SplitCounts(events: seq<RowId>, k: nat)
    requires k <= |events|
    ensures multiset(events[..k]) + multiset(events[k..]) == multiset(events)
  {
    assert events == events[..k] + events[k..];
  }

  lemma DisposedOnce(events: seq<RowId>, turns: seq<Turn>)
    requires |turns| == |events|
    ensures var k := StopAt(turns);
            multiset(SentOf(events[..k], turns[..k])) + multiset(ChargedOf(events[..k], turns[..k]))
              + multiset(events[k..])
            == multiset(events)
  {
    var k := StopAt(turns);
    Disposed(events[..k], turns[..k]);
    SplitCounts(events, k);
  }

  // An event is charged only for an answer of its own that was no outage, in a round not cancelled there.
  lemma {:induction false} ChargedFor(events: seq<RowId>, turns: seq<Turn>, id: RowId)
    requires |turns| == |events| && id in ChargedOf(events, turns) && forall i | 0 <= i < |turns| :: !Stops(turns[i])
    ensures exists i :: 0 <= i < |events| && events[i] == id && turns[i].answer == Rejected
                        && !turns[i].cancelledBefore && !turns[i].cancelledAfter
  {
    var n := |events| - 1;
    if id in ChargedOf(events[..n], turns[..n]) {
      ChargedFor(events[..n], turns[..n], id);
      var i :| 0 <= i < n && events[..n][i] == id && turns[..n][i].answer == Rejected && !turns[..n][i].cancelledBefore
               && !turns[..n][i].cancelledAfter;
      assert events[i] == id && turns[i] == turns[..n][i];
    } else {
      assert events[n] == id && turns[n].answer == Rejected && !Stops(turns[n]);
    }
  }

  // ---------------------------------------------------------------- what a round leaves of a row

  // One row through the statements.
  function RowThrough(o: Round, r: Row, id: RowId, calls: seq<Call>, written: seq<bool>): Row
    requires |written| == |calls|
  {
    if calls == [] then r
    else
      var n := |calls| - 1;
      var before := RowThrough(o, r, id, calls[..n], written[..n]);
      if written[n] && id in IdsOf(calls[n]) then Effect(o, calls[n])(before) else before
  }

  lemma {:induction false} ReplayedRow(o: Round, rows: map<RowId, Row>, calls: seq<Call>, written: seq<bool>, id: RowId)
    requires |written| == |calls| && id in rows
    ensures id in Replayed(o, rows, calls, written)
    ensures Replayed(o, rows, calls, written)[id] == RowThrough(o, rows[id], id, calls, written)
  {
    if calls != [] {
      var n := |calls| - 1;
      ReplayedRow(o, rows, calls[..n], written[..n], id);
    }
  }

  // Only one statement names the row.
  lemma {:induction false} NamedOnce(o: Round, r: Row, id: RowId, calls: seq<Call>, written: seq<bool>, m: int)
    requires |written| == |calls| && forall j | 0 <= j < |calls| && j != m :: id !in IdsOf(calls[j])
    ensures RowThrough(o, r, id, calls, written) ==
              if 0 <= m < |calls| && written[m] && id in IdsOf(calls[m]) then Effect(o, calls[m])(r) else r
  {
    if calls != [] {
      NamedOnce(o, r, id, calls[..|calls|-1], written[..|calls|-1], m);
    }
  }

  // Whatever a round does with the rows, the row of a claimed event is changed by the one statement that
  // names it, or, if that write failed, by none.
  lemma RoundRow(o: Round, rows: map<RowId, Row>, calls: seq<Call>, written: seq<bool>, id: RowId, m: nat)
    requires |written| == |calls| && id in rows && m < |calls| && id in IdsOf(calls[m])
    requires forall j | 0 <= j < |calls| && j != m :: id !in IdsOf(calls[j])
    ensures id in Replayed(o, rows, calls, written)
    ensures Replayed(o, rows, calls, written)[id] == if written[m] then Effect(o, calls[m])(rows[id]) else rows[id]
  {
    ReplayedRow(o, rows, calls, written, id);
    NamedOnce(o, rows[id], id, calls, written, m);
  }

  lemma {:induction false} OnceInDistinct(ids: seq<RowId>, i: nat)
    requires Distinct(ids) && i < |ids|
    ensures multiset(ids)[ids[i]] == 1
  {
    var n := |ids| - 1;
    LastOf(ids);
    if i < n {
      OnceInDistinct(ids[..n], i);
    } else {
      assert ids[n] !in ids[..n];
    }
  }

  lemma TwoPlaces(ids: seq<RowId>, i: nat, j: nat)
    requires i < j < |ids| && ids[i] == ids[j]
    ensures multiset(ids)[ids[i]] >= 2
  {
    assert ids == ids[..j] + ids[j..];
    assert ids[..j][i] in multiset(ids[..j]) && ids[j..][0] in multiset(ids[j..]);
  }

  lemma {:induction false} AnsweredIn(events: seq<RowId>, turns: seq<Turn>, j: nat)
    requires |turns| == |events| && j < |events|
    ensures turns[j].answer == Sent ==> events[j] in SentOf(events, turns)
    ensures turns[j].answer == Rejected ==> events[j] in ChargedOf(events, turns)
  {
    if j < |events| - 1 {
      AnsweredIn(events[..|events|-1], turns[..|events|-1], j);
    }
  }

  // The statement that names event j of a round.
  function Disposal(events: seq<RowId>, turns: seq<Turn>, backoff: RowId -> Time, j: nat): Call
    requires |turns| == |events| && j < |events|
  {
    var k := StopAt(turns);
    if k <= j then Call.Release(events[k..])
    else if turns[j].answer == Sent then Call.MarkPublished(Sending(events, turns, k))
    else Call.RecordFailure(events[j], backoff(events[j]))
  }

  // No other statement of the round names it.
  predicate OnlyAt(calls: seq<Call>, m: int, id: RowId) {
    forall i | 0 <= i < |calls| && i != m :: id !in IdsOf(calls[i])
  }

  // How often the parts of a round name an event.
  lemma InOnePart(events: seq<RowId>, turns: seq<Turn>, j: nat)
    requires |turns| == |events| && j < |events| && Distinct(events)
    ensures var k := StopAt(turns);
            var sent, charged, rest :=
              multiset(SentOf(events[..k], turns[..k])), multiset(ChargedOf(events[..k], turns[..k])),
                multiset(events[k..]);
            if k <= j then sent[events[j]] == 0 && charged[events[j]] == 0 && rest[events[j]] == 1
            else if turns[j].answer == Sent
            then sent[events[j]] == 1 && charged[events[j]] == 0 && rest[events[j]] == 0
            else sent[events[j]] == 0 && charged[events[j]] == 1 && rest[events[j]] == 0
  {
    var k := StopAt(turns);
    DisposedOnce(events, turns);
    OnceInDistinct(events, j);
    if k <= j {
      assert events[k..][j - k] == events[j];
    } else {
      AnsweredIn(events[..k], turns[..k], j);
      assert !Stops(turns[j]);
    }
  }

  lemma NamedInRest(charged: seq<RowId>, sent: seq<RowId>, rest: seq<RowId>, backoff: RowId -> Time, id: RowId)
    requires id !in charged && id !in sent && id in rest
    ensures var calls, m := Statements(charged, sent, rest, backoff),
                               |charged| + |IfAny(sent, Call.MarkPublished(sent))|;
            m < |calls| && calls[m] == Call.Release(rest) && id in IdsOf(calls[m]) && OnlyAt(calls, m, id)
  {}

  lemma NamedInSent(charged: seq<RowId>, sent: seq<RowId>, rest: seq<RowId>, backoff: RowId -> Time, id: RowId)
    requires id !in charged && id in sent && id !in rest
    ensures var calls, m := Statements(charged, sent, rest, backoff), |charged|;
            m < |calls| && calls[m] == Call.MarkPublished(sent) && id in IdsOf(calls[m]) && OnlyAt(calls, m, id)
  {}

  lemma NamedInCharged(charged: seq<RowId>, sent: seq<RowId>, rest: seq<RowId>, backoff: RowId -> Time, m: nat)
    requires m < |charged| && charged[m] !in sent && charged[m] !in rest && multiset(charged)[charged[m]] == 1
    ensures var calls := Statements(charged, sent, rest, backoff);
            && m < |calls| && calls[m] == Call.RecordFailure(charged[m], backoff(charged[m]))
            && charged[m] in IdsOf(calls[m]) && OnlyAt(calls, m, charged[m])
  {
    forall i | 0 <= i < |charged| && i != m ensures charged[i] != charged[m] {
      if charged[i] == charged[m] {
        TwoPlaces(charged, if i < m then i else m, if i < m then m else i);
      }
    }
  }

  lemma NamedAt(events: seq<RowId>, turns: seq<Turn>, backoff: RowId -> Time, j: nat) returns (m: nat)
    requires |turns| == |events| && j < |events| && Distinct(events)
    ensures var calls := RoundCalls(events, turns, backoff);
            && m < |calls| && calls[m] == Disposal(events, turns, backoff, j)
            && events[j] in IdsOf(calls[m]) && OnlyAt(calls, m, events[j])
  {
    var k := StopAt(turns);
    InOnePart(events, turns, j);
    var sent, charged, rest := Sending(events, turns, k), ChargedOf(events[..k], turns[..k]), events[k..];
    var calls := Statements(charged, sent, rest, backoff);
    if k <= j {
      m := |charged| + |IfAny(sent, Call.MarkPublished(sent))|;
      NamedInRest(charged, sent, rest, backoff, events[j]);
    } else if turns[j].answer == Sent {
      m := |charged|;
      NamedInSent(charged, sent, rest, backoff, events[j]);
    } else {
      m :| 0 <= m < |charged| && charged[m] == events[j];
      NamedInCharged(charged, sent, rest, backoff, m);
    }
  }

  // A round touches no row but those of its events.
  lemma OthersStay(o: Round, rows: map<RowId, Row>, events: seq<RowId>, turns: seq<Turn>, backoff: RowId -> Time,
                   written: seq<bool>, id: RowId)
    requires |turns| == |events| && id !in events && id in rows
    requires |written| == |RoundCalls(events, turns, backoff)|
    ensures var after := Replayed(o, rows, RoundCalls(events, turns, backoff), written);
            id in after && after[id] == rows[id]
  {
    var k, calls := StopAt(turns), RoundCalls(events, turns, backoff);
    var sent, charged := Sending(events, turns, k), ChargedOf(events[..k], turns[..k]);
    DisposedOnce(events, turns);
    assert id !in multiset(events);
    assert id !in multiset(sent) && id !in multiset(charged) && id !in multiset(events[k..]);
    NamesNone(charged, sent, events[k..], backoff, id);
    ReplayedRow(o, rows, calls, written, id);
    NamedOnce(o, rows[id], id, calls, written, -1);
  }

  lemma NamesNone(charged: seq<RowId>, sent: seq<RowId>, rest: seq<RowId>, backoff: RowId -> Time, id: RowId)
    requires id !in charged && id !in sent && id !in rest
    ensures OnlyAt(Statements(charged, sent, rest, backoff), -1, id)
  {}

  // What a round makes of the events it claimed. One statement names the event; if it failed, or the relay
  // no longer holds the row, the row stays as it is. Otherwise an event the broker took is processed, a
  // rejected one is charged one attempt and waits or has failed, and one from the stop on is given back
  // uncharged.
  lemma RoundLeaves(o: Round, rows: map<RowId, Row>, events: seq<RowId>, turns: seq<Turn>, backoff: RowId -> Time,
                    written: seq<bool>, j: nat) returns (m: nat)
    requires |turns| == |events| && j < |events| && Distinct(events) && events[j] in rows
    requires |written| == |RoundCalls(events, turns, backoff)|
    ensures var calls := RoundCalls(events, turns, backoff);
            && m < |calls| && calls[m] == Disposal(events, turns, backoff, j) && OnlyAt(calls, m, events[j])
            && events[j] in Replayed(o, rows, calls, written)
            && var r, q := rows[events[j]], Replayed(o, rows, calls, written)[events[j]];
               if !written[m] || r.claim != Some(o.token) then q == r
               else if StopAt(turns) <= j then IsReleased(r, q, o.now)
               else if turns[j].answer == Sent then IsMarked(r, q)
               else IsCharged(r, q, o.now + backoff(events[j]), o.maxAttempts)
  {
    m := NamedAt(events, turns, backoff, j);
    RoundRow(o, rows, RoundCalls(events, turns, backoff), written, events[j], m);
    WritesMean(rows[events[j]], o.token, o.now, backoff(events[j]), o.maxAttempts);
  }
}
