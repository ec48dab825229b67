// The page loop of internal/application/product/process_run.go, run by one worker over the row and the
// product tables, with faults decided from outside.
module RunLoop {
  import opened Prelude
  import opened Budget
  import opened Batch
  import opened ProductStore
  import opened Marks
  import opened RunRow
  import opened RunProtocol

  // What happens to one attempt at a page's transaction.
  datatype Fault =
    | Fine
    | Conflict              // identity, version or deadlock conflict: rolled back and retried
    | Broken                // any other error: rolled back
    | AnswerLost            // committed, but the client sees an error
    | TakenOver(rival: Token)  // the lease had run out and another worker holds the run

  datatype Outcome =
    | Finished(row: Row)
    | Refused               // the claim was not granted
    | LeaseLost
    | FailedRun
    | Released              // the caller cancelled
    | Unconfirmed           // completing the run answered with an error

  datatype PageResult = PageDone | PageLeaseLost | PageError

  // A page transaction decides and writes what it should: RunTurn does. The loop relies on nothing else.
  ghost predicate Sound(each: TurnRunner) {
    forall s, turn, next | Consistent(s, next) ::
      var p := each(s, turn, next);
      p.Some? && Consistent(p.value.store, p.value.next)
      && p.value.metrics.added + p.value.metrics.moved + p.value.metrics.kept == |turn.page|
  }

  lemma RunTurnIsSound()
    ensures Sound(RunTurn)
  {
    forall s, turn: Turn, next | Consistent(s, next)
      ensures var p := RunTurn(s, turn, next);
              p.Some? && Consistent(p.value.store, p.value.next)
              && p.value.metrics.added + p.value.metrics.moved + p.value.metrics.kept == |turn.page|
    {
      PageCounted(s, turn.page, turn.now, next);
    }
  }

  // The run's row and the product tables, and what a page does to the tables.
  class Processing {
    const each: TurnRunner
    var row: Row
    var store: Store
    var next: Id

    constructor (row: Row, store: Store, next: Id)
      ensures this.row == row && this.store == store && this.next == next && each == RunTurn && Sound(each)
    {
      this.each, this.row, this.store, this.next := RunTurn, row, store, next;
      RunTurnIsSound();
    }

    // The invariant of the state machine, for what this worker sees.
    ghost predicate At(rs: seq<Raw>, k: nat)
      reads this
    {
      Sound(each) && Consistent(store, next) && RowOk(row) && AtPosition(rs, row, k)
    }

    ghost function State(): (Store, Id, Row)
      reads this
    {
      (store, next, row)
    }

    // One transaction: the page's products and events, then the guarded counters; all or nothing.
    method Attempt(t: Token, page: seq<Raw>, now: Time, duration: Time) returns (updated: Option<Row>)
      requires page != [] && Consistent(store, next) && Sound(each)
      modifies this
      ensures var p := each(old(store), TurnOf(Committed(page, now)), old(next));
              && p.Some? && updated == RowAfter(old(row), t, page, p.value.metrics, now, duration)
              && State() == if updated.None? then old(State()) else (p.value.store, p.value.next, updated.value)
    {
      var p := each(store, TurnOf(Committed(page, now)), next).value;
      updated := RowAfter(row, t, page, p.metrics, now, duration);
      if updated.Some? {
        row, store, next := updated.value, p.store, p.next;
      }
    }
  }

  function RowAfter(row: Row, t: Token, page: seq<Raw>, m: Metrics, now: Time, duration: Time): Option<Row>
    requires page != []
  {
    UpdateProgress(row, t, page[|page|-1].id, PageCounts(|page|, m.added, m.moved, m.kept, FailedIn(page)), now,
                   duration)
  }

  // The page at k is taken: the tables and counters moved by it.
  ghost predicate PageTakenBy(each: TurnRunner, rs: seq<Raw>, k: nat, c: Committed, before: (Store, Id, Row),
                              after: (Store, Id, Row)) {
    && k + |c.page| <= |rs| && c.page == rs[k..k + |c.page|]
    && var p := each(before.0, TurnOf(c), before.1);
       && p.Some? && p.value.store == after.0 && p.value.next == after.1
       && RowMetrics(after.2) == AddMetrics(RowMetrics(before.2), p.value.metrics)
  }

  // What decides a page: the first attempt, or the second when the first met a conflict.
  function Decisive(faults: seq<Fault>): Fault
    requires |faults| == 2
  {
    if faults[0] == Conflict then faults[1] else faults[0]
  }

  // At most two attempts; only conflicts are retried.
  method ProcessPageWithRetry(run: Processing, rs: seq<Raw>, ghost k: nat, t: Token, page: seq<Raw>,
                              budget: ErrorBudget,
                              faults: seq<Fault>, now: Time, duration: Time)
                                returns (result: PageResult, ghost committed: bool)
    requires |faults| == 2 && run.At(rs, k) && page != [] && page <= rs[k..]
    requires run.row.status == Running && Holds(run.row, t)
    requires forall i | 0 <= i < 2 && faults[i].TakenOver? :: faults[i].rival != t
    modifies run
    ensures run.At(rs, if committed then k + |page| else k)
    ensures committed <==> Decisive(faults) == Fine || Decisive(faults) == AnswerLost
    ensures result == PageDone <==>
              Decisive(faults) == Fine && WithinBudget(budget, run.row.seen, run.row.failed)
    ensures result == PageLeaseLost <==> Decisive(faults).TakenOver?
    ensures result == PageDone || result == PageError ==> run.row.status == Running && Holds(run.row, t)
    ensures result == PageDone ==> run.row.cursor == Some(page[|page|-1].id)
    ensures result == PageLeaseLost ==> !committed && !Holds(run.row, t)
    ensures committed ==> PageTakenBy(run.each, rs, k, Committed(page, now), old(run.State()), run.State())
    ensures !committed ==>
              run.store == old(run.store) && run.next == old(run.next) && SameCounters(run.row, old(run.row))
  {
    committed := false;
    for attempt := 0 to 2
      invariant !committed && run.State() == old(run.State())
      invariant forall i | 0 <= i < attempt :: faults[i] == Conflict
    {
      if faults[attempt] == Conflict {
        continue;
      }
      if faults[attempt] == Broken {
        return PageError, false;
      }
      if faults[attempt].TakenOver? {
        run.row := Claimed(run.row, faults[attempt].rival, now, duration);
      } else {
        ghost var m := run.each(run.store, TurnOf(Committed(page, now)), run.next).value.metrics;
        CommitPosition(rs, run.row, k, page, t, m, now, duration);
        TakeMore(rs, k, page);
      }
      var updated := run.Attempt(t, page, now, duration);
      if updated.None? {
        return PageLeaseLost, false;
      }
      committed := true;
      if faults[attempt] == AnswerLost || !WithinBudget(budget, updated.value.seen, updated.value.failed) {
        return PageError, true;
      }
      return PageDone, true;
    }
    return PageError, false;
  }

  // ---------------------------------------------------------------- the loop

  // What is decided from outside at each turn of the loop: whether the context is cancelled before it, or
  // by the time an error is looked at, and whether another worker has taken the run over by then.
  datatype Turnout = Turnout(cancelled: bool, listFails: bool, faults: seq<Fault>, now: Time, duration: Time,
                             cancelledLate: bool, takenLate: Option<Token>)

  predicate Fair(o: Turnout, t: Token) {
    |o.faults| == 2 && o.takenLate != Some(t) && forall i | 0 <= i < 2 && o.faults[i].TakenOver? ::
      o.faults[i].rival != t
  }

  // Nothing is wrong with a turn.
  predicate Smooth(o: Turnout) {
    !o.cancelled && !o.listFails && |o.faults| == 2 && Decisive(o.faults) == Fine
  }

  ghost predicate SmoothUntil(outside: nat -> Turnout, n: nat) {
    forall i: nat | i < n :: Smooth(outside(i))
  }

  lemma SmoothOnce(outside: nat -> Turnout, n: nat)
    requires SmoothUntil(outside, n) && Smooth(outside(n))
    ensures SmoothUntil(outside, n + 1)
  {}

  // The turn's listing or page failed, other than by losing the lease.
  predicate Errs(o: Turnout) {
    o.listFails || (|o.faults| == 2 && Decisive(o.faults) != Fine && !Decisive(o.faults).TakenOver?)
  }

  // The turn lost the lease.
  predicate Loses(o: Turnout) {
    !o.listFails && |o.faults| == 2 && Decisive(o.faults).TakenOver?
  }

  // What the last turn must have met for the run to end as it did; `over` says that the pages committed left
  // the run over its budget.
  predicate Explains(o: Turnout, over: bool, outcome: Outcome) {
    match outcome
    case Released => o.cancelled || (o.cancelledLate && (Errs(o) || Loses(o) || over))
    case FailedRun => !o.cancelled && !o.cancelledLate && (Errs(o) || over)
    case LeaseLost => !o.cancelled && !o.cancelledLate && Loses(o)
    case Finished(_) => !o.cancelled && !o.listFails
    case _ => true
  }

  // The tables and counters moved by exactly these pages.
  ghost predicate MovedBy(each: TurnRunner, pages: seq<Committed>, before: (Store, Id, Row), after: (Store, Id, Row)) {
    var p := RunTurns(each, before.0, TurnsOf(pages), before.1);
    p.Some? && p.value.store == after.0 && p.value.next == after.1
    && RowMetrics(after.2) == AddMetrics(RowMetrics(before.2), p.value.metrics)
  }

  lemma MovedByNone(each: TurnRunner, before: (Store, Id, Row), after: (Store, Id, Row))
    requires before.0 == after.0 && before.1 == after.1 && RowMetrics(before.2) == RowMetrics(after.2)
    ensures MovedBy(each, [], before, after)
  {
    assert TurnsOf([]) == [];
  }

  lemma MovedByMore(each: TurnRunner, pages: seq<Committed>, c: Committed, before: (Store, Id, Row),
                    mid: (Store, Id, Row), after: (Store, Id, Row), rs: seq<Raw>, k: nat)
    requires MovedBy(each, pages, before, mid) && PageTakenBy(each, rs, k, c, mid, after)
    ensures MovedBy(each, pages + [c], before, after)
  {
    TurnsSnoc(pages, c);
    var p := RunTurns(each, before.0, TurnsOf(pages), before.1).value;
    RunsMore(each, (before.0, before.1), TurnsOf(pages), TurnOf(c), p, each(mid.0, TurnOf(c), mid.1).value);
  }

  // What the loop has done when it stands at k.
  ghost predicate Done(each: TurnRunner, rs: seq<Raw>, start: nat, k: nat, pages: seq<Committed>,
                       before: (Store, Id, Row), after: (Store, Id, Row)) {
    && start <= k <= |rs| && Taken(pages) == rs[start..k] && MovedBy(each, pages, before, after)
  }

  lemma Adjoining(rs: seq<Raw>, i: nat, j: nat, k: nat)
    requires i <= j <= k <= |rs|
    ensures rs[i..j] + rs[j..k] == rs[i..k]
  {}

  lemma DoneMore(each: TurnRunner, rs: seq<Raw>, start: nat, k: nat, pages: seq<Committed>, c: Committed,
                 before: (Store, Id, Row), mid: (Store, Id, Row), after: (Store, Id, Row))
    requires Done(each, rs, start, k, pages, before, mid) && PageTakenBy(each, rs, k, c, mid, after)
    ensures Done(each, rs, start, k + |c.page|, pages + [c], before, after)
  {
    MovedByMore(each, pages, c, before, mid, after, rs, k);
    TurnsSnoc(pages, c);
    Adjoining(rs, start, k, k + |c.page|);
  }

  lemma DoneSame(each: TurnRunner, rs: seq<Raw>, start: nat, k: nat, pages: seq<Committed>, before: (Store, Id, Row),
                 mid: (Store, Id, Row), after: (Store, Id, Row))
    requires Done(each, rs, start, k, pages, before, mid)
    requires mid.0 == after.0 && mid.1 == after.1 && SameCounters(after.2, mid.2)
    ensures Done(each, rs, start, k, pages, before, after)
  {}

  lemma NothingDone(each: TurnRunner, rs: seq<Raw>, start: nat, before: (Store, Id, Row), after: (Store, Id, Row))
    requires start <= |rs| && before.0 == after.0 && before.1 == after.1 && SameCounters(after.2, before.2)
    ensures Done(each, rs, start, start, [], before, after)
  {
    MovedByNone(each, before, after);
  }

  // How the statement that ends a run answers: heard, or an error, whether or not it wrote.
  datatype Answer = Heard | Erred(written: bool)

  // What that statement makes of the row.
  function SettledRow(outcome: Outcome, r: Row, t: Token): Row {
    match outcome
    case FailedRun => OrSame(Fail(r, Some(t)), r)
    case Released => OrSame(Release(r, t), r)
    case Finished(_) => OrSame(Complete(r, t), r)
    case _ => r
  }

  // The end of a run: failed, released or completed, if the worker still holds it; otherwise the row is
  // left to whoever does. The statement may fail, and its answer may be lost.
  method Settle(run: Processing, ghost rs: seq<Raw>, ghost k: nat, outcome: Outcome, t: Token, lostAtEnd: bool,
                answer: Answer, now: Time, duration: Time)
    returns (settled: Outcome)
    requires run.At(rs, k) && outcome != Refused && outcome != Unconfirmed
    modifies run
    ensures run.store == old(run.store) && run.next == old(run.next) && SameCounters(run.row, old(run.row))
            && run.At(rs, k)
    ensures var met := if outcome.Finished? && lostAtEnd then Claimed(old(run.row), t + 1, now, duration)
                       else old(run.row);
            && run.row == (if answer == Erred(false) then met else SettledRow(outcome, met, t))
            && settled == if !outcome.Finished? then outcome
                          else if answer.Erred? then Unconfirmed
                          else if Holds(met, t) then Finished(run.row) else LeaseLost
    ensures Holds(old(run.row), t) && answer != Erred(false) ==>
      && (settled.Finished? ==> run.row.status == RunRow.Completed)
      && (settled == FailedRun ==> run.row.status == Failed)
      && (settled == Released ==> run.row.status == Pending)
    ensures !Holds(old(run.row), t) && !outcome.Finished? ==> run.row == old(run.row)
    ensures settled == LeaseLost ==> outcome == LeaseLost || !Holds(run.row, t)
  {
    settled := outcome;
    if outcome.Finished? && lostAtEnd {
      run.row := Claimed(run.row, t + 1, now, duration);
    }
    var written := Holds(run.row, t);
    if answer != Erred(false) {
      run.row := SettledRow(outcome, run.row, t);
    }
    if outcome.Finished? {
      if answer.Erred? {
        settled := Unconfirmed;
      } else if written {
        settled := Finished(run.row);
      } else {
        settled := LeaseLost;
      }
    }
  }

  // Claims the run, takes its pages one after the other from the stored cursor, and completes it; on an
  // error fails it, on cancellation, even one that comes with an error, releases it. Terminates: each
  // turn takes at least one record.
  method ProcessRun(run: Processing, rs: seq<Raw>, ghost start: nat, t: Token, batchSize: nat, budget: ErrorBudget,
                    outside: nat -> Turnout, lostAtEnd: bool, answer: Answer, now: Time, duration: Time)
    returns (outcome: Outcome, ghost k: nat, ghost pages: seq<Committed>, ghost last: nat)
    requires ByIdentifier(rs) && run.At(rs, start) && batchSize > 0
    requires forall i :: Fair(outside(i), t)
    modifies run
    ensures Done(run.each, rs, start, k, pages, old(run.State()), run.State())
    ensures run.At(rs, k)
    // the turns before the last went well, and only what the last one met explains the outcome
    ensures SmoothUntil(outside, last)
    ensures outcome != Refused && outcome != Unconfirmed && !(outcome == LeaseLost && lostAtEnd) ==>
              Explains(outside(last), OverBudget(rs, start, k, budget), outcome)
    // a run that is granted and meets nothing finishes
    ensures (outcome != Refused && (forall i: nat :: Smooth(outside(i))) && answer == Heard && !lostAtEnd
             && forall j | start < j <= |rs| :: WithinBudget(budget, j, FailedIn(rs[..j]))) ==>
              outcome.Finished?
    ensures outcome == Refused <==> !Free(old(run.row), now) && !Holds(old(run.row), t)
    ensures outcome == Refused ==> run.row == old(run.row)
    ensures outcome.Finished? ==> k == |rs| && run.row.status == RunRow.Completed && outcome.row == run.row
    ensures outcome.Finished? && pages != [] ==> WithinBudget(budget, run.row.seen, run.row.failed)
    ensures outcome == Unconfirmed ==> k == |rs| && answer.Erred?
    ensures outcome == FailedRun && answer != Erred(false) ==> run.row.status == Failed || !Holds(run.row, t)
    ensures outcome == Released && answer != Erred(false) ==> run.row.status == Pending || !Holds(run.row, t)
    ensures outcome == Unconfirmed && answer.written ==> run.row.status == RunRow.Completed || !Holds(run.row, t)
    ensures outcome == LeaseLost ==> !Holds(run.row, t)
  {
    k, pages, last := start, [], 0;
    ghost var before := run.State();
    NothingDone(run.each, rs, start, before, before);
    var claimed := ClaimSpecific(run.row, t, now, duration);
    if claimed.None? {
      outcome := Refused;
      return;
    }
    run.row := claimed.value;
    DoneSame(run.each, rs, start, k, pages, before, before, run.State());
    outcome, k, pages, last := PageLoop(run, rs, start, t, batchSize, budget, outside, before);
    ghost var after := run.State();
    outcome := Settle(run, rs, k, outcome, t, lostAtEnd, answer, now, duration);
    DoneSame(run.each, rs, start, k, pages, before, after, run.State());
  }

  // What the pages committed from start to k leave is over the budget.
  predicate OverBudget(rs: seq<Raw>, start: nat, k: nat, budget: ErrorBudget) {
    start < k <= |rs| && !WithinBudget(budget, k, FailedIn(rs[..k]))
  }

  lemma ListedAt(rs: seq<Raw>, k: nat, n: nat)
    requires ByIdentifier(rs) && k <= |rs| && n > 0
    ensures var page := ListAfter(rs, CursorAt(rs, k), n);
            page <= rs[k..] && (page == [] <==> k == |rs|)
  {
    PassedAt(rs, k);
    assert rs[k..Min(k + n, |rs|)] <= rs[k..];
  }

  // A page, and what is done once it is over.
  method TakePage(run: Processing, rs: seq<Raw>, ghost start: nat, ghost k: nat, ghost pages: seq<Committed>, t: Token,
                  page: seq<Raw>, budget: ErrorBudget, o: Turnout, ghost before: (Store, Id, Row))
    returns (result: PageResult, ghost k': nat, ghost pages': seq<Committed>)
    requires Fair(o, t) && run.At(rs, k) && page != [] && page <= rs[k..] && run.row.status == Running
             && Holds(run.row, t) && !o.listFails
    requires Done(run.each, rs, start, k, pages, before, run.State())
    modifies run
    ensures run.At(rs, k') && Done(run.each, rs, start, k', pages', before, run.State())
    ensures result == PageDone ==>
      && k' == k + |page| && WithinBudget(budget, run.row.seen, run.row.failed)
      && run.row.cursor == Some(page[|page|-1].id)
    ensures result == PageLeaseLost <==> !Holds(run.row, t)
    ensures result != PageLeaseLost ==> run.row.status == Running
    ensures k' == if Decisive(o.faults) == Fine || Decisive(o.faults) == AnswerLost then k + |page| else k
    ensures result == PageDone ==> Decisive(o.faults) == Fine
    ensures result == PageLeaseLost ==> Loses(o)
    ensures result == PageError ==> Errs(o) || OverBudget(rs, start, k', budget)
  {
    ghost var mid := run.State();
    ghost var committed;
    result, committed := ProcessPageWithRetry(run, rs, k, t, page, budget, o.faults, o.now, o.duration);
    if committed {
      DoneMore(run.each, rs, start, k, pages, Committed(page, o.now), before, mid, run.State());
      k', pages' := k + |page|, pages + [Committed(page, o.now)];
    } else {
      DoneSame(run.each, rs, start, k, pages, before, mid, run.State());
      k', pages' := k, pages;
    }
  }

  // What is done about an error: a cancelled run is released whatever the error was.
  method Stopped(run: Processing, ghost rs: seq<Raw>, ghost start: nat, ghost k: nat, ghost pages: seq<Committed>,
                 t: Token, o: Turnout, because: Outcome, ghost over: bool, ghost before: (Store, Id, Row))
    returns (outcome: Outcome)
    requires Fair(o, t) && run.At(rs, k) && Done(run.each, rs, start, k, pages, before, run.State())
    requires !o.cancelled && (because == FailedRun || (because == LeaseLost && !Holds(run.row, t) && Loses(o)))
    requires because == FailedRun ==> Errs(o) || over
    modifies run
    ensures run.At(rs, k) && Done(run.each, rs, start, k, pages, before, run.State())
    ensures outcome == (if o.cancelledLate then Released else because) && Explains(o, over, outcome)
    ensures outcome == LeaseLost ==> !Holds(run.row, t)
    ensures run.row == match o.takenLate {
                         case None => old(run.row)
                         case Some(u) => Claimed(old(run.row), u, o.now, o.duration)
                       }
  {
    ghost var mid := run.State();
    if o.takenLate.Some? {
      run.row := Claimed(run.row, o.takenLate.value, o.now, o.duration);
    }
    DoneSame(run.each, rs, start, k, pages, before, mid, run.State());
    outcome := because;
    if o.cancelledLate {
      outcome := Released;
    }
  }

  // The loop proper. It leaves the row held by the worker, unless another has taken it over.
  method PageLoop(run: Processing, rs: seq<Raw>, ghost start: nat, t: Token, batchSize: nat, budget: ErrorBudget,
                  outside: nat -> Turnout, ghost before: (Store, Id, Row))
    returns (outcome: Outcome, ghost k: nat, ghost pages: seq<Committed>, ghost last: nat)
    requires ByIdentifier(rs) && run.At(rs, start) && batchSize > 0 && run.row.status == Running && Holds(run.row, t)
    requires forall i :: Fair(outside(i), t)
    requires Done(run.each, rs, start, start, [], before, run.State())
    modifies run
    ensures Done(run.each, rs, start, k, pages, before, run.State()) && run.At(rs, k)
    ensures outcome != Refused && outcome != Unconfirmed
    ensures outcome == LeaseLost ==> !Holds(run.row, t)
    ensures outcome.Finished? ==>
              Holds(run.row, t) && k == |rs| && (pages != [] ==> WithinBudget(budget, run.row.seen, run.row.failed))
    ensures SmoothUntil(outside, last)
    ensures Explains(outside(last), OverBudget(rs, start, k, budget), outcome)
  {
    k, pages, last := start, [], 0;
    var cursor := run.row.cursor;
    var i: nat := 0;
    while true
      invariant k <= |rs| && Done(run.each, rs, start, k, pages, before, run.State())
      invariant run.At(rs, k) && cursor == run.row.cursor && run.row.status == Running && Holds(run.row, t)
      invariant pages != [] ==> WithinBudget(budget, run.row.seen, run.row.failed)
      invariant last == i && start <= k && SmoothUntil(outside, i)
      decreases |rs| - k
    {
      var o := outside(i);
      if o.cancelled {
        outcome := Released;
        return;
      }
      if o.listFails {
        outcome := Stopped(run, rs, start, k, pages, t, o, FailedRun, false, before);
        return;
      }
      ListedAt(rs, k, batchSize);
      var records := ListAfter(rs, cursor, batchSize);
      if |records| == 0 {
        break;
      }
      var result;
      result, k, pages := TakePage(run, rs, start, k, pages, t, records, budget, o, before);
      if result != PageDone {
        outcome := Stopped(run, rs, start, k, pages, t, o, if result == PageLeaseLost then LeaseLost else FailedRun,
                           OverBudget(rs, start, k, budget), before);
        return;
      }
      cursor := Some(records[|records|-1].id);
      SmoothOnce(outside, i);
      i := i + 1;
      last := i;
    }
    outcome := Finished(run.row);
  }
}
