// The leased processing of one run by any number of workers, as a state machine over its statements.
// Whatever the interleaving, each record is processed exactly once since the last reset.
module RunProtocol {
  import opened Prelude
  import opened Budget
  import opened Transition
  import opened Batch
  import opened ProductStore
  import opened BatchRefinement
  import opened PageRefinement
  import opened Marks
  import opened RunRow
  import Conservation

  // A raw record of the run; None when its payload does not normalize.
  datatype Raw = Raw(id: Id, normalized: Option<Record>)

  function ValidOf(rs: seq<Raw>): seq<Record> {
    if rs == [] then []
    else ValidOf(rs[..|rs|-1]) + if rs[|rs|-1].normalized.Some? then [rs[|rs|-1].normalized.value] else []
  }

  function FailedIn(rs: seq<Raw>): nat {
    if rs == [] then 0 else FailedIn(rs[..|rs|-1]) + if rs[|rs|-1].normalized.None? then 1 else 0
  }

  // Keyset order: a run's records by identifier.
  ghost predicate ByIdentifier(rs: seq<Raw>) {
    forall i, j | 0 <= i < j < |rs| :: rs[i].id < rs[j].id
  }

  // How many records the cursor has passed.
  function Passed(rs: seq<Raw>, cursor: Option<Id>): (k: nat)
    ensures k <= |rs|
  {
    if rs == [] || cursor.None? || rs[|rs|-1].id <= cursor.value then (if cursor.None? then 0 else |rs|)
    else Passed(rs[..|rs|-1], cursor)
  }

  // WHERE id > cursor ORDER BY id LIMIT n.
  function ListAfter(rs: seq<Raw>, cursor: Option<Id>, n: nat): seq<Raw> {
    var k := Passed(rs, cursor);
    rs[k..Min(k + n, |rs|)]
  }

  function CursorAt(rs: seq<Raw>, k: nat): Option<Id>
    requires k <= |rs|
  {
    if k == 0 then None else Some(rs[k-1].id)
  }

  lemma {:induction false} PassedAt(rs: seq<Raw>, k: nat)
    requires ByIdentifier(rs) && k <= |rs|
    ensures Passed(rs, CursorAt(rs, k)) == k
  {
    if 0 < k < |rs| {
      var init := rs[..|rs|-1];
      assert CursorAt(init, k) == CursorAt(rs, k);
      PassedAt(init, k);
    }
  }

  lemma {:induction false} PassedSplits(rs: seq<Raw>, cursor: Option<Id>)
    requires ByIdentifier(rs)
    ensures forall i | 0 <= i < |rs| :: i < Passed(rs, cursor) <==> cursor.Some? && rs[i].id <= cursor.value
  {
    if rs != [] && cursor.Some? {
      var last := |rs| - 1;
      if rs[last].id > cursor.value { PassedSplits(rs[..last], cursor); }
      forall i | 0 <= i < |rs| ensures i < Passed(rs, cursor) <==> rs[i].id <= cursor.value {
        if i < last {
          assert rs[..last][i] == rs[i];
          assert rs[i].id < rs[last].id;
        }
      }
    } else {
      assert Passed(rs, cursor) == 0;
    }
  }

  // A listing holds the first n records after the cursor, in identifier order, and skips none.
  lemma ListedAreAfter(rs: seq<Raw>, cursor: Option<Id>, n: nat)
    requires ByIdentifier(rs)
    ensures var page, k := ListAfter(rs, cursor, n), Passed(rs, cursor);
            && page == rs[k..k + |page|] && ByIdentifier(page)
            && (forall i | 0 <= i < k :: cursor.Some? && rs[i].id <= cursor.value)
            && (forall i | k <= i < |rs| :: cursor.Some? ==> cursor.value < rs[i].id)
            && |page| == Min(n, |rs| - k)
  {
    PassedSplits(rs, cursor);
  }

  // ---------------------------------------------------------------- workers

  // Where a worker is in ProcessRun. `cursor` is its own copy; `own` counts the pages it committed.
  datatype Phase =
    | Called                                             // ClaimNext gave it the run
    | Looping(cursor: Option<Id>, own: nat)
    | HasPage(cursor: Option<Id>, page: seq<Raw>, own: nat)
    | Draining(own: nat)                                 // an empty page was read
    | Stopping                                           // an error: it will fail or release the run
    | Done

  datatype Committed = Committed(page: seq<Raw>, now: Time)

  // A page written to the product tables, by this run or by another.
  datatype Entry = Own(page: Committed) | Other(turn: Turn)

  // The run's row, the product tables, the workers that ever had a token; and, since the last reset,
  // the tables it started from, the pages committed, and all that was written to the tables.
  datatype System = System(
    row: Row, store: Store, next: Id, workers: map<Token, Phase>,
    base: (Store, Id), pages: seq<Committed>, log: seq<Entry>)

  datatype Action =
    | Next(t: Token, now: Time, duration: Time)
    | Start(t: Token, now: Time, duration: Time)
    | Reset(now: Time)
    | Read(t: Token, n: nat)
    // one page transaction that passes or fails its guard; `told` is false when the answer is lost
    | CommitPage(t: Token, now: Time, duration: Time, told: bool)
    | AbortPage(t: Token, retry: bool)
    | Finish(t: Token)
    | GiveUp(t: Token)
    | FailRun(t: Token)
    | FailAny
    | Crash(t: Token)
    | Elsewhere(turn: Turn)                              // another run's page

  function InPhase(y: System, t: Token, p: Phase): System {
    y.(workers := y.workers[t := p])
  }

  function Initial(store: Store, next: Id, createdAt: Time): System {
    System(NewRow(createdAt), store, next, map[], (store, next), [], [])
  }

  // The page's transaction: products, events and counters together, guarded by token and status.
  function CommitStep(y: System, t: Token, now: Time, duration: Time, told: bool, budget: ErrorBudget): System
    requires t in y.workers && y.workers[t].HasPage? && y.workers[t].page != []
  {
    var page := y.workers[t].page;
    var last := page[|page|-1].id;
    var p := RunPage(y.store, ValidOf(page), now, y.next);
    if p.None? then InPhase(y, t, Stopping)
    else
      var m := p.value.metrics;
      var counts := PageCounts(|page|, m.added, m.moved, m.kept, FailedIn(page));
      var row := UpdateProgress(y.row, t, last, counts, now, duration);
      if row.None? then InPhase(y, t, Done)
      else
        var phase := if told && WithinBudget(budget, row.value.seen, row.value.failed)
                     then Looping(Some(last), y.workers[t].own + 1) else Stopping;
        System(row.value, p.value.store, p.value.next, y.workers[t := phase], y.base, y.pages + [Committed(page, now)],
               y.log + [Own(Committed(page, now))])
  }

  // Another run's page: this run's row is none of its business.
  function OtherStep(y: System, turn: Turn): System {
    match RunTurn(y.store, turn, y.next)
    case Some(p) => y.(store := p.store, next := p.next, log := y.log + [Other(turn)])
    case None => y
  }

  function Step(rs: seq<Raw>, budget: ErrorBudget, y: System, a: Action): System {
    match a
    case Next(t, now, duration) =>
      (match ClaimNext(y.row, t, now, duration)
       case Some(row) => if t in y.workers then y else InPhase(y.(row := row), t, Called)
       case None => y)
    case Start(t, now, duration) =>
      if t in y.workers && !y.workers[t].Called? then y
      else
        (match ClaimSpecific(y.row, t, now, duration)
         case Some(row) => InPhase(y.(row := row), t, Looping(row.cursor, 0))
         case None => InPhase(y, t, Done))
    case Reset(now) =>
      (match ResetFromStart(y.row, now)
       case Some(row) => y.(row := row, base := (y.store, y.next), pages := [], log := [])
       case None => y)
    case Read(t, n) =>
      if t !in y.workers || !y.workers[t].Looping? || n == 0 then y
      else
        var page := ListAfter(rs, y.workers[t].cursor, n);
        InPhase(y, t, if page == [] then Draining(y.workers[t].own)
                      else HasPage(y.workers[t].cursor, page, y.workers[t].own))
    case CommitPage(t, now, duration, told) =>
      if t !in y.workers || !y.workers[t].HasPage? || y.workers[t].page == [] then y
      else CommitStep(y, t, now, duration, told, budget)
    case AbortPage(t, retry) =>
      if t !in y.workers || !y.workers[t].HasPage? || retry then y else InPhase(y, t, Stopping)
    case Finish(t) =>
      if t !in y.workers || !y.workers[t].Draining? then y
      else InPhase(y.(row := OrSame(Complete(y.row, t), y.row)), t, Done)
    case GiveUp(t) =>
      if t !in y.workers || y.workers[t].Called? || y.workers[t].Done? then y
      else InPhase(y.(row := OrSame(Release(y.row, t), y.row)), t, Done)
    case FailRun(t) =>
      if t !in y.workers || y.workers[t].Called? || y.workers[t].Done? then y
      else InPhase(y.(row := OrSame(Fail(y.row, Some(t)), y.row)), t, Done)
    case FailAny => y.(row := OrSame(Fail(y.row, None), y.row))
    case Crash(t) => if t in y.workers then InPhase(y, t, Done) else y
    case Elsewhere(turn) => OtherStep(y, turn)
  }

  type Stepper = (System, Action) -> System

  function RunSteps(step: Stepper, start: System, actions: seq<Action>): System {
    if actions == [] then start
    else step(RunSteps(step, start, actions[..|actions|-1]), actions[|actions|-1])
  }

  function StepOf(rs: seq<Raw>, budget: ErrorBudget): Stepper {
    (y, a) => Step(rs, budget, y, a)
  }

  function Run(rs: seq<Raw>, budget: ErrorBudget, start: System, actions: seq<Action>): System {
    RunSteps(StepOf(rs, budget), start, actions)
  }

  // ---------------------------------------------------------------- what every step keeps

  function Taken(pages: seq<Committed>): seq<Raw> {
    if pages == [] then [] else Taken(pages[..|pages|-1]) + pages[|pages|-1].page
  }

  function TurnOf(c: Committed): Turn {
    Turn(ValidOf(c.page), c.now)
  }

  function TurnsOf(pages: seq<Committed>): seq<Turn> {
    seq(|pages|, i requires 0 <= i < |pages| => TurnOf(pages[i]))
  }

  function RowMetrics(r: Row): Metrics {
    Metrics(r.added, r.moved, r.kept)
  }

  // The cursor stands after the records of the committed pages, and the counters count exactly them.
  ghost predicate AtPosition(rs: seq<Raw>, r: Row, k: nat) {
    && k <= |rs| && r.cursor == CursorAt(rs, k) && r.seen == k
    && r.failed == FailedIn(rs[..k]) && r.added + r.moved + r.kept == |ValidOf(rs[..k])|
  }

  // A worker that holds the run stands where the row does.
  ghost predicate InStep(rs: seq<Raw>, r: Row, k: nat, p: Phase, budget: ErrorBudget)
    requires k <= |rs|
  {
    match p
    case Looping(cursor, own) => cursor == r.cursor && (own > 0 ==> WithinBudget(budget, r.seen, r.failed))
    case HasPage(cursor, page, own) =>
      cursor == r.cursor && page != [] && page <= rs[k..] && (own > 0 ==> WithinBudget(budget, r.seen, r.failed))
    case Draining(own) => k == |rs| && (own > 0 ==> WithinBudget(budget, r.seen, r.failed))
    case _ => true
  }

  function OwnPages(log: seq<Entry>): seq<Committed> {
    if log == [] then []
    else OwnPages(log[..|log|-1]) + if log[|log|-1].Own? then [log[|log|-1].page] else []
  }

  function TurnOfEntry(e: Entry): Turn {
    match e
    case Own(c) => TurnOf(c)
    case Other(turn) => turn
  }

  // All pages one after the other; the metrics count the run's own.
  function RunLog(run: TurnRunner, s: Store, log: seq<Entry>, next: Id): Option<Progress> {
    if log == [] then Some(Progress(s, NoMetrics, next))
    else LogMore(run, RunLog(run, s, log[..|log|-1], next), log[|log|-1])
  }

  function LogMore(run: TurnRunner, p: Option<Progress>, e: Entry): Option<Progress> {
    if p.None? then None
    else Counted(p.value.metrics, Uncounted(run(p.value.store, TurnOfEntry(e), p.value.next), e))
  }

  function Uncounted(p: Option<Progress>, e: Entry): Option<Progress> {
    if p.None? || e.Own? then p else Some(p.value.(metrics := NoMetrics))
  }

  lemma LogSnoc(run: TurnRunner, s: Store, log: seq<Entry>, e: Entry, next: Id)
    ensures RunLog(run, s, log + [e], next) == LogMore(run, RunLog(run, s, log, next), e)
    ensures OwnPages(log + [e]) == OwnPages(log) + if e.Own? then [e.page] else []
  {
    assert (log + [e])[..|log|] == log;
  }

  lemma OtherUncounted(run: TurnRunner, q: Progress, turn: Turn, p: Progress)
    requires run(q.store, turn, q.next) == Some(p)
    ensures LogMore(run, Some(q), Other(turn)) == Some(Progress(p.store, q.metrics, p.next))
  {}

  // The tables are what all committed pages, one after the other, make of where they started from, and the
  // row counts what the run's own did.
  ghost predicate Progressed(run: TurnRunner, y: System) {
    && OwnPages(y.log) == y.pages
    && RunLog(run, y.base.0, y.log, y.base.1) == Some(Progress(y.store, RowMetrics(y.row), y.next))
  }

  // The data: what has been taken, counted and written since the last reset.
  ghost predicate DataInv(run: TurnRunner, rs: seq<Raw>, y: System) {
    && Consistent(y.store, y.next) && AtPosition(rs, y.row, |Taken(y.pages)|)
    && Taken(y.pages) == rs[..|Taken(y.pages)|] && Progressed(run, y)
  }

  // The claim: who holds the run, and that the holder knows where it stands.
  ghost predicate ClaimInv(rs: seq<Raw>, budget: ErrorBudget, r: Row, workers: map<Token, Phase>, k: nat) {
    && k <= |rs| && RowOk(r)
    && (r.token.Some? ==> r.token.value in workers && InStep(rs, r, k, workers[r.token.value], budget))
    && (forall t | t in workers && workers[t].HasPage? :: workers[t].page != [])
    && (r.status == RunRow.Completed ==> k == |rs|)
  }

  ghost predicate Inv(rs: seq<Raw>, budget: ErrorBudget, y: System) {
    DataInv(RunTurn, rs, y) && ClaimInv(rs, budget, y.row, y.workers, |Taken(y.pages)|)
  }

  lemma InitialHolds(rs: seq<Raw>, budget: ErrorBudget, store: Store, next: Id, createdAt: Time)
    requires Consistent(store, next)
    ensures Inv(rs, budget, Initial(store, next, createdAt))
  {
    assert rs[..0] == [];
    assert TurnsOf([]) == [];
  }

  predicate SameCounters(a: Row, b: Row) {
    a.cursor == b.cursor && a.seen == b.seen && a.failed == b.failed && RowMetrics(a) == RowMetrics(b)
  }

  lemma SameData(run: TurnRunner, rs: seq<Raw>, y: System, z: System)
    requires DataInv(run, rs, y) && SameCounters(z.row, y.row)
    requires z.store == y.store && z.next == y.next && z.base == y.base && z.pages == y.pages && z.log == y.log
    ensures DataInv(run, rs, z)
  {}

  // A step that writes no page: worker t changes phase and the row may change hands.
  lemma Moves(rs: seq<Raw>, budget: ErrorBudget, y: System, row: Row, t: Token, p: Phase)
    requires Inv(rs, budget, y) && RowOk(row) && SameCounters(row, y.row)
    requires row.token.Some? ==> row.token == y.row.token || Holds(row, t)
    requires Holds(row, t) ==> InStep(rs, row, |Taken(y.pages)|, p, budget)
    requires p.HasPage? ==> p.page != []
    requires row.status == RunRow.Completed ==> |Taken(y.pages)| == |rs|
    ensures Inv(rs, budget, InPhase(y.(row := row), t, p))
  {
    SameData(RunTurn, rs, y, InPhase(y.(row := row), t, p));
  }

  lemma ReadHolds(rs: seq<Raw>, budget: ErrorBudget, y: System, t: Token, n: nat)
    requires ByIdentifier(rs) && Inv(rs, budget, y) && t in y.workers && y.workers[t].Looping? && n > 0
    ensures var page, own := ListAfter(rs, y.workers[t].cursor, n), y.workers[t].own;
            Inv(rs, budget, InPhase(y, t, if page == [] then Draining(own)
                                    else HasPage(y.workers[t].cursor, page, own)))
  {
    var k, page, own := |Taken(y.pages)|, ListAfter(rs, y.workers[t].cursor, n), y.workers[t].own;
    if Holds(y.row, t) {
      PassedAt(rs, k);
      assert page == rs[k..Min(k + n, |rs|)] && page <= rs[k..];
    }
    Moves(rs, budget, y, y.row, t, if page == [] then Draining(own) else HasPage(y.workers[t].cursor, page, own));
    assert y.(row := y.row) == y;
  }

  lemma ClaimHolds(rs: seq<Raw>, budget: ErrorBudget, y: System, t: Token, now: Time, duration: Time, p: Phase)
    requires Inv(rs, budget, y) && (p == Called || p == Looping(y.row.cursor, 0))
    ensures Inv(rs, budget, InPhase(y.(row := Claimed(y.row, t, now, duration)), t, p))
  {
    Moves(rs, budget, y, Claimed(y.row, t, now, duration), t, p);
  }

  // Leaving gives the run up if it was still held; finishing does so with no record left.
  lemma LeaveHolds(rs: seq<Raw>, budget: ErrorBudget, y: System, t: Token, after: Option<Row>, p: Phase)
    requires Inv(rs, budget, y) && (p == Stopping || p == Done)
    requires after.Some? ==> after.value == Unclaimed(y.row, after.value.status) && after.value.status != Running
    requires after.Some? && after.value.status == RunRow.Completed ==> |Taken(y.pages)| == |rs|
    ensures Inv(rs, budget, InPhase(y.(row := OrSame(after, y.row)), t, p))
  {
    Moves(rs, budget, y, OrSame(after, y.row), t, p);
  }

  lemma StayHolds(rs: seq<Raw>, budget: ErrorBudget, y: System, t: Token, p: Phase)
    requires Inv(rs, budget, y) && (p == Stopping || p == Done)
    ensures Inv(rs, budget, InPhase(y, t, p))
  {
    LeaveHolds(rs, budget, y, t, None, p);
    assert y.(row := OrSame(None, y.row)) == y;
  }

  lemma FailAnyHolds(rs: seq<Raw>, budget: ErrorBudget, y: System)
    requires Inv(rs, budget, y)
    ensures Inv(rs, budget, y.(row := Unclaimed(y.row, Failed)))
  {
    SameData(RunTurn, rs, y, y.(row := Unclaimed(y.row, Failed)));
  }

  lemma ResetHolds(rs: seq<Raw>, budget: ErrorBudget, y: System)
    requires Inv(rs, budget, y)
    ensures Inv(rs, budget, y.(row := NewRow(y.row.createdAt), base := (y.store, y.next), pages := [], log := []))
  {
    assert rs[..0] == [];
    assert TurnsOf([]) == [];
  }

  // ---------------------------------------------------------------- committing a page

  lemma {:induction false} ValidAppend(a: seq<Raw>, b: seq<Raw>)
    ensures ValidOf(a + b) == ValidOf(a) + ValidOf(b) && FailedIn(a + b) == FailedIn(a) + FailedIn(b)
  {
    if b == [] {
      assert a + b == a;
    } else {
      assert (a + b)[..|a + b|-1] == a + b[..|b|-1];
      ValidAppend(a, b[..|b|-1]);
    }
  }

  lemma {:induction false} ValidOrFailed(rs: seq<Raw>)
    ensures |ValidOf(rs)| + FailedIn(rs) == |rs|
  {
    if rs != [] { ValidOrFailed(rs[..|rs|-1]); }
  }

  lemma TakeMore(rs: seq<Raw>, k: nat, page: seq<Raw>)
    requires k <= |rs| && page <= rs[k..] && page != []
    ensures k + |page| <= |rs| && rs[..k + |page|] == rs[..k] + page
    ensures CursorAt(rs, k + |page|) == Some(page[|page|-1].id)
  {
    assert page == rs[k..][..|page|] == rs[k..k + |page|];
    assert page[|page|-1] == rs[k + |page| - 1];
  }

  // The page's counters count its valid records once each.
  lemma PageCounted(s: Store, page: seq<Record>, now: Time, next: Id)
    requires Consistent(s, next)
    ensures RunPage(s, page, now, next).Some?
    ensures var p := RunPage(s, page, now, next).value;
            Consistent(p.store, p.next) && p.metrics.added + p.metrics.moved + p.metrics.kept == |page|
  {
    PageEqualsRecordsAlone(s, page, now, next);
    Conservation.PageConserves(Snapshots(s, Identities(page)), page, now, next);
  }

  lemma TurnsSnoc(pages: seq<Committed>, c: Committed)
    ensures TurnsOf(pages + [c]) == TurnsOf(pages) + [TurnOf(c)]
    ensures Taken(pages + [c]) == Taken(pages) + c.page
  {
    assert (pages + [c])[..|pages|] == pages;
  }

  lemma RunsMore(run: TurnRunner, base: (Store, Id), turns: seq<Turn>, turn: Turn, p: Progress, q: Progress)
    requires RunTurns(run, base.0, turns, base.1) == Some(p) && run(p.store, turn, p.next) == Some(q)
    ensures RunTurns(run, base.0, turns + [turn], base.1) == Some(q.(metrics := AddMetrics(p.metrics, q.metrics)))
  {
    assert (turns + [turn])[..|turns|] == turns;
  }

  lemma CommitPosition(rs: seq<Raw>, r: Row, k: nat, page: seq<Raw>, t: Token, m: Metrics, now: Time, duration: Time)
    requires AtPosition(rs, r, k) && page <= rs[k..] && page != [] && r.status == Running && Holds(r, t)
    requires m.added + m.moved + m.kept == |ValidOf(page)|
    ensures var counts := PageCounts(|page|, m.added, m.moved, m.kept, FailedIn(page));
            var r' := UpdateProgress(r, t, page[|page|-1].id, counts, now, duration);
            r'.Some? && AtPosition(rs, r'.value, k + |page|) && RowMetrics(r'.value) == AddMetrics(RowMetrics(r), m)
  {
    TakeMore(rs, k, page);
    ValidAppend(rs[..k], page);
  }

  // After the transaction of a holder's page, with the page's outcome p.
  function AfterPage(y: System, page: seq<Raw>, p: Progress, t: Token, now: Time, duration: Time): Option<Row>
    requires page != []
  {
    UpdateProgress(y.row, t, page[|page|-1].id,
                   PageCounts(|page|, p.metrics.added, p.metrics.moved, p.metrics.kept, FailedIn(page)), now, duration)
  }

  lemma PageProgress(run: TurnRunner, y: System, c: Committed, p: Progress, z: System)
    requires Progressed(run, y) && run(y.store, TurnOf(c), y.next) == Some(p)
    requires z.base == y.base && z.pages == y.pages + [c] && z.log == y.log + [Own(c)]
    requires z.store == p.store && z.next == p.next && RowMetrics(z.row) == AddMetrics(RowMetrics(y.row), p.metrics)
    ensures Progressed(run, z)
  {
    LogSnoc(run, y.base.0, y.log, Own(c), y.base.1);
  }

  lemma OtherProgress(run: TurnRunner, y: System, turn: Turn, p: Progress, z: System)
    requires Progressed(run, y) && run(y.store, turn, y.next) == Some(p)
    requires z.base == y.base && z.pages == y.pages && z.log == y.log + [Other(turn)]
    requires z.store == p.store && z.next == p.next && z.row == y.row
    ensures Progressed(run, z)
  {
    LogSnoc(run, y.base.0, y.log, Other(turn), y.base.1);
    OtherUncounted(run, Progress(y.store, RowMetrics(y.row), y.next), turn, p);
  }

  lemma PageTaken(rs: seq<Raw>, y: System, z: System, c: Committed)
    requires |Taken(y.pages)| <= |rs| && Taken(y.pages) == rs[..|Taken(y.pages)|]
    requires c.page != [] && c.page <= rs[|Taken(y.pages)|..] && z.pages == y.pages + [c]
    ensures |Taken(z.pages)| == |Taken(y.pages)| + |c.page| <= |rs| && Taken(z.pages) == rs[..|Taken(z.pages)|]
  {
    TurnsSnoc(y.pages, c);
    TakeMore(rs, |Taken(y.pages)|, c.page);
  }

  lemma PageRow(rs: seq<Raw>, y: System, k: nat, page: seq<Raw>, p: Progress, t: Token, now: Time, duration: Time,
                row: Row)
    requires AtPosition(rs, y.row, k) && page != [] && page <= rs[k..] && y.row.status == Running && Holds(y.row, t)
    requires p.metrics.added + p.metrics.moved + p.metrics.kept == |ValidOf(page)|
    requires AfterPage(y, page, p, t, now, duration) == Some(row)
    ensures AtPosition(rs, row, k + |page|) && RowMetrics(row) == AddMetrics(RowMetrics(y.row), p.metrics)
  {
    CommitPosition(rs, y.row, k, page, t, p.metrics, now, duration);
  }

  lemma PageData(run: TurnRunner, rs: seq<Raw>, y: System, z: System, t: Token, page: seq<Raw>, p: Progress, now: Time,
                 duration: Time)
    requires DataInv(run, rs, y) && page != [] && page <= rs[|Taken(y.pages)|..] && y.row.status == Running
             && Holds(y.row, t)
    requires run(y.store, TurnOf(Committed(page, now)), y.next) == Some(p) && Consistent(p.store, p.next)
    requires p.metrics.added + p.metrics.moved + p.metrics.kept == |ValidOf(page)|
    requires z.base == y.base && z.pages == y.pages + [Committed(page, now)] && z.store == p.store && z.next == p.next
    requires z.log == y.log + [Own(Committed(page, now))] && AfterPage(y, page, p, t, now, duration) == Some(z.row)
    ensures DataInv(run, rs, z) && |Taken(z.pages)| == |Taken(y.pages)| + |page|
  {
    PageTaken(rs, y, z, Committed(page, now));
    PageRow(rs, y, |Taken(y.pages)|, page, p, t, now, duration, z.row);
    PageProgress(run, y, Committed(page, now), p, z);
  }

  // The holder's page.
  lemma HeldPageHolds(rs: seq<Raw>, budget: ErrorBudget, y: System, t: Token, now: Time, duration: Time, told: bool)
    requires Inv(rs, budget, y) && t in y.workers && y.workers[t].HasPage?
    requires y.row.status == Running && Holds(y.row, t)
    ensures Inv(rs, budget, CommitStep(y, t, now, duration, told, budget))
  {
    var page, z := y.workers[t].page, CommitStep(y, t, now, duration, told, budget);
    PageCounted(y.store, ValidOf(page), now, y.next);
    var p := RunPage(y.store, ValidOf(page), now, y.next).value;
    PageData(RunTurn, rs, y, z, t, page, p, now, duration);
    assert ClaimInv(rs, budget, z.row, z.workers, |Taken(z.pages)|);
  }

  lemma CommitHolds(rs: seq<Raw>, budget: ErrorBudget, y: System, t: Token, now: Time, duration: Time, told: bool)
    requires Inv(rs, budget, y) && t in y.workers && y.workers[t].HasPage?
    ensures Inv(rs, budget, CommitStep(y, t, now, duration, told, budget))
  {
    if y.row.status == Running && Holds(y.row, t) {
      HeldPageHolds(rs, budget, y, t, now, duration, told);
    } else {
      StayHolds(rs, budget, y, t, Stopping);
      StayHolds(rs, budget, y, t, Done);
    }
  }

  lemma OtherHolds(rs: seq<Raw>, budget: ErrorBudget, y: System, turn: Turn)
    requires Inv(rs, budget, y)
    ensures Inv(rs, budget, OtherStep(y, turn))
  {
    PageCounted(y.store, turn.page, turn.now, y.next);
    OtherProgress(RunTurn, y, turn, RunTurn(y.store, turn, y.next).value, OtherStep(y, turn));
  }

  lemma PageStepHolds(rs: seq<Raw>, budget: ErrorBudget, y: System, a: Action)
    requires ByIdentifier(rs) && Inv(rs, budget, y) && (a.Read? || a.CommitPage? || a.AbortPage? || a.Elsewhere?)
    ensures Inv(rs, budget, Step(rs, budget, y, a))
  {
    match a
    case Read(t, n) =>
      if t in y.workers && y.workers[t].Looping? && n > 0 { ReadHolds(rs, budget, y, t, n); }
    case CommitPage(t, now, duration, told) =>
      if t in y.workers && y.workers[t].HasPage? { CommitHolds(rs, budget, y, t, now, duration, told); }
    case AbortPage(t, _) => StayHolds(rs, budget, y, t, Stopping);
    case Elsewhere(turn) => OtherHolds(rs, budget, y, turn);
  }

  lemma EndStepHolds(rs: seq<Raw>, budget: ErrorBudget, y: System, a: Action)
    requires Inv(rs, budget, y) && (a.Finish? || a.GiveUp? || a.FailRun? || a.FailAny? || a.Crash?)
    ensures Inv(rs, budget, Step(rs, budget, y, a))
  {
    match a
    case Finish(t) =>
      if t in y.workers && y.workers[t].Draining? { LeaveHolds(rs, budget, y, t, Complete(y.row, t), Done); }
    case GiveUp(t) => LeaveHolds(rs, budget, y, t, Release(y.row, t), Done);
    case FailRun(t) => LeaveHolds(rs, budget, y, t, Fail(y.row, Some(t)), Done);
    case FailAny => FailAnyHolds(rs, budget, y);
    case Crash(t) => StayHolds(rs, budget, y, t, Done);
  }

  lemma StartHolds(rs: seq<Raw>, budget: ErrorBudget, y: System, t: Token, now: Time, duration: Time)
    requires Inv(rs, budget, y)
    ensures Inv(rs, budget, Step(rs, budget, y, Start(t, now, duration)))
  {
    ClaimHolds(rs, budget, y, t, now, duration, Looping(y.row.cursor, 0));
    StayHolds(rs, budget, y, t, Done);
  }

  lemma ClaimStepHolds(rs: seq<Raw>, budget: ErrorBudget, y: System, a: Action)
    requires Inv(rs, budget, y) && (a.Next? || a.Start? || a.Reset?)
    ensures Inv(rs, budget, Step(rs, budget, y, a))
  {
    match a
    case Next(t, now, duration) => ClaimHolds(rs, budget, y, t, now, duration, Called);
    case Start(t, now, duration) => StartHolds(rs, budget, y, t, now, duration);
    case Reset(now) => ResetHolds(rs, budget, y);
  }

  lemma StepHolds(rs: seq<Raw>, budget: ErrorBudget, y: System, a: Action)
    requires ByIdentifier(rs) && Inv(rs, budget, y)
    ensures Inv(rs, budget, Step(rs, budget, y, a))
  {
    if a.Read? || a.CommitPage? || a.AbortPage? || a.Elsewhere? {
      PageStepHolds(rs, budget, y, a);
    } else if a.Finish? || a.GiveUp? || a.FailRun? || a.FailAny? || a.Crash? {
      EndStepHolds(rs, budget, y, a);
    } else {
      ClaimStepHolds(rs, budget, y, a);
    }
  }

  lemma {:induction false} RunHolds(rs: seq<Raw>, budget: ErrorBudget, start: System, actions: seq<Action>)
    requires ByIdentifier(rs) && Inv(rs, budget, start)
    ensures Inv(rs, budget, Run(rs, budget, start, actions))
  {
    if actions != [] {
      RunHolds(rs, budget, start, actions[..|actions|-1]);
      StepHolds(rs, budget, Run(rs, budget, start, actions[..|actions|-1]), actions[|actions|-1]);
    }
  }

  // ---------------------------------------------------------------- the main results

  // A worker in its loop has the cursor the row has.
  predicate KnowsCursor(p: Phase, cursor: Option<Id>) {
    (p.Looping? || p.HasPage?) ==> p.cursor == cursor
  }

  // For every interleaving of claims, takeovers, commits, lost answers, aborts, releases, failures,
  // crashes and resets: the pages committed since the last reset are the run's first k records in order,
  // each once; the cursor and the counters say exactly that; the holder's own cursor is the stored one;
  // and the product tables are what those pages leave, in that order, with the pages of other runs that
  // were written in between.
  lemma ExactlyOnce(rs: seq<Raw>, budget: ErrorBudget, store: Store, next: Id, createdAt: Time, actions: seq<Action>)
    requires ByIdentifier(rs) && Consistent(store, next)
    ensures var y := Run(rs, budget, Initial(store, next, createdAt), actions);
            var k := |Taken(y.pages)|;
            && k <= |rs| && Taken(y.pages) == rs[..k] && y.row.cursor == CursorAt(rs, k)
            && y.row.seen == k == y.row.added + y.row.moved + y.row.kept + y.row.failed
            && y.row.failed == FailedIn(rs[..k])
            && OwnPages(y.log) == y.pages
            && RunLog(RunTurn, y.base.0, y.log, y.base.1) == Some(Progress(y.store, RowMetrics(y.row), y.next))
            && (y.row.status == RunRow.Completed ==> k == |rs|)
            && (y.row.token.Some? ==>
                y.row.token.value in y.workers && KnowsCursor(y.workers[y.row.token.value], y.row.cursor))
  {
    InitialHolds(rs, budget, store, next, createdAt);
    RunHolds(rs, budget, Initial(store, next, createdAt), actions);
    var y := Run(rs, budget, Initial(store, next, createdAt), actions);
    ValidOrFailed(rs[..|Taken(y.pages)|]);
  }

  lemma {:induction false} LogOfOwn(run: TurnRunner, s: Store, log: seq<Entry>, next: Id)
    requires AllOwn(log)
    ensures RunLog(run, s, log, next) == RunTurns(run, s, TurnsOf(OwnPages(log)), next)
  {
    if log == [] {
      assert TurnsOf([]) == [];
    } else {
      var init, c := log[..|log|-1], log[|log|-1].page;
      LogOfOwn(run, s, init, next);
      TurnsSnoc(OwnPages(init), c);
      assert (TurnsOf(OwnPages(init)) + [TurnOf(c)])[..|OwnPages(init)|] == TurnsOf(OwnPages(init));
    }
  }

  // A step of this run adds at most a page of its own to the log.
  lemma StepLog(rs: seq<Raw>, budget: ErrorBudget, y: System, a: Action)
    requires !a.Elsewhere?
    ensures var log := Step(rs, budget, y, a).log;
            log == y.log || log == [] || exists c :: log == y.log + [Own(c)]
  {
    if a.CommitPage? && a.t in y.workers && y.workers[a.t].HasPage? && y.workers[a.t].page != [] {
      CommitLog(y, a.t, a.now, a.duration, a.told, budget);
    }
  }

  lemma CommitLog(y: System, t: Token, now: Time, duration: Time, told: bool, budget: ErrorBudget)
    requires t in y.workers && y.workers[t].HasPage? && y.workers[t].page != []
    ensures var log := CommitStep(y, t, now, duration, told, budget).log;
            log == y.log || exists c :: log == y.log + [Own(c)]
  {
    var c := Committed(y.workers[t].page, now);
    assert y.log + [Own(c)] == y.log + [Own(c)];
  }

  ghost predicate AllOwn(log: seq<Entry>) {
    forall i | 0 <= i < |log| :: log[i].Own?
  }

  lemma {:induction false} NothingElsewhere(rs: seq<Raw>, budget: ErrorBudget, start: System, actions: seq<Action>)
    requires AllOwn(start.log) && forall i | 0 <= i < |actions| :: !actions[i].Elsewhere?
    ensures AllOwn(Run(rs, budget, start, actions).log)
  {
    if actions != [] {
      NothingElsewhere(rs, budget, start, actions[..|actions|-1]);
      StepLog(rs, budget, Run(rs, budget, start, actions[..|actions|-1]), actions[|actions|-1]);
    }
  }

  // If no other run writes, the tables are what the run's own pages, one after the other, leave.
  lemma SoleWriter(rs: seq<Raw>, budget: ErrorBudget, store: Store, next: Id, createdAt: Time, actions: seq<Action>)
    requires ByIdentifier(rs) && Consistent(store, next) && forall i | 0 <= i < |actions| :: !actions[i].Elsewhere?
    ensures var y := Run(rs, budget, Initial(store, next, createdAt), actions);
            RunPages(y.base.0, TurnsOf(y.pages), y.base.1) == Some(Progress(y.store, RowMetrics(y.row), y.next))
  {
    var y := Run(rs, budget, Initial(store, next, createdAt), actions);
    ExactlyOnce(rs, budget, store, next, createdAt, actions);
    NothingElsewhere(rs, budget, Initial(store, next, createdAt), actions);
    LogOfOwn(RunTurn, y.base.0, y.log, y.base.1);
  }

  // While its lease lasts a worker keeps the run: no claim or reset by the clock's reading then changes the row.
  lemma LeaseIsExclusive(rs: seq<Raw>, budget: ErrorBudget, y: System, a: Action, t: Token)
    requires y.row.status == Running && y.row.token == Some(t) && y.row.lease.Some?
    requires a.Next? || a.Start? || a.Reset?
    requires (a.Reset? || a.t != t) && a.now <= y.row.lease.value
    ensures Step(rs, budget, y, a).row == y.row
  {
    LiveLeaseStands(y.row, if a.Reset? then t + 1 else a.t, a.now, if a.Reset? then 0 else a.duration);
  }

  // The next new worker gets a waiting run, and with the token it got starts where the run stands.
  lemma {:induction false} NextStarts(rs: seq<Raw>, budget: ErrorBudget, y: System, t: Token, now: Time,
                                      duration: Time, later: Time)
    requires t !in y.workers && Waits(y.row, now)
    ensures var z := Step(rs, budget, y, Next(t, now, duration));
            && ClaimedBy(y.row, z.row, t, now + duration)
            && var w := Step(rs, budget, z, Start(t, later, duration));
               && ClaimedBy(y.row, w.row, t, later + duration)
               && t in w.workers && w.workers[t] == Looping(y.row.cursor, 0)
  {
    ClaimsMean(y.row, t, now, duration);
    ClaimsMean(Claimed(y.row, t, now, duration), t, later, duration);
  }

  // An aborted page has changed nothing. To be tried again it stays with the worker; otherwise the worker stops
  // and commits it no more.
  lemma {:induction false} AbortedPage(rs: seq<Raw>, budget: ErrorBudget, y: System, t: Token, retry: bool, now: Time,
                                       duration: Time, told: bool)
    requires t in y.workers && y.workers[t].HasPage?
    ensures var z := Step(rs, budget, y, AbortPage(t, retry));
            && z.row == y.row && z.store == y.store && z.next == y.next && z.pages == y.pages
            && (retry ==> z == y)
            && (!retry ==> Step(rs, budget, z, CommitPage(t, now, duration, told)) == z)
  {}

  // A run completed over its error budget was completed by a worker that committed no page itself: a
  // worker that committed one has seen the check pass on the counters the row still has.
  lemma OverBudgetCompletion(rs: seq<Raw>, budget: ErrorBudget, store: Store, next: Id, createdAt: Time,
                             actions: seq<Action>, t: Token)
    requires ByIdentifier(rs) && Consistent(store, next)
    requires var y := Run(rs, budget, Initial(store, next, createdAt), actions);
             && t in y.workers && y.workers[t].Draining? && Holds(y.row, t)
             && !WithinBudget(budget, y.row.seen, y.row.failed)
    ensures Run(rs, budget, Initial(store, next, createdAt), actions).workers[t].own == 0
  {
    InitialHolds(rs, budget, store, next, createdAt);
    RunHolds(rs, budget, Initial(store, next, createdAt), actions);
  }

  lemma OneStep(step: Stepper, y: System, actions: seq<Action>, a: Action)
    ensures RunSteps(step, y, actions + [a]) == step(RunSteps(step, y, actions), a)
  {
    assert (actions + [a])[..|actions|] == actions;
  }

  lemma SevenSteps(step: Stepper, y0: System, y1: System, y2: System, y3: System, y4: System, y5: System, y6: System,
                   y7: System, a: Action, b: Action, c: Action, d: Action, e: Action, f: Action, g: Action)
    requires step(y0, a) == y1 && step(y1, b) == y2 && step(y2, c) == y3 && step(y3, d) == y4
    requires step(y4, e) == y5 && step(y5, f) == y6 && step(y6, g) == y7
    ensures RunSteps(step, y0, [a, b, c, d, e, f, g]) == y7
  {
    assert [] + [a] == [a] && [a] + [b] == [a, b] && [a, b] + [c] == [a, b, c] && [a, b, c] + [d] == [a, b, c, d];
    assert [a, b, c, d] + [e] == [a, b, c, d, e] && [a, b, c, d, e] + [f] == [a, b, c, d, e, f];
    assert [a, b, c, d, e, f] + [g] == [a, b, c, d, e, f, g];
    OneStep(step, y0, [], a);
    OneStep(step, y0, [a], b);
    OneStep(step, y0, [a, b], c);
    OneStep(step, y0, [a, b, c], d);
    OneStep(step, y0, [a, b, c, d], e);
    OneStep(step, y0, [a, b, c, d, e], f);
    OneStep(step, y0, [a, b, c, d, e, f], g);
  }

  lemma {:induction false} CommitStepIs(y: System, t: Token, page: seq<Raw>, now: Time, duration: Time,
                                        budget: ErrorBudget)
    returns (p: Progress, z: System)
    requires t in y.workers && y.workers[t].HasPage? && y.workers[t].page == page != [] && y.row.status == Running
             && Holds(y.row, t)
    requires Consistent(y.store, y.next)
    ensures z == CommitStep(y, t, now, duration, true, budget)
    ensures AfterPage(y, page, p, t, now, duration) == Some(z.row)
    ensures z.workers.Keys == y.workers.Keys && (z.workers[t].Looping? || z.workers[t].Stopping?)
    ensures !WithinBudget(budget, z.row.seen, z.row.failed) ==> z.workers == y.workers[t := Stopping]
  {
    PageCounted(y.store, ValidOf(page), now, y.next);
    p := RunPage(y.store, ValidOf(page), now, y.next).value;
    z := CommitStep(y, t, now, duration, true, budget);
  }

  lemma {:induction false} WholeRow(y: System, rs: seq<Raw>, p: Progress, row: Row)
    requires rs != [] && y.row.status == Running && Holds(y.row, 1) && y.row.seen == y.row.failed == 0
    requires AfterPage(y, rs, p, 1, 1, 10) == Some(row)
    ensures row.status == Running && Holds(row, 1) && row.cursor == CursorAt(rs, |rs|) && row.seen == |rs|
            && row.failed == FailedIn(rs)
  {}

  lemma {:induction false} PageCommitted(budget: ErrorBudget, y: System, rs: seq<Raw>) returns (z: System)
    requires rs != [] && Consistent(y.store, y.next) && !WithinBudget(budget, |rs|, FailedIn(rs))
    requires y.row.status == Running && Holds(y.row, 1) && y.row.seen == y.row.failed == 0
    requires y.workers == map[1 := HasPage(None, rs, 0)]
    ensures z == CommitStep(y, 1, 1, 10, true, budget)
    ensures z.row.status == Running && Holds(z.row, 1) && z.workers == map[1 := Stopping]
    ensures z.row.cursor == CursorAt(rs, |rs|) && z.row.seen == |rs| && z.row.failed == FailedIn(rs)
  {
    var p;
    p, z := CommitStepIs(y, 1, rs, 1, 10, budget);
    WholeRow(y, rs, p, z.row);
  }

  lemma {:induction false} FirstStarted(rs: seq<Raw>, budget: ErrorBudget, y: System)
    requires y.row == NewRow(y.row.createdAt) && y.workers == map[]
    ensures var z := Step(rs, budget, y, Start(1, 0, 10));
            && z.workers == map[1 := Looping(None, 0)] && z.store == y.store && z.next == y.next
            && z.row.status == Running && Holds(z.row, 1) && z.row.seen == z.row.failed == 0
  {}

  lemma {:induction false} WholeRunRead(rs: seq<Raw>, budget: ErrorBudget, y: System)
    requires rs != [] && ByIdentifier(rs) && y.workers == map[1 := Looping(None, 0)]
    ensures Step(rs, budget, y, Read(1, |rs|)) == y.(workers := map[1 := HasPage(None, rs, 0)])
  {
    assert Passed(rs, None) == 0 && ListAfter(rs, None, |rs|) == rs;
  }

  // A worker commits the whole run as its only page and finds the budget exceeded.
  lemma {:induction false} WholeRunCommitted(rs: seq<Raw>, budget: ErrorBudget, y: System)
    requires rs != [] && ByIdentifier(rs) && Consistent(y.store, y.next) && y.row == NewRow(y.row.createdAt)
             && y.workers == map[]
    requires !WithinBudget(budget, |rs|, FailedIn(rs))
    ensures var y1 := Step(rs, budget, y, Start(1, 0, 10));
            var y2 := Step(rs, budget, y1, Read(1, |rs|));
            var y3 := Step(rs, budget, y2, CommitPage(1, 1, 10, true));
            && y3.row.status == Running && Holds(y3.row, 1) && y3.workers == map[1 := Stopping]
            && y3.row.cursor == CursorAt(rs, |rs|) && y3.row.seen == |rs| && y3.row.failed == FailedIn(rs)
  {
    FirstStarted(rs, budget, y);
    var y1 := Step(rs, budget, y, Start(1, 0, 10));
    WholeRunRead(rs, budget, y1);
    var y2 := Step(rs, budget, y1, Read(1, |rs|));
    var y3 := PageCommitted(budget, y2, rs);
    CommitPageIs(rs, budget, y2, 1, 1);
  }

  lemma {:induction false} CommitPageIs(rs: seq<Raw>, budget: ErrorBudget, y: System, t: Token, now: Time)
    requires t in y.workers && y.workers[t].HasPage? && y.workers[t].page != []
    ensures Step(rs, budget, y, CommitPage(t, now, 10, true)) == CommitStep(y, t, now, 10, true, budget)
  {}

  // Another claims the failed run, finds no record left and completes it.
  lemma {:induction false} FailedRunCompleted(rs: seq<Raw>, budget: ErrorBudget, y: System)
    requires ByIdentifier(rs) && y.row.status == Running && Holds(y.row, 1) && y.workers == map[1 := Stopping]
    requires y.row.cursor == CursorAt(rs, |rs|)
    ensures var y4 := Step(rs, budget, y, FailRun(1));
            var y5 := Step(rs, budget, y4, Start(2, 2, 10));
            var y6 := Step(rs, budget, y5, Read(2, 1));
            var y7 := Step(rs, budget, y6, Finish(2));
            y7.row.status == RunRow.Completed && y7.row.seen == y.row.seen && y7.row.failed == y.row.failed
  {
    PassedAt(rs, |rs|);
    assert ListAfter(rs, y.row.cursor, 1) == [];
  }

  // Such completions do happen, for every run whose failures exceed the budget.
  lemma OverBudgetRunCompletes(rs: seq<Raw>, budget: ErrorBudget, store: Store, next: Id) returns (actions: seq<Action>)
    requires rs != [] && ByIdentifier(rs) && Consistent(store, next) && !WithinBudget(budget, |rs|, FailedIn(rs))
    ensures var y := Run(rs, budget, Initial(store, next, 0), actions);
            y.row.status == RunRow.Completed && !WithinBudget(budget, y.row.seen, y.row.failed)
  {
    var y0 := Initial(store, next, 0);
    WholeRunCommitted(rs, budget, y0);
    var y1 := Step(rs, budget, y0, Start(1, 0, 10));
    var y2 := Step(rs, budget, y1, Read(1, |rs|));
    var y3 := Step(rs, budget, y2, CommitPage(1, 1, 10, true));
    FailedRunCompleted(rs, budget, y3);
    var y4 := Step(rs, budget, y3, FailRun(1));
    var y5 := Step(rs, budget, y4, Start(2, 2, 10));
    var y6 := Step(rs, budget, y5, Read(2, 1));
    var y7 := Step(rs, budget, y6, Finish(2));
    actions := [Start(1, 0, 10), Read(1, |rs|), CommitPage(1, 1, 10, true), FailRun(1), Start(2, 2, 10), Read(2, 1),
                Finish(2)];
    SevenSteps(StepOf(rs, budget), y0, y1, y2, y3, y4, y5, y6, y7, Start(1, 0, 10), Read(1, |rs|),
               CommitPage(1, 1, 10, true), FailRun(1), Start(2, 2, 10), Read(2, 1), Finish(2));
  }

  // Some execution ends COMPLETED over the budget exactly when the whole run's failures exceed it.
  lemma OverBudgetCompletesIff(rs: seq<Raw>, budget: ErrorBudget, store: Store, next: Id)
    requires ByIdentifier(rs) && Consistent(store, next)
    ensures (exists actions :: CompletesOverBudget(rs, budget, store, next, actions))
            <==> !WithinBudget(budget, |rs|, FailedIn(rs))
  {
    forall actions | CompletesOverBudget(rs, budget, store, next, actions)
      ensures !WithinBudget(budget, |rs|, FailedIn(rs)) {
      ExactlyOnce(rs, budget, store, next, 0, actions);
      assert rs[..|rs|] == rs;
    }
    if !WithinBudget(budget, |rs|, FailedIn(rs)) {
      var actions := OverBudgetRunCompletes(rs, budget, store, next);
      assert CompletesOverBudget(rs, budget, store, next, actions);
    }
  }

  ghost predicate CompletesOverBudget(rs: seq<Raw>, budget: ErrorBudget, store: Store, next: Id, actions: seq<Action>) {
    var y := Run(rs, budget, Initial(store, next, 0), actions);
    y.row.status == RunRow.Completed && !WithinBudget(budget, y.row.seen, y.row.failed)
  }

  // ---------------------------------------------------------------- no run is stuck

  lemma {:induction false} StepsAppend(step: Stepper, y: System, a: seq<Action>, b: seq<Action>)
    ensures RunSteps(step, y, a + b) == RunSteps(step, RunSteps(step, y, a), b)
  {
    if b == [] {
      assert a + b == a;
    } else {
      assert a + b == a + b[..|b|-1] + [b[|b|-1]];
      StepsAppend(step, y, a, b[..|b|-1]);
      OneStep(step, y, a + b[..|b|-1], b[|b|-1]);
    }
  }

  lemma FourSteps(step: Stepper, y0: System, y1: System, y2: System, y3: System, y4: System, a: Action, b: Action,
                  c: Action, d: Action)
    requires step(y0, a) == y1 && step(y1, b) == y2 && step(y2, c) == y3 && step(y3, d) == y4
    ensures RunSteps(step, y0, [a, b, c]) == y3 && RunSteps(step, y0, [a, b, c, d]) == y4
  {
    assert [] + [a] == [a] && [a] + [b] == [a, b] && [a, b] + [c] == [a, b, c] && [a, b, c] + [d] == [a, b, c, d];
    OneStep(step, y0, [], a);
    OneStep(step, y0, [a], b);
    OneStep(step, y0, [a, b], c);
    OneStep(step, y0, [a, b, c], d);
  }

  // Worker t holds the run at record k and is about to read.
  ghost predicate AtRecord(rs: seq<Raw>, y: System, t: Token, k: nat) {
    && k <= |rs| && y.row.cursor == CursorAt(rs, k) && y.row.status == Running && Holds(y.row, t)
    && t in y.workers && y.workers[t] == Looping(CursorAt(rs, k), 0) && Consistent(y.store, y.next)
  }

  lemma {:induction false} Begins(rs: seq<Raw>, budget: ErrorBudget, y: System, t: Token, k: nat, now: Time)
    returns (z: System)
    requires k <= |rs| && y.row.cursor == CursorAt(rs, k) && RowOk(y.row) && Consistent(y.store, y.next)
    requires t !in y.workers && (y.row.token.None? || y.row.lease.value < now)
    ensures z == Step(rs, budget, y, Start(t, now, 10)) && AtRecord(rs, z, t, k)
    ensures z.workers.Keys == y.workers.Keys + {t}
  {
    WhoMayClaim(y.row, t, now, 10);
    ClaimsMean(y.row, t, now, 10);
    z := Step(rs, budget, y, Start(t, now, 10));
  }

  lemma {:induction false} ReadsOn(rs: seq<Raw>, budget: ErrorBudget, y: System, t: Token, k: nat) returns (z: System)
    requires ByIdentifier(rs) && AtRecord(rs, y, t, k) && k < |rs|
    ensures z == Step(rs, budget, y, Read(t, |rs|)) && z.row == y.row && z.store == y.store && z.next == y.next
    ensures t in z.workers && z.workers[t] == HasPage(CursorAt(rs, k), rs[k..], 0) && z.workers.Keys == y.workers.Keys
  {
    PassedAt(rs, k);
    assert ListAfter(rs, CursorAt(rs, k), |rs|) == rs[k..];
    z := Step(rs, budget, y, Read(t, |rs|));
  }

  lemma {:induction false} CommitsRest(rs: seq<Raw>, budget: ErrorBudget, y: System, t: Token, k: nat, now: Time)
    returns (z: System)
    requires k < |rs| && y.row.status == Running && Holds(y.row, t) && Consistent(y.store, y.next)
    requires t in y.workers && y.workers[t] == HasPage(CursorAt(rs, k), rs[k..], 0)
    ensures z == Step(rs, budget, y, CommitPage(t, now, 10, true)) && Holds(z.row, t)
    ensures z.row.cursor == CursorAt(rs, |rs|) && t in z.workers && (z.workers[t].Looping? || z.workers[t].Stopping?)
    ensures z.workers.Keys == y.workers.Keys
  {
    var p;
    p, z := CommitStepIs(y, t, rs[k..], now, 10, budget);
    LastTaken(y, rs, k, p, t, now, z.row);
    CommitPageIs(rs, budget, y, t, now);
  }

  lemma {:induction false} LastTaken(y: System, rs: seq<Raw>, k: nat, p: Progress, t: Token, now: Time, row: Row)
    requires k < |rs| && AfterPage(y, rs[k..], p, t, now, 10) == Some(row)
    ensures Holds(row, t) && row.cursor == CursorAt(rs, |rs|)
  {
    assert rs[k..][|rs[k..]|-1] == rs[|rs|-1];
  }

  lemma {:induction false} Yields(rs: seq<Raw>, budget: ErrorBudget, y: System, t: Token) returns (z: System)
    requires t in y.workers && (y.workers[t].Looping? || y.workers[t].Stopping?) && Holds(y.row, t)
    ensures z == Step(rs, budget, y, GiveUp(t)) && z.row.cursor == y.row.cursor && z.row.token.None?
    ensures z.workers.Keys == y.workers.Keys
  {
    z := Step(rs, budget, y, GiveUp(t));
  }

  lemma {:induction false} Completes(rs: seq<Raw>, budget: ErrorBudget, y: System, t: Token)
    returns (mid: System, z: System)
    requires ByIdentifier(rs) && AtRecord(rs, y, t, |rs|)
    ensures mid == Step(rs, budget, y, Read(t, 1)) && z == Step(rs, budget, mid, Finish(t))
    ensures z.row.status == RunRow.Completed
  {
    PassedAt(rs, |rs|);
    assert ListAfter(rs, CursorAt(rs, |rs|), 1) == [];
    mid := Step(rs, budget, y, Read(t, 1));
    assert mid.workers[t] == Draining(0) && mid.row == y.row;
    z := Step(rs, budget, mid, Finish(t));
  }

  // A run nobody holds and of which nothing is left is completed by the next worker.
  lemma {:induction false} RestCompleted(rs: seq<Raw>, budget: ErrorBudget, y: System, u: Token, now: Time)
    returns (more: seq<Action>)
    requires ByIdentifier(rs) && y.row.cursor == CursorAt(rs, |rs|) && RowOk(y.row) && Consistent(y.store, y.next)
    requires u !in y.workers && (y.row.token.None? || y.row.lease.value < now)
    ensures RunSteps(StepOf(rs, budget), y, more).row.status == RunRow.Completed
  {
    var y1 := Begins(rs, budget, y, u, |rs|, now);
    var y2, y3 := Completes(rs, budget, y1, u);
    more := [Start(u, now, 10), Read(u, 1), Finish(u)];
    var y4 := StepOf(rs, budget)(y3, FailAny);
    FourSteps(StepOf(rs, budget), y, y1, y2, y3, y4, more[0], more[1], more[2], FailAny);
  }

  // What is left of a run nobody holds is committed by the next worker, who gives the run up.
  lemma {:induction false} RestCommitted(rs: seq<Raw>, budget: ErrorBudget, y: System, t: Token, k: nat, now: Time)
    returns (more: seq<Action>, z: System)
    requires ByIdentifier(rs) && k < |rs| && y.row.cursor == CursorAt(rs, k) && RowOk(y.row)
             && Consistent(y.store, y.next)
    requires t !in y.workers && (y.row.token.None? || y.row.lease.value < now)
    ensures z == RunSteps(StepOf(rs, budget), y, more) && z.row.cursor == CursorAt(rs, |rs|) && z.row.token.None?
    ensures z.workers.Keys == y.workers.Keys + {t}
  {
    var y1 := Begins(rs, budget, y, t, k, now);
    var y2 := ReadsOn(rs, budget, y1, t, k);
    var y3 := CommitsRest(rs, budget, y2, t, k, now);
    z := Yields(rs, budget, y3, t);
    more := [Start(t, now, 10), Read(t, |rs|), CommitPage(t, now, 10, true), GiveUp(t)];
    FourSteps(StepOf(rs, budget), y, y1, y2, y3, z, more[0], more[1], more[2], more[3]);
  }

  // From every reachable state a run that nobody holds, or whose holder's lease is over, can still be taken to
  // its end: two new workers suffice, whatever the run's failures.
  lemma EveryRunCanComplete(rs: seq<Raw>, budget: ErrorBudget, store: Store, next: Id, createdAt: Time,
                            actions: seq<Action>, t: Token, u: Token, now: Time)
    returns (more: seq<Action>)
    requires ByIdentifier(rs) && Consistent(store, next) && t != u
    requires var y := Run(rs, budget, Initial(store, next, createdAt), actions);
             && t !in y.workers && u !in y.workers
             && (y.row.token.None? || (y.row.lease.Some? && y.row.lease.value < now))
    ensures var z := Run(rs, budget, Initial(store, next, createdAt), actions + more);
            z.row.status == RunRow.Completed && Taken(z.pages) == rs && z.row.seen == |rs|
  {
    var start := Initial(store, next, createdAt);
    var y := Run(rs, budget, start, actions);
    InitialHolds(rs, budget, store, next, createdAt);
    RunHolds(rs, budget, start, actions);
    more := FromHere(rs, budget, y, t, u, now);
    StepsAppend(StepOf(rs, budget), start, actions, more);
    ExactlyOnce(rs, budget, store, next, createdAt, actions + more);
  }

  lemma {:induction false} FromHere(rs: seq<Raw>, budget: ErrorBudget, y: System, t: Token, u: Token, now: Time)
    returns (more: seq<Action>)
    requires ByIdentifier(rs) && Inv(rs, budget, y) && t !in y.workers && u !in y.workers && t != u
    requires y.row.token.None? || (y.row.lease.Some? && y.row.lease.value < now)
    ensures RunSteps(StepOf(rs, budget), y, more).row.status == RunRow.Completed
  {
    var k := |Taken(y.pages)|;
    if k == |rs| {
      more := RestCompleted(rs, budget, y, t, now);
    } else {
      var first, z := RestCommitted(rs, budget, y, t, k, now);
      StepsHold(rs, budget, y, first);
      var second := RestCompleted(rs, budget, z, u, now);
      StepsAppend(StepOf(rs, budget), y, first, second);
      more := first + second;
    }
  }

  lemma {:induction false} StepsHold(rs: seq<Raw>, budget: ErrorBudget, y: System, more: seq<Action>)
    requires ByIdentifier(rs) && Inv(rs, budget, y)
    ensures Inv(rs, budget, RunSteps(StepOf(rs, budget), y, more))
  {
    RunHolds(rs, budget, y, more);
  }
}
