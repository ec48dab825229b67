// The worker pool: internal/platform/worker/pool.go. Dispatchers, workers and the one Shutdown that runs
// are threads; a step is one access to the lock, a wait group or a channel.
module Pool {
  import opened Prelude

  // A Dispatch call, which stands for its task: before the read lock, under it, in the select, past the
  // select with the deferred Done to come, returned.
  datatype Dispatcher = Arrived | UnderLock | Selecting | Leaving(accepted: bool) | Gone(accepted: bool)

  datatype Worker = Receiving | Busy(task: Id) | Exited

  // Before the lock, under it, waiting for dispatchers, waiting for workers, returned nil or a timeout.
  datatype Shutdown = NotCalled | Locked | AwaitingDispatchers | Draining | Returned(drained: bool)

  // `closed` is the flag read under the lock, `closing` the channel a select listens to, and `cancelled`
  // holds the calls whose own context is cancelled.
  datatype State = State(capacity: nat, dispatchers: map<Id, Dispatcher>, workers: map<Id, Worker>, shutdown: Shutdown,
                         queue: seq<Id>, tasksClosed: bool, closed: bool, closing: bool, cancelled: set<Id>,
                         dispatcherWg: int, panicked: bool, started: seq<Id>, finished: seq<Id>)

  datatype Event =
    | Arrive(d: Id) | AcquireRead(d: Id) | CheckClosed(d: Id) | Send(d: Id) | HandOff(d: Id, w: Id) | GiveUp(d: Id)
      | Leave(d: Id) | Cancel(d: Id)
    | Receive(w: Id) | Finish(w: Id) | Exit(w: Id)
    | LockForShutdown | MarkClosed | SignalClosing | CloseTasks | ReturnNil | ReturnTimeout

  // ---------------------------------------------------------------- steps

  predicate DispatcherIs(s: State, d: Id, phase: Dispatcher) {
    d in s.dispatchers && s.dispatchers[d] == phase
  }

  predicate WorkerIs(s: State, w: Id, phase: Worker) {
    w in s.workers && s.workers[w] == phase
  }

  function Move(s: State, d: Id, phase: Dispatcher): State {
    s.(dispatchers := s.dispatchers[d := phase])
  }

  // The read lock excludes the writer's; other readers are welcome.
  predicate Enabled(s: State, e: Event) {
    match e
    case Arrive(d) => d !in s.dispatchers
    case AcquireRead(d) => DispatcherIs(s, d, Arrived) && !s.shutdown.Locked?
    case CheckClosed(d) => DispatcherIs(s, d, UnderLock)
    case Send(d) => DispatcherIs(s, d, Selecting) && (s.tasksClosed || |s.queue| < s.capacity)
    case HandOff(d, w) => DispatcherIs(s, d, Selecting) && WorkerIs(s, w, Receiving) && s.queue == [] && !s.tasksClosed
    case GiveUp(d) => DispatcherIs(s, d, Selecting) && (s.closing || d in s.cancelled)
    case Leave(d) => d in s.dispatchers && s.dispatchers[d].Leaving?
    case Cancel(d) => d !in s.cancelled
    case Receive(w) => WorkerIs(s, w, Receiving) && s.queue != []
    case Finish(w) => w in s.workers && s.workers[w].Busy?
    case Exit(w) => WorkerIs(s, w, Receiving) && s.queue == [] && s.tasksClosed
    case LockForShutdown => s.shutdown.NotCalled? && forall d | d in s.dispatchers :: s.dispatchers[d] != UnderLock
    case MarkClosed => s.shutdown.Locked? && !s.closed
    case SignalClosing => s.shutdown.Locked? && s.closed
    case CloseTasks => s.shutdown.AwaitingDispatchers? && s.dispatcherWg == 0
    case ReturnNil => s.shutdown.Draining? && forall w | w in s.workers :: s.workers[w].Exited?
    case ReturnTimeout => s.shutdown.Draining?
  }

  // Sending on a closed channel panics. A select gives up when its context is cancelled or the pool closing.
  function Apply(s: State, e: Event): State
    requires Enabled(s, e)
  {
    match e
    case Arrive(d) => Move(s, d, Arrived)
    case AcquireRead(d) => Move(s, d, UnderLock)
    case CheckClosed(d) =>
      if s.closed then Move(s, d, Gone(false)) else Move(s, d, Selecting).(dispatcherWg := s.dispatcherWg + 1)
    case Send(d) =>
      if s.tasksClosed then s.(panicked := true) else Move(s, d, Leaving(true)).(queue := s.queue + [d])
    case HandOff(d, w) => Move(s, d, Leaving(true)).(workers := s.workers[w := Busy(d)], started := s.started + [d])
    case GiveUp(d) => Move(s, d, Leaving(false))
    case Leave(d) => Move(s, d, Gone(s.dispatchers[d].accepted)).(dispatcherWg := s.dispatcherWg - 1)
    case Cancel(d) => s.(cancelled := s.cancelled + {d})
    case Receive(w) =>
      s.(workers := s.workers[w := Busy(s.queue[0])], queue := s.queue[1..], started := s.started + [s.queue[0]])
    case Finish(w) => s.(workers := s.workers[w := Receiving], finished := s.finished + [s.workers[w].task])
    case Exit(w) => s.(workers := s.workers[w := Exited])
    case LockForShutdown => s.(shutdown := Locked)
    case MarkClosed => s.(closed := true)
    case SignalClosing => s.(shutdown := AwaitingDispatchers, closing := true)
    case CloseTasks => s.(shutdown := Draining, tasksClosed := true)
    case ReturnNil => s.(shutdown := Returned(true))
    case ReturnTimeout => s.(shutdown := Returned(false))
  }

  ghost predicate Initial(s: State) {
    && s.dispatchers == map[] && s.shutdown == NotCalled && s.queue == [] && !s.tasksClosed && !s.closed
    && !s.closing && s.dispatcherWg == 0
    && !s.panicked && s.started == [] && s.finished == [] && forall w | w in s.workers :: s.workers[w] == Receiving
  }

  // ---------------------------------------------------------------- the closing protocol

  predicate InFlightIn(d: Id, ds: map<Id, Dispatcher>) {
    d in ds && (ds[d].Selecting? || ds[d].Leaving?)
  }

  ghost function InFlight(ds: map<Id, Dispatcher>): set<Id> {
    set d | d in ds && InFlightIn(d, ds)
  }

  // The wait group counts the dispatchers in the select or past it; the flags follow the shutdown, the
  // channel that selects listen to being closed before anybody is waited for; no
  // dispatcher is in flight once the task channel is closed, nor under the lock while it is held.
  ghost predicate Closing(s: State) {
    && s.dispatcherWg == |InFlight(s.dispatchers)|
    && (s.closing <==> s.shutdown.AwaitingDispatchers? || s.shutdown.Draining? || s.shutdown.Returned?)
    && (s.closing ==> s.closed) && (s.closed ==> !s.shutdown.NotCalled?)
    && (s.tasksClosed <==> s.shutdown.Draining? || s.shutdown.Returned?)
    && (s.tasksClosed ==> InFlight(s.dispatchers) == {})
    && (s.shutdown.Locked? ==> forall d | d in s.dispatchers :: s.dispatchers[d] != UnderLock)
    && !s.panicked
  }

  lemma MoveCounts(ds: map<Id, Dispatcher>, d: Id, phase: Dispatcher)
    ensures var now, was := InFlightIn(d, ds[d := phase]), InFlightIn(d, ds);
            InFlight(ds[d := phase]) == if now then InFlight(ds) + {d} else InFlight(ds) - {d}
    ensures d in InFlight(ds) <==> InFlightIn(d, ds)
  {
    var now := InFlightIn(d, ds[d := phase]);
    var moved := if now then InFlight(ds) + {d} else InFlight(ds) - {d};
    forall x ensures x in InFlight(ds[d := phase]) <==> x in moved {}
  }

  // Who moves, and whether it is in flight before and after.
  lemma MovedClosing(s: State, t: State, d: Id, phase: Dispatcher)
    requires Closing(s) && t.dispatchers == s.dispatchers[d := phase] && t.shutdown == s.shutdown
    requires t.closed == s.closed && t.closing == s.closing && t.tasksClosed == s.tasksClosed && !t.panicked
    requires t.dispatcherWg - s.dispatcherWg ==
             (if InFlightIn(d, t.dispatchers) then 1 else 0) - (if InFlightIn(d, s.dispatchers) then 1 else 0)
    requires s.tasksClosed ==> !InFlightIn(d, t.dispatchers)
    requires s.shutdown.Locked? ==> phase != UnderLock
    ensures Closing(t)
  {
    MoveCounts(s.dispatchers, d, phase);
  }

  // The task channel is open to whoever is in the select.
  lemma OpenWhileSelecting(s: State, d: Id)
    requires Closing(s) && DispatcherIs(s, d, Selecting)
    ensures !s.tasksClosed
  {
    MoveCounts(s.dispatchers, d, Selecting);
  }

  lemma DispatcherKeepsClosing(s: State, e: Event)
    requires Closing(s) && Enabled(s, e)
    requires e.Arrive? || e.AcquireRead? || e.CheckClosed? || e.Send? || e.HandOff? || e.GiveUp? || e.Leave?
    ensures Closing(Apply(s, e))
  {
    var t := Apply(s, e);
    if e.Send? || e.HandOff? || e.GiveUp? { OpenWhileSelecting(s, e.d); }
    MovedClosing(s, t, e.d, t.dispatchers[e.d]);
  }

  lemma ClosingKept(s: State, e: Event)
    requires Closing(s) && Enabled(s, e)
    ensures Closing(Apply(s, e))
  {
    if e.Arrive? || e.AcquireRead? || e.CheckClosed? || e.Send? || e.HandOff? || e.GiveUp? || e.Leave? {
      DispatcherKeepsClosing(s, e);
    }
  }

  // ---------------------------------------------------------------- what happens to a task

  predicate IsAccepted(d: Id, ds: map<Id, Dispatcher>) {
    d in ds && (ds[d] == Leaving(true) || ds[d] == Gone(true))
  }

  predicate Runs(workers: map<Id, Worker>, w: Id, task: Id) {
    w in workers && workers[w] == Busy(task)
  }

  // An accepted task is queued or has started, once; a started one is running in one worker or finished.
  ghost predicate Tasks(s: State) {
    && (forall d :: IsAccepted(d, s.dispatchers) <==> d in s.queue || d in s.started)
    && (forall d :: multiset(s.queue)[d] + multiset(s.started)[d] <= 1)
    && (forall w | w in s.workers && s.workers[w].Busy? ::
        s.workers[w].task in s.started && s.workers[w].task !in s.finished)
    && (forall v, w | v in s.workers && w in s.workers && s.workers[v].Busy? && s.workers[w].Busy? && v != w ::
          s.workers[v].task != s.workers[w].task)
    && (forall t | t in s.started :: t in s.finished || exists w :: Runs(s.workers, w, t))
    && (forall t | t in s.finished :: t in s.started)
    && (forall t :: multiset(s.finished)[t] <= 1)
  }

  // Tasks are drained: workers leave only when the closed channel is empty.
  ghost predicate Drained(s: State) {
    && (forall w | w in s.workers && s.workers[w].Exited? :: s.tasksClosed && s.queue == [])
    && (s.shutdown == Returned(true) ==> s.tasksClosed && forall w | w in s.workers :: s.workers[w].Exited?)
  }

  // Nothing changes for tasks when a dispatcher moves without being accepted.
  lemma UnacceptedMoveKeepsTasks(s: State, t: State, d: Id)
    requires Tasks(s) && t.queue == s.queue && t.started == s.started && t.finished == s.finished
             && t.workers == s.workers
    requires d in t.dispatchers && t.dispatchers == s.dispatchers[d := t.dispatchers[d]]
    requires IsAccepted(d, t.dispatchers) == IsAccepted(d, s.dispatchers)
    ensures Tasks(t)
  {
    forall x ensures IsAccepted(x, t.dispatchers) == IsAccepted(x, s.dispatchers) {
      if x != d && x in s.dispatchers { assert t.dispatchers[x] == s.dispatchers[x]; }
    }
  }

  lemma MultisetSnoc(q: seq<Id>, x: Id)
    ensures multiset(q + [x]) == multiset(q) + multiset{x}
    ensures forall d :: d in q + [x] <==> d in q || d == x
  {}

  lemma SendKeepsTasks(s: State, d: Id)
    requires Tasks(s) && Enabled(s, Send(d)) && !s.tasksClosed
    ensures Tasks(Apply(s, Send(d)))
  {
    var t := Apply(s, Send(d));
    assert !IsAccepted(d, s.dispatchers);
    MultisetSnoc(s.queue, d);
    assert multiset(s.queue)[d] == 0 && multiset(s.started)[d] == 0;
    forall x ensures IsAccepted(x, t.dispatchers) == (IsAccepted(x, s.dispatchers) || x == d) {
      if x != d && x in s.dispatchers { assert t.dispatchers[x] == s.dispatchers[x]; }
    }
  }

  // Task x, queued first or handed over, starts in worker w.
  lemma StartKeepsTasks(s: State, t: State, w: Id, x: Id)
    requires Tasks(s) && WorkerIs(s, w, Receiving) && t.workers == s.workers[w := Busy(x)]
             && t.started == s.started + [x]
    requires t.finished == s.finished && x !in s.started
    requires forall d :: IsAccepted(d, t.dispatchers) <==> IsAccepted(d, s.dispatchers) || d == x
    requires forall d :: d in t.queue || d == x <==> d in s.queue || d == x
    requires forall d ::
               multiset(t.queue)[d] + (if d == x then 1 else 0) <= 1
               && (d != x ==> multiset(t.queue)[d] == multiset(s.queue)[d])
    ensures Tasks(t)
  {
    MultisetSnoc(s.started, x);
    assert multiset(s.started)[x] == 0;
    forall y | y in t.started ensures y in t.finished || exists v :: Runs(t.workers, v, y) {
      if y == x {
        assert Runs(t.workers, w, y);
      } else if y !in s.finished {
        var v :| Runs(s.workers, v, y);
        assert Runs(t.workers, v, y);
      }
    }
  }

  lemma FirstQueued(q: seq<Id>)
    requires q != []
    ensures forall d :: multiset(q)[d] == multiset(q[1..])[d] + (if d == q[0] then 1 else 0)
    ensures forall d :: d in q <==> d in q[1..] || d == q[0]
  {
    assert q == [q[0]] + q[1..];
  }

  lemma ReceiveKeepsTasks(s: State, w: Id)
    requires Tasks(s) && Enabled(s, Receive(w))
    ensures Tasks(Apply(s, Receive(w)))
  {
    var x, t := s.queue[0], Apply(s, Receive(w));
    FirstQueued(s.queue);
    assert multiset(s.queue)[x] + multiset(s.started)[x] <= 1;
    assert x !in multiset(s.started);
    StartKeepsTasks(s, t, w, x);
  }

  lemma HandOffKeepsTasks(s: State, d: Id, w: Id)
    requires Tasks(s) && Enabled(s, HandOff(d, w))
    ensures Tasks(Apply(s, HandOff(d, w)))
  {
    var t := Apply(s, HandOff(d, w));
    assert !IsAccepted(d, s.dispatchers);
    forall x ensures IsAccepted(x, t.dispatchers) <==> IsAccepted(x, s.dispatchers) || x == d {
      if x != d && x in s.dispatchers { assert t.dispatchers[x] == s.dispatchers[x]; }
    }
    StartKeepsTasks(s, t, w, d);
  }

  lemma FinishKeepsTasks(s: State, w: Id)
    requires Tasks(s) && Enabled(s, Finish(w))
    ensures Tasks(Apply(s, Finish(w)))
  {
    var x, t := s.workers[w].task, Apply(s, Finish(w));
    MultisetSnoc(s.finished, x);
    forall y | y in t.started ensures y in t.finished || exists v :: Runs(t.workers, v, y) {
      if y !in t.finished {
        var v :| Runs(s.workers, v, y);
        assert Runs(t.workers, v, y);
      }
    }
  }

  lemma ExitKeepsTasks(s: State, w: Id)
    requires Tasks(s) && Enabled(s, Exit(w))
    ensures Tasks(Apply(s, Exit(w)))
  {
    var t := Apply(s, Exit(w));
    forall y | y in t.started ensures y in t.finished || exists v :: Runs(t.workers, v, y) {
      if y !in s.finished {
        var v :| Runs(s.workers, v, y);
        assert Runs(t.workers, v, y);
      }
    }
  }

  lemma OtherMovesKeepTasks(s: State, e: Event)
    requires Tasks(s) && Enabled(s, e) && (e.Arrive? || e.AcquireRead? || e.CheckClosed? || e.GiveUp? || e.Leave?)
    ensures Tasks(Apply(s, e))
  {
    UnacceptedMoveKeepsTasks(s, Apply(s, e), e.d);
  }

  lemma TasksKept(s: State, e: Event)
    requires Closing(s) && Tasks(s) && Enabled(s, e)
    ensures Tasks(Apply(s, e))
  {
    match e
    case Send(d) =>
      OpenWhileSelecting(s, d);
      SendKeepsTasks(s, d);
    case Receive(w) => ReceiveKeepsTasks(s, w);
    case HandOff(d, w) => HandOffKeepsTasks(s, d, w);
    case Finish(w) => FinishKeepsTasks(s, w);
    case Exit(w) => ExitKeepsTasks(s, w);
    case Arrive(_) => OtherMovesKeepTasks(s, e);
    case AcquireRead(_) => OtherMovesKeepTasks(s, e);
    case CheckClosed(_) => OtherMovesKeepTasks(s, e);
    case GiveUp(_) => OtherMovesKeepTasks(s, e);
    case Leave(_) => OtherMovesKeepTasks(s, e);
    case _ =>
  }

  lemma DrainedKept(s: State, e: Event)
    requires Closing(s) && Drained(s) && Enabled(s, e)
    ensures Drained(Apply(s, e))
  {
    if e.Send? { OpenWhileSelecting(s, e.d); }
  }

  // ---------------------------------------------------------------- over all interleavings

  ghost predicate Sound(s: State) {
    Closing(s) && Tasks(s) && Drained(s)
  }

  // A run: each state follows the one before by an enabled step of some thread.
  ghost predicate IsRun(states: seq<State>, events: seq<Event>) {
    && |states| == |events| + 1 && Initial(states[0]) && (exists w :: w in states[0].workers)
    && forall k | 0 <= k < |events| :: Enabled(states[k], events[k]) && states[k+1] == Apply(states[k], events[k])
  }

  lemma InitialIsSound(s: State)
    requires Initial(s)
    ensures Sound(s)
  {}

  lemma StepIsSound(s: State, e: Event, t: State)
    requires Sound(s) && Enabled(s, e) && t == Apply(s, e)
    ensures Sound(t) && t.workers.Keys == s.workers.Keys
  {
    ClosingKept(s, e);
    TasksKept(s, e);
    DrainedKept(s, e);
  }

  lemma {:induction false} RunIsSound(states: seq<State>, events: seq<Event>, k: nat)
    requires IsRun(states, events) && k < |states|
    ensures Sound(states[k]) && states[k].workers.Keys == states[0].workers.Keys
  {
    if k == 0 {
      InitialIsSound(states[0]);
    } else {
      RunIsSound(states, events, k - 1);
      StepIsSound(states[k-1], events[k-1], states[k]);
    }
  }

  // In every interleaving: no send reaches a closed channel; a task starts at most once, and only if its
  // Dispatch was accepted; and when Shutdown has returned nil every accepted task has finished.
  lemma ShutdownIsSafe(states: seq<State>, events: seq<Event>, k: nat, task: Id)
    requires IsRun(states, events) && k < |states|
    ensures var s := states[k];
            && !s.panicked
            && multiset(s.started)[task] <= 1 && (task in s.started ==> IsAccepted(task, s.dispatchers))
            && (s.shutdown == Returned(true) && IsAccepted(task, s.dispatchers) ==> task in s.finished)
  {
    RunIsSound(states, events, k);
    var s := states[k];
    if s.shutdown == Returned(true) && IsAccepted(task, s.dispatchers) {
      var w :| w in states[0].workers;
      assert w in states[0].workers.Keys;
      AllFinished(s, w, task);
    }
  }

  lemma AllFinished(s: State, w: Id, task: Id)
    requires Sound(s) && s.shutdown == Returned(true) && IsAccepted(task, s.dispatchers) && w in s.workers
    ensures task in s.finished
  {
    assert s.workers[w].Exited?;
    assert task in s.started;
  }

  // Under the lock Shutdown goes on itself; then a dispatcher it waits for can step; then a worker, or it can
  // return nil.
  ghost predicate GoesOn(s: State) {
    match s.shutdown
    case Locked =>
      if s.closed then Enabled(s, SignalClosing)
      else Enabled(s, MarkClosed) && Enabled(Apply(s, MarkClosed), SignalClosing)
    case AwaitingDispatchers => Enabled(s, CloseTasks) || exists d :: Enabled(s, GiveUp(d)) || Enabled(s, Leave(d))
    case Draining =>
      || (Enabled(s, ReturnNil) && Apply(s, ReturnNil).shutdown == Returned(true))
      || exists w :: Enabled(s, Receive(w)) || Enabled(s, Exit(w)) || Enabled(s, Finish(w))
    case _ => true
  }

  lemma SoundGoesOn(s: State)
    requires Sound(s)
    ensures GoesOn(s)
  {
    if s.shutdown.AwaitingDispatchers? && s.dispatcherWg != 0 {
      assert InFlight(s.dispatchers) != {};
      var d :| d in InFlight(s.dispatchers);
      assert Enabled(s, GiveUp(d)) || Enabled(s, Leave(d));
    } else if s.shutdown.Draining? && !Enabled(s, ReturnNil) {
      var w :| w in s.workers && !s.workers[w].Exited?;
      assert Enabled(s, Receive(w)) || Enabled(s, Exit(w)) || Enabled(s, Finish(w));
    }
  }

  // Shutdown is never stuck: under the lock it goes on itself, and while it waits, some thread it waits for
  // can step, or a task is running; once every worker has left it can return nil.
  lemma ShutdownProgresses(states: seq<State>, events: seq<Event>, k: nat)
    requires IsRun(states, events) && k < |states|
    ensures GoesOn(states[k])
  {
    RunIsSound(states, events, k);
    SoundGoesOn(states[k]);
  }

  // ---------------------------------------------------------------- what Dispatch answers

  // The queue holds no more than it can; a call is refused only when the pool is closed or the call's own
  // context cancelled.
  ghost predicate Answers(s: State) {
    && |s.queue| <= s.capacity
    && forall d | d in s.dispatchers && (s.dispatchers[d] == Leaving(false) || s.dispatchers[d] == Gone(false)) ::
         s.closed || d in s.cancelled
  }

  lemma StepAnswers(s: State, e: Event, t: State)
    requires Sound(s) && Answers(s) && Enabled(s, e) && t == Apply(s, e)
    ensures Answers(t)
  {
    if e.Send? { OpenWhileSelecting(s, e.d); }
  }

  lemma AnswersNext(states: seq<State>, events: seq<Event>, k: nat)
    requires IsRun(states, events) && k < |events| && Answers(states[k])
    ensures Answers(states[k+1])
  {
    RunIsSound(states, events, k);
    StepAnswers(states[k], events[k], states[k+1]);
  }

  lemma {:induction false} StaysTrue(flags: seq<bool>, k: nat, j: nat)
    requires k <= j < |flags| && flags[k] && forall i | k <= i < j :: flags[i] ==> flags[i+1]
    ensures flags[j]
  {
    if k < j { StaysTrue(flags, k, j - 1); }
  }

  lemma RunAnswers(states: seq<State>, events: seq<Event>, j: nat)
    requires IsRun(states, events) && j < |states|
    ensures Answers(states[j])
  {
    var flags := seq(|states|, i requires 0 <= i < |states| => Answers(states[i]));
    forall i | 0 <= i < j ensures flags[i] ==> flags[i+1] {
      if flags[i] { AnswersNext(states, events, i); }
    }
    StaysTrue(flags, 0, j);
  }

  // A call that has not passed the check of the flag.
  predicate Outside(s: State, d: Id) {
    d !in s.dispatchers || s.dispatchers[d].Arrived? || s.dispatchers[d].UnderLock? || s.dispatchers[d] == Gone(false)
  }

  lemma StepOutside(s: State, e: Event, t: State, d: Id)
    requires s.closed && Outside(s, d) && Enabled(s, e) && t == Apply(s, e)
    ensures t.closed && Outside(t, d)
  {}

  lemma OutsideNext(states: seq<State>, events: seq<Event>, k: nat, d: Id)
    requires IsRun(states, events) && k < |events| && states[k].closed && Outside(states[k], d)
    ensures states[k+1].closed && Outside(states[k+1], d)
  {
    StepOutside(states[k], events[k], states[k+1], d);
  }

  lemma StaysOutside(states: seq<State>, events: seq<Event>, k: nat, j: nat, d: Id)
    requires IsRun(states, events) && k <= j < |states| && states[k].closed && Outside(states[k], d)
    ensures Outside(states[j], d)
  {
    var flags := seq(|states|, i requires 0 <= i < |states| => states[i].closed && Outside(states[i], d));
    forall i | k <= i < j ensures flags[i] ==> flags[i+1] {
      if flags[i] { OutsideNext(states, events, i, d); }
    }
    StaysTrue(flags, k, j);
  }

  // In every interleaving: the queue never exceeds its capacity; a call is refused only because the pool is closed
  // or the call cancelled; and none that had not passed the check when the pool was closed is ever accepted.
  lemma DispatchAnswers(states: seq<State>, events: seq<Event>, k: nat, j: nat, d: Id)
    requires IsRun(states, events) && k <= j < |states|
    ensures |states[j].queue| <= states[j].capacity
    ensures DispatcherIs(states[j], d, Gone(false)) ==> states[j].closed || d in states[j].cancelled
    ensures states[k].closed && (d !in states[k].dispatchers || states[k].dispatchers[d].Arrived?) ==>
              !IsAccepted(d, states[j].dispatchers)
  {
    RunAnswers(states, events, j);
    if states[k].closed && Outside(states[k], d) { StaysOutside(states, events, k, j, d); }
  }

  // A call in the select is never stuck for good: it can be accepted, or a worker can step that makes room; and
  // once it is cancelled or the pool closing it can give up.
  lemma DispatchProgresses(states: seq<State>, events: seq<Event>, k: nat, d: Id)
    requires IsRun(states, events) && k < |states| && DispatcherIs(states[k], d, Selecting)
    ensures var s := states[k];
            || (Enabled(s, Send(d)) && IsAccepted(d, Apply(s, Send(d)).dispatchers))
            || exists w :: (Enabled(s, HandOff(d, w)) && IsAccepted(d, Apply(s, HandOff(d, w)).dispatchers))
                           || (|s.queue| == s.capacity && (Enabled(s, Receive(w)) || Enabled(s, Finish(w))))
    ensures var s := states[k];
            s.closing || d in s.cancelled ==> Enabled(s, GiveUp(d)) && !IsAccepted(d, Apply(s, GiveUp(d)).dispatchers)
  {
    RunIsSound(states, events, k);
    RunAnswers(states, events, k);
    var w :| w in states[0].workers;
    assert w in states[0].workers.Keys;
    if |states[k].queue| == states[k].capacity { RoomIsMade(states[k], d, w); }
    OpenWhileSelecting(states[k], d);
  }

  lemma RoomIsMade(s: State, d: Id, w: Id)
    requires Sound(s) && DispatcherIs(s, d, Selecting) && w in s.workers
    ensures Enabled(s, HandOff(d, w)) || Enabled(s, Receive(w)) || Enabled(s, Finish(w))
    ensures Enabled(s, HandOff(d, w)) ==> IsAccepted(d, Apply(s, HandOff(d, w)).dispatchers)
  {
    OpenWhileSelecting(s, d);
  }

  // ---------------------------------------------------------------- how long Shutdown waits

  // The steps a dispatcher still takes once the pool is closing, those of the task it may enqueue included.
  function Ahead(p: Dispatcher): nat {
    match p
    case Selecting => 4
    case Leaving(_) => 1
    case _ => 0
  }

  function Work(w: Worker): nat {
    match w
    case Receiving => 1
    case Busy(_) => 2
    case Exited => 0
  }

  ghost function Selectors(ds: map<Id, Dispatcher>): set<Id> {
    set d | d in ds && ds[d].Selecting?
  }

  ghost function Leavers(ds: map<Id, Dispatcher>): set<Id> {
    set d | d in ds && ds[d].Leaving?
  }

  ghost function AllAhead(ds: map<Id, Dispatcher>): nat {
    4 * |Selectors(ds)| + |Leavers(ds)|
  }

  ghost function Idle(ws: map<Id, Worker>): set<Id> {
    set w | w in ws && ws[w].Receiving?
  }

  ghost function Occupied(ws: map<Id, Worker>): set<Id> {
    set w | w in ws && ws[w].Busy?
  }

  ghost function AllWork(ws: map<Id, Worker>): nat {
    |Idle(ws)| + 2 * |Occupied(ws)|
  }

  ghost function Rank(s: State): nat {
    AllAhead(s.dispatchers) + 2 * |s.queue| + AllWork(s.workers)
  }

  function With(x: set<Id>, d: Id, member: bool): set<Id> {
    if member then x + {d} else x - {d}
  }

  lemma WithSize(x: set<Id>, d: Id, member: bool)
    ensures |With(x, d, member)| + (if d in x then 1 else 0) == |x| + (if member then 1 else 0)
  {}

  lemma SelectorsMove(ds: map<Id, Dispatcher>, d: Id, phase: Dispatcher)
    ensures Selectors(ds[d := phase]) == With(Selectors(ds), d, phase.Selecting?)
  {}

  lemma LeaversMove(ds: map<Id, Dispatcher>, d: Id, phase: Dispatcher)
    ensures Leavers(ds[d := phase]) == With(Leavers(ds), d, phase.Leaving?)
  {}

  lemma IdleMove(ws: map<Id, Worker>, w: Id, phase: Worker)
    ensures Idle(ws[w := phase]) == With(Idle(ws), w, phase.Receiving?)
  {}

  lemma OccupiedMove(ws: map<Id, Worker>, w: Id, phase: Worker)
    ensures Occupied(ws[w := phase]) == With(Occupied(ws), w, phase.Busy?)
  {}

  lemma DispatcherMoves(ds: map<Id, Dispatcher>, d: Id, phase: Dispatcher)
    ensures AllAhead(ds[d := phase]) + (if d in ds then Ahead(ds[d]) else 0) == AllAhead(ds) + Ahead(phase)
  {
    SelectorsMove(ds, d, phase);
    LeaversMove(ds, d, phase);
    WithSize(Selectors(ds), d, phase.Selecting?);
    WithSize(Leavers(ds), d, phase.Leaving?);
  }

  lemma WorkerMoves(ws: map<Id, Worker>, w: Id, phase: Worker)
    requires w in ws
    ensures AllWork(ws[w := phase]) + Work(ws[w]) == AllWork(ws) + Work(phase)
  {
    IdleMove(ws, w, phase);
    OccupiedMove(ws, w, phase);
    WithSize(Idle(ws), w, phase.Receiving?);
    WithSize(Occupied(ws), w, phase.Busy?);
  }

  // The steps of the threads Shutdown waits for: dispatchers in flight and workers.
  predicate Awaited(e: Event) {
    e.Send? || e.HandOff? || e.GiveUp? || e.Leave? || e.Receive? || e.Finish? || e.Exit?
  }

  // Once the pool is closing, each of them lowers the rank and no other step raises it.
  lemma RankFalls(s: State, e: Event)
    requires Closing(s) && s.closing && Enabled(s, e)
    ensures Rank(Apply(s, e)) + (if Awaited(e) then 1 else 0) <= Rank(s) && Apply(s, e).closing
  {
    var t := Apply(s, e);
    if e.Arrive? || e.AcquireRead? || e.CheckClosed? || e.Send? || e.HandOff? || e.GiveUp? || e.Leave? {
      if e.Send? { OpenWhileSelecting(s, e.d); }
      DispatcherMoves(s.dispatchers, e.d, t.dispatchers[e.d]);
      if e.HandOff? { WorkerMoves(s.workers, e.w, t.workers[e.w]); }
    } else if e.Receive? || e.Finish? || e.Exit? {
      WorkerMoves(s.workers, e.w, t.workers[e.w]);
    }
  }

  function CountAwaited(events: seq<Event>): nat {
    if events == [] then 0 else CountAwaited(events[..|events|-1]) + if Awaited(events[|events|-1]) then 1 else 0
  }

  lemma StepFalls(states: seq<State>, events: seq<Event>, k: nat)
    requires IsRun(states, events) && k < |events| && states[k].closing
    ensures Rank(states[k+1]) + (if Awaited(events[k]) then 1 else 0) <= Rank(states[k]) && states[k+1].closing
  {
    RunIsSound(states, events, k);
    RankFalls(states[k], events[k]);
  }

  lemma CountMore(events: seq<Event>, e: Event)
    ensures CountAwaited(events + [e]) == CountAwaited(events) + if Awaited(e) then 1 else 0
  {
    assert (events + [e])[..|events|] == events;
  }

  lemma {:induction false} StaysClosing(states: seq<State>, events: seq<Event>, k: nat, j: nat)
    requires IsRun(states, events) && k <= j < |states| && states[k].closing
    ensures states[j].closing
  {
    if k < j {
      StaysClosing(states, events, k, j - 1);
      StepFalls(states, events, j - 1);
    }
  }

  lemma {:induction false} FallsAddUp(ranks: seq<nat>, events: seq<Event>, k: nat, j: nat)
    requires |ranks| == |events| + 1 && k <= j < |ranks|
    requires forall i | k <= i < j :: ranks[i+1] + (if Awaited(events[i]) then 1 else 0) <= ranks[i]
    ensures CountAwaited(events[k..j]) + ranks[j] <= ranks[k]
  {
    if k == j {
      assert events[k..j] == [];
    } else {
      FallsAddUp(ranks, events, k, j - 1);
      assert events[k..j] == events[k..j-1] + [events[j-1]];
      CountMore(events[k..j-1], events[j-1]);
    }
  }

  // From the moment the pool is closing the threads Shutdown waits for take a bounded number of steps,
  // whatever the others do: with ShutdownProgresses, it comes back once every running task has ended.
  lemma ShutdownEnds(states: seq<State>, events: seq<Event>, k: nat, j: nat)
    requires IsRun(states, events) && k <= j < |states| && states[k].closing
    ensures CountAwaited(events[k..j]) + Rank(states[j]) <= Rank(states[k])
  {
    var ranks := seq(|states|, i requires 0 <= i < |states| => Rank(states[i]));
    forall i | k <= i < j ensures ranks[i+1] + (if Awaited(events[i]) then 1 else 0) <= ranks[i] {
      StaysClosing(states, events, k, i);
      StepFalls(states, events, i);
    }
    FallsAddUp(ranks, events, k, j);
  }
}
