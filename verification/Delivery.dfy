// Outbox, stream, consumers, idempotency keys, dead letters and replays as one transition system. Every
// step is one statement or one transaction; a crash is a participant that takes no further step.
module Delivery {
  import opened Prelude
  import Outbox
  import Idempotency

  type RowId = Outbox.RowId
  type EventId = int
  type Group = int
  type Payload = Idempotency.Hash
  type Token = int
  type TaskId = int

  // What an outbox row publishes: its own identifier or, for a replay, the original event's.
  datatype Event = Event(eventId: EventId, payload: Payload, target: Option<Group>)

  // A stream entry. A corrupt one does not decode.
  datatype Msg = Msg(row: RowId, event: Event) | Corrupt

  datatype Relay = Relay(claimed: set<RowId>, sent: set<RowId>, rejected: set<RowId>)

  datatype Config = Config(lease: nat, maxBackoff: nat, maxAttempts: nat)

  // `charged` lists every failure recorded; `touched` is when a row last changed.
  datatype Out = Out(
    rows: map<RowId, Outbox.Row>, events: map<RowId, Event>, relays: map<Token, Relay>,
    charged: seq<(RowId, Token)>, touched: map<RowId, Time>)

  datatype Phase =
    | Fresh                  // about to run the handler
    | Refused                // its claim was refused; it will look why
    | Unclaimed              // its claim failed, so it runs no handler and holds no lease
    | Holding(lease: Token)  // the handler runs
    | Failing(lease: Token)  // the handler returned an error
    | Doomed                 // to be dead-lettered
    | CanAck
    | Gone

  datatype Task = Task(group: Group, index: nat, phase: Phase)

  datatype DeadLetter = DeadLetter(msg: Msg, replayable: bool, replayedAs: Option<RowId>)

  datatype Con = Con(
    acked: set<(Group, nat)>, keys: map<(Group, EventId), Idempotency.Key>, dlq: map<(Group, nat), DeadLetter>,
    effects: seq<(Group, EventId)>, tasks: map<TaskId, Task>)

  // `payloads` remembers what each event was created with.
  datatype System = System(out: Out, stream: seq<Msg>, con: Con, payloads: map<EventId, Payload>)

  const Initial := System(Out(map[], map[], map[], [], map[]), [], Con({}, map[], map[], [], map[]), map[])

  // ---------------------------------------------------------------- relay steps

  datatype Answer = Sent | Rejected | Unavailable

  datatype RelayAction =
    | Claim(t: Token, ids: set<RowId>, now: Time)
    | Publish(t: Token, id: RowId, answer: Answer, arrived: bool)
    | Mark(t: Token, ids: set<RowId>)
    | Charge(t: Token, id: RowId, backoff: nat, now: Time)
    | Release(t: Token, ids: set<RowId>, now: Time)

  function Rewritten(rows: map<RowId, Outbox.Row>, ids: set<RowId>,
                     write: Outbox.Row -> Outbox.Row): map<RowId, Outbox.Row> {
    map i | i in rows :: if i in ids then write(rows[i]) else rows[i]
  }

  function Touched(out: Out, ids: set<RowId>, now: Time): map<RowId, Time> {
    map i | i in out.rows :: if i in ids then now else if i in out.touched then out.touched[i] else now
  }

  function RelayStep(cfg: Config, out: Out, stream: seq<Msg>, a: RelayAction): (Out, seq<Msg>) {
    match a
    case Claim(t, ids, now) =>
      if t in out.relays || exists i :: i in ids && (i !in out.rows || !Outbox.Claimable(out.rows[i], now))
      then (out, stream)
      else (out.(rows := Rewritten(out.rows, ids, r => Outbox.Claimed(r, t, now, cfg.lease)),
                 relays := out.relays[t := Relay(ids, {}, {})], touched := Touched(out, ids, now)), stream)
    case Publish(t, id, answer, arrived) =>
      if t !in out.relays || id !in out.relays[t].claimed || id !in out.events then (out, stream)
      else
        var r := out.relays[t];
        var r' := match answer
                  case Sent => r.(sent := r.sent + {id})
                  case Rejected => r.(rejected := r.rejected + {id})
                  case Unavailable => r;
        (out.(relays := out.relays[t := r']),
         if arrived || answer == Sent then stream + [Msg(id, out.events[id])] else stream)
    case Mark(t, ids) =>
      if t !in out.relays || !(ids <= out.relays[t].sent) then (out, stream)
      else (out.(rows := Rewritten(out.rows, ids, r => Outbox.Marked(r, t))), stream)
    case Charge(t, id, backoff, now) =>
      if t !in out.relays || id !in out.relays[t].rejected || backoff > cfg.maxBackoff
         || id !in out.rows || !Outbox.Holds(out.rows[id], t) then (out, stream)
      else (out.(rows := out.rows[id := Outbox.Charged(out.rows[id], t, now, backoff, cfg.maxAttempts)],
                 charged := out.charged + [(id, t)], touched := Touched(out, {id}, now)), stream)
    case Release(t, ids, now) =>
      if t !in out.relays || !(ids <= out.relays[t].claimed) then (out, stream)
      else
        var held := set i | i in ids && i in out.rows && Outbox.Holds(out.rows[i], t);
        (out.(rows := Rewritten(out.rows, held, r => Outbox.Released(r, t, now)), touched := Touched(out, held, now)),
         stream)
  }

  // ---------------------------------------------------------------- consumer steps

  datatype ConAction =
    | Begin(k: TaskId, g: Group, i: nat)
    | Skip(k: TaskId)
    | ClaimKey(k: TaskId, lease: Token, now: Time, ttl: nat)
    // the claim, or the look why it was refused, fails; the key may be written all the same
    | FailClaim(k: TaskId, written: bool, lease: Token, now: Time, ttl: nat)
    | Inspect(k: TaskId)
    | Commit(k: TaskId, told: bool)       // the handler's transaction, with the key's completion in it
    | FailHandler(k: TaskId)              // it fails or returns without completing the key
    // the guard releases the lease it holds first, unless that write fails too
    | Retry(k: TaskId, released: bool, now: Time)
    | GiveUp(k: TaskId, released: bool, now: Time)   // permanent, or the attempts are used up
    | InsertDead(k: TaskId, replayable: bool)
    | Ack(k: TaskId)
    | Leave(k: TaskId)                    // left pending, or the process died

  predicate ForGroup(m: Msg, g: Group) {
    m.Msg? && (m.event.target.None? || m.event.target == Some(g))
  }

  function KeyOf(con: Con, g: Group, m: Msg): Option<Idempotency.Key>
    requires m.Msg?
  {
    if (g, m.event.eventId) in con.keys then Some(con.keys[(g, m.event.eventId)]) else None
  }

  function InPhase(con: Con, k: TaskId, p: Phase): Con
    requires k in con.tasks
  {
    con.(tasks := con.tasks[k := con.tasks[k].(phase := p)])
  }

  function WithKey(con: Con, g: Group, e: EventId, key: Option<Idempotency.Key>): Con {
    if key.None? then con else con.(keys := con.keys[(g, e) := key.value])
  }

  // The task's lease is given up before it goes on.
  function LetGo(con: Con, stream: seq<Msg>, k: TaskId, released: bool, now: Time): Con
    requires k in con.tasks && con.tasks[k].index < |stream|
  {
    var task := con.tasks[k];
    var m := stream[task.index];
    if released && task.phase.Failing? && m.Msg? then
      WithKey(con, task.group, m.event.eventId, Idempotency.Release(KeyOf(con, task.group, m), task.phase.lease, now))
    else con
  }

  function TaskStep(con: Con, stream: seq<Msg>, k: TaskId, a: ConAction): Con
    requires k in con.tasks && con.tasks[k].index < |stream| && !a.Begin?
  {
    var task := con.tasks[k];
    var g, m, p := task.group, stream[task.index], task.phase;
    match a
    case Skip(_) => if p.Fresh? && m.Msg? && !ForGroup(m, g) then InPhase(con, k, CanAck) else con
    case ClaimKey(_, lease, now, ttl) =>
      if p.Fresh? && ForGroup(m, g) then
        var after := Idempotency.Upsert(KeyOf(con, g, m), m.event.payload, lease, now, ttl);
        InPhase(WithKey(con, g, m.event.eventId, after), k, if after.Some? then Holding(lease) else Refused)
      else con
    case FailClaim(_, written, lease, now, ttl) =>
      if p.Fresh? && ForGroup(m, g) then
        var after := if written then Idempotency.Upsert(KeyOf(con, g, m), m.event.payload, lease, now, ttl) else None;
        InPhase(WithKey(con, g, m.event.eventId, after), k, Unclaimed)
      else if p.Refused? then InPhase(con, k, Unclaimed)
      else con
    case Inspect(_) =>
      if p.Refused? && m.Msg? then
        (match Idempotency.Inspect(KeyOf(con, g, m), m.event.payload)
         case AlreadyCompleted => InPhase(con, k, CanAck)
         case PayloadMismatch => InPhase(con, k, Doomed)
         case _ => InPhase(con, k, Gone))
      else con
    case Commit(_, told) =>
      if p.Holding? && m.Msg? then
        var after := Idempotency.Complete(KeyOf(con, g, m), p.lease);
        if after.None? then InPhase(con, k, Gone)
        else InPhase(WithKey(con, g, m.event.eventId, after).(effects := con.effects + [(g, m.event.eventId)]), k,
                     if told then CanAck else Failing(p.lease))
      else con
    case FailHandler(_) => if p.Holding? then InPhase(con, k, Failing(p.lease)) else con
    case Retry(_, released, now) =>
      if p.Failing? || p.Unclaimed? then InPhase(LetGo(con, stream, k, released, now), k, Fresh) else con
    case GiveUp(_, released, now) =>
      if p.Failing? || p.Unclaimed? then InPhase(LetGo(con, stream, k, released, now), k, Doomed) else con
    case InsertDead(_, replayable) =>
      if p.Doomed? || (p.Fresh? && m.Corrupt?) then
        var at := (g, task.index);
        var dlq := if at in con.dlq then con.dlq else con.dlq[at := DeadLetter(m, replayable && m.Msg?, None)];
        InPhase(con.(dlq := dlq), k, CanAck)
      else con
    case Ack(_) => if p.CanAck? then InPhase(con.(acked := con.acked + {(g, task.index)}), k, Gone) else con
    case Leave(_) => InPhase(con, k, Gone)
  }

  function ConStep(con: Con, stream: seq<Msg>, a: ConAction): Con {
    if a.Begin? then
      if a.k in con.tasks || a.i >= |stream| || (a.g, a.i) in con.acked then con
      else con.(tasks := con.tasks[a.k := Task(a.g, a.i, Fresh)])
    else if a.k in con.tasks && con.tasks[a.k].index < |stream| then TaskStep(con, stream, a.k, a)
    else con
  }

  // ---------------------------------------------------------------- the system

  datatype Action =
    | Create(id: RowId, payload: Payload, now: Time)
    | Replay(g: Group, i: nat, id: RowId, now: Time)
    | Foreign                                 // an entry that does not decode
    | Relays(relay: RelayAction)
    | Consumes(consume: ConAction)

  function NewRow(out: Out, id: RowId, e: Event, now: Time): Out {
    out.(rows := out.rows[id := Outbox.Row(Outbox.Pending, None, now, 0)], events := out.events[id := e],
         touched := out.touched[id := now])
  }

  function Step(cfg: Config, y: System, a: Action): System {
    match a
    case Create(id, payload, now) =>
      if id in y.out.rows then y
      else y.(out := NewRow(y.out, id, Event(id, payload, None), now), payloads := y.payloads[id := payload])
    case Replay(g, i, id, now) =>
      if id in y.out.rows || (g, i) !in y.con.dlq || !y.con.dlq[(g, i)].replayable || y.con.dlq[(g, i)].replayedAs.Some?
         || y.con.dlq[(g, i)].msg.Corrupt? then y
      else
        var d := y.con.dlq[(g, i)];
        y.(out := NewRow(y.out, id, Event(d.msg.event.eventId, d.msg.event.payload, Some(g)), now),
           con := y.con.(dlq := y.con.dlq[(g, i) := d.(replayedAs := Some(id))]))
    case Foreign => y.(stream := y.stream + [Corrupt])
    case Relays(relay) =>
      var (out, stream) := RelayStep(cfg, y.out, y.stream, relay);
      y.(out := out, stream := stream)
    case Consumes(consume) => y.(con := ConStep(y.con, y.stream, consume))
  }

  function Run(cfg: Config, actions: seq<Action>): System {
    if actions == [] then Initial else Step(cfg, Run(cfg, actions[..|actions|-1]), actions[|actions|-1])
  }

  // ---------------------------------------------------------------- what every step keeps: the outbox

  ghost predicate Published(stream: seq<Msg>, id: RowId) {
    exists j :: 0 <= j < |stream| && stream[j].Msg? && stream[j].row == id
  }

  function TimesCharged(charged: seq<(RowId, Token)>, id: RowId): nat {
    if charged == [] then 0
    else TimesCharged(charged[..|charged|-1], id) + if charged[|charged|-1].0 == id then 1 else 0
  }

  lemma ChargedOnceMore(charged: seq<(RowId, Token)>, c: (RowId, Token), id: RowId)
    ensures TimesCharged(charged + [c], id) == TimesCharged(charged, id) + if c.0 == id then 1 else 0
  {
    assert (charged + [c])[..|charged|] == charged;
  }

  // One row: claims only while pending; processed means published; failed means charged the maximum
  // number of times; a pending row is available again within the lease or the longest backoff.
  ghost predicate RowInv(cfg: Config, r: Outbox.Row, id: RowId, charged: seq<(RowId, Token)>, touched: Time,
                         stream: seq<Msg>) {
    && Outbox.RowOk(r)
    && r.retryCount == TimesCharged(charged, id)
    && (r.status == Outbox.Processed ==> Published(stream, id))
    && (r.status == Outbox.Failed ==> r.retryCount >= cfg.maxAttempts)
    && (r.status == Outbox.Pending ==> r.availableAt <= touched + Max(cfg.lease, cfg.maxBackoff))
  }

  ghost predicate OutInv(cfg: Config, out: Out, stream: seq<Msg>) {
    && out.rows.Keys == out.events.Keys == out.touched.Keys
    && (forall i | i in out.rows :: RowInv(cfg, out.rows[i], i, out.charged, out.touched[i], stream))
    && (forall t, i | t in out.relays && i in out.relays[t].sent :: Published(stream, i))
    && (forall j | 0 <= j < |out.charged| ::
          out.charged[j].1 in out.relays && out.charged[j].0 in out.relays[out.charged[j].1].rejected)
    && (forall i | i !in out.rows :: TimesCharged(out.charged, i) == 0)
  }

  lemma StillPublished(stream: seq<Msg>, more: seq<Msg>)
    requires stream <= more
    ensures forall id | Published(stream, id) :: Published(more, id)
  {
    forall id | Published(stream, id) ensures Published(more, id) {
      var j :| 0 <= j < |stream| && stream[j].Msg? && stream[j].row == id;
      assert more[j] == stream[j];
    }
  }

  lemma LongerStream(cfg: Config, out: Out, stream: seq<Msg>, more: seq<Msg>)
    requires OutInv(cfg, out, stream) && stream <= more
    ensures OutInv(cfg, out, more)
  {
    StillPublished(stream, more);
  }

  lemma PublishHolds(cfg: Config, out: Out, stream: seq<Msg>, t: Token, id: RowId, answer: Answer, arrived: bool)
    requires OutInv(cfg, out, stream)
    ensures var (o, s) := RelayStep(cfg, out, stream, Publish(t, id, answer, arrived)); OutInv(cfg, o, s) && stream <= s
  {
    var (o, s) := RelayStep(cfg, out, stream, Publish(t, id, answer, arrived));
    StillPublished(stream, s);
    if t in out.relays && id in out.relays[t].claimed && id in out.events && (arrived || answer == Sent) {
      assert s[|stream|] == Msg(id, out.events[id]);
      assert Published(s, id);
    }
  }

  // The charged row itself.
  lemma ChargedRow(cfg: Config, r: Outbox.Row, id: RowId, charged: seq<(RowId, Token)>, touched: Time, stream: seq<Msg>,
                   t: Token, backoff: nat, now: Time)
    requires RowInv(cfg, r, id, charged, touched, stream) && Outbox.Holds(r, t) && backoff <= cfg.maxBackoff
    ensures RowInv(cfg, Outbox.Charged(r, t, now, backoff, cfg.maxAttempts), id, charged + [(id, t)], now, stream)
  {
    ChargedOnceMore(charged, (id, t), id);
  }

  // The other rows.
  lemma UnchargedRow(cfg: Config, r: Outbox.Row, i: RowId, charged: seq<(RowId, Token)>, touched: Time,
                     stream: seq<Msg>, c: (RowId, Token))
    requires RowInv(cfg, r, i, charged, touched, stream) && i != c.0
    ensures RowInv(cfg, r, i, charged + [c], touched, stream)
  {
    ChargedOnceMore(charged, c, i);
  }

  lemma ChargeHolds(cfg: Config, out: Out, stream: seq<Msg>, t: Token, id: RowId, backoff: nat, now: Time)
    requires OutInv(cfg, out, stream)
    ensures var (o, s) := RelayStep(cfg, out, stream, Charge(t, id, backoff, now)); OutInv(cfg, o, s) && s == stream
  {
    var (o, _) := RelayStep(cfg, out, stream, Charge(t, id, backoff, now));
    if o != out {
      forall i | i in o.rows ensures RowInv(cfg, o.rows[i], i, o.charged, o.touched[i], stream) {
        if i == id {
          ChargedRow(cfg, out.rows[i], i, out.charged, out.touched[i], stream, t, backoff, now);
        } else {
          UnchargedRow(cfg, out.rows[i], i, out.charged, out.touched[i], stream, (id, t));
        }
      }
      forall i | i !in o.rows ensures TimesCharged(o.charged, i) == 0 {
        ChargedOnceMore(out.charged, (id, t), i);
      }
    }
  }

  lemma ClaimRowsHold(cfg: Config, out: Out, stream: seq<Msg>, t: Token, ids: set<RowId>, now: Time)
    requires OutInv(cfg, out, stream)
    ensures var (o, s) := RelayStep(cfg, out, stream, Claim(t, ids, now)); OutInv(cfg, o, s) && s == stream
  {}

  lemma MarkHolds(cfg: Config, out: Out, stream: seq<Msg>, t: Token, ids: set<RowId>)
    requires OutInv(cfg, out, stream)
    ensures var (o, s) := RelayStep(cfg, out, stream, Mark(t, ids)); OutInv(cfg, o, s) && s == stream
  {}

  lemma ReleaseHolds(cfg: Config, out: Out, stream: seq<Msg>, t: Token, ids: set<RowId>, now: Time)
    requires OutInv(cfg, out, stream)
    ensures var (o, s) := RelayStep(cfg, out, stream, Release(t, ids, now)); OutInv(cfg, o, s) && s == stream
  {}

  lemma RelayHolds(cfg: Config, out: Out, stream: seq<Msg>, a: RelayAction)
    requires OutInv(cfg, out, stream)
    ensures var (o, s) := RelayStep(cfg, out, stream, a); OutInv(cfg, o, s) && stream <= s
  {
    match a
    case Publish(t, id, answer, arrived) => PublishHolds(cfg, out, stream, t, id, answer, arrived);
    case Charge(t, id, backoff, now) => ChargeHolds(cfg, out, stream, t, id, backoff, now);
    case Claim(t, ids, now) => ClaimRowsHold(cfg, out, stream, t, ids, now);
    case Mark(t, ids) => MarkHolds(cfg, out, stream, t, ids);
    case Release(t, ids, now) => ReleaseHolds(cfg, out, stream, t, ids, now);
  }

  lemma NewRowHolds(cfg: Config, out: Out, stream: seq<Msg>, id: RowId, e: Event, now: Time)
    requires OutInv(cfg, out, stream) && id !in out.rows
    ensures OutInv(cfg, NewRow(out, id, e, now), stream)
  {}

  // Processed and failed rows are never written again.
  lemma SettledStays(cfg: Config, y: System, a: Action, id: RowId)
    requires OutInv(cfg, y.out, y.stream) && id in y.out.rows && y.out.rows[id].status != Outbox.Pending
    ensures var z := Step(cfg, y, a); id in z.out.rows && z.out.rows[id] == y.out.rows[id]
  {
    assert Outbox.RowOk(y.out.rows[id]);
  }

  // ---------------------------------------------------------------- what every step keeps: identity and payload

  // Every row publishes one event, with the payload the event was created with; an untargeted row
  // publishes its own event.
  ghost predicate EventInv(events: map<RowId, Event>, payloads: map<EventId, Payload>) {
    && (forall r | r in events :: events[r].eventId in payloads && payloads[events[r].eventId] == events[r].payload)
    && (forall r | r in events && events[r].target.None? :: events[r].eventId == r)
    && (forall e | e in payloads :: e in events)
  }

  ghost predicate MsgInv(events: map<RowId, Event>, m: Msg) {
    m.Msg? ==> m.row in events && events[m.row] == m.event
  }

  ghost predicate DeadInv(events: map<RowId, Event>, stream: seq<Msg>, at: (Group, nat), d: DeadLetter) {
    && at.1 < |stream| && d.msg == stream[at.1]
    // a replayed dead letter has become a row for its own group, under the original event id
    && (d.replayedAs.Some? ==>
          d.msg.Msg? && d.replayedAs.value in events
          && events[d.replayedAs.value] == Event(d.msg.event.eventId, d.msg.event.payload, Some(at.0)))
  }

  ghost predicate SourceOf(events: map<RowId, Event>, payloads: map<EventId, Payload>, stream: seq<Msg>,
                           dlq: map<(Group, nat), DeadLetter>) {
    && EventInv(events, payloads)
    && (forall j | 0 <= j < |stream| :: MsgInv(events, stream[j]))
    && (forall at | at in dlq :: DeadInv(events, stream, at, dlq[at]))
  }

  ghost predicate SourceInv(y: System) {
    SourceOf(y.out.events, y.payloads, y.stream, y.con.dlq)
  }

  lemma SourceCreated(events: map<RowId, Event>, payloads: map<EventId, Payload>, stream: seq<Msg>,
                      dlq: map<(Group, nat), DeadLetter>, id: RowId, payload: Payload)
    requires SourceOf(events, payloads, stream, dlq) && id !in events
    ensures SourceOf(events[id := Event(id, payload, None)], payloads[id := payload], stream, dlq)
  {
    forall j | 0 <= j < |stream| ensures MsgInv(events[id := Event(id, payload, None)], stream[j]) {
      assert MsgInv(events, stream[j]);
    }
  }

  lemma SourceReplayed(events: map<RowId, Event>, payloads: map<EventId, Payload>, stream: seq<Msg>,
                       dlq: map<(Group, nat), DeadLetter>, at: (Group, nat), id: RowId)
    requires SourceOf(events, payloads, stream, dlq) && id !in events && at in dlq && dlq[at].msg.Msg?
    ensures var e := Event(dlq[at].msg.event.eventId, dlq[at].msg.event.payload, Some(at.0));
            SourceOf(events[id := e], payloads, stream, dlq[at := dlq[at].(replayedAs := Some(id))])
  {
    var e := Event(dlq[at].msg.event.eventId, dlq[at].msg.event.payload, Some(at.0));
    assert DeadInv(events, stream, at, dlq[at]) && MsgInv(events, stream[at.1]);
    forall j | 0 <= j < |stream| ensures MsgInv(events[id := e], stream[j]) {
      assert MsgInv(events, stream[j]);
    }
    forall a | a in dlq ensures DeadInv(events[id := e], stream, a, dlq[a]) {
      assert DeadInv(events, stream, a, dlq[a]);
    }
  }

  lemma SourceAppended(events: map<RowId, Event>, payloads: map<EventId, Payload>, stream: seq<Msg>,
                       dlq: map<(Group, nat), DeadLetter>, m: Msg)
    requires SourceOf(events, payloads, stream, dlq) && MsgInv(events, m)
    ensures SourceOf(events, payloads, stream + [m], dlq)
  {
    forall a | a in dlq ensures DeadInv(events, stream + [m], a, dlq[a]) {
      assert DeadInv(events, stream, a, dlq[a]);
    }
  }

  lemma SourceBuried(events: map<RowId, Event>, payloads: map<EventId, Payload>, stream: seq<Msg>,
                     dlq: map<(Group, nat), DeadLetter>, at: (Group, nat), replayable: bool)
    requires SourceOf(events, payloads, stream, dlq) && at.1 < |stream|
    ensures SourceOf(events, payloads, stream, dlq[at := DeadLetter(stream[at.1], replayable, None)])
  {}

  // ---------------------------------------------------------------- what every step keeps: consumers

  predicate IsCompleted(con: Con, g: Group, e: EventId) {
    (g, e) in con.keys && con.keys[(g, e)].Completed?
  }

  // Why a message may be acknowledged: its effect is in, it is in the dead-letter store, or it is for
  // another group.
  predicate Accounted(con: Con, stream: seq<Msg>, g: Group, i: nat)
    requires i < |stream|
  {
    || (g, i) in con.dlq
    || (stream[i].Msg?
        && (IsCompleted(con, g, stream[i].event.eventId)
            || (stream[i].event.target.Some? && stream[i].event.target.value != g)))
  }

  ghost predicate EffectInv(con: Con) {
    forall g, e :: multiset(con.effects)[(g, e)] == if IsCompleted(con, g, e) then 1 else 0
  }

  ghost predicate KeyInv(con: Con, payloads: map<EventId, Payload>) {
    forall ge | ge in con.keys :: ge.1 in payloads && con.keys[ge].hash == payloads[ge.1]
  }

  ghost predicate TaskInv(con: Con, stream: seq<Msg>, task: Task) {
    && task.index < |stream|
    && (task.phase.CanAck? ==> Accounted(con, stream, task.group, task.index))
    && (task.phase.Holding? || task.phase.Failing? || task.phase.Refused? || task.phase.Unclaimed? ==>
        ForGroup(stream[task.index], task.group))
  }

  ghost predicate ConInv(con: Con, stream: seq<Msg>, payloads: map<EventId, Payload>) {
    && EffectInv(con) && KeyInv(con, payloads)
    && (forall k | k in con.tasks :: TaskInv(con, stream, con.tasks[k]))
    && (forall a | a in con.acked :: a.1 < |stream| && Accounted(con, stream, a.0, a.1))
  }

  // Completed keys and dead letters stay, so reasons to acknowledge stay.
  ghost predicate Keeps(con: Con, next: Con) {
    && (forall g, e | IsCompleted(con, g, e) :: IsCompleted(next, g, e))
    && (forall at | at in con.dlq :: at in next.dlq)
  }

  lemma AccountedStays(con: Con, next: Con, stream: seq<Msg>, more: seq<Msg>)
    requires Keeps(con, next) && stream <= more
    ensures forall g, i: nat | i < |stream| && Accounted(con, stream, g, i) :: Accounted(next, more, g, i)
  {
    assert forall i: nat | i < |stream| :: more[i] == stream[i];
  }

  // Putting a new key that is not completed over one that was not.
  lemma KeyWritten(con: Con, g: Group, e: EventId, key: Idempotency.Key, payloads: map<EventId, Payload>)
    requires EffectInv(con) && KeyInv(con, payloads) && !IsCompleted(con, g, e) && !key.Completed?
    requires e in payloads && key.hash == payloads[e]
    ensures var c := WithKey(con, g, e, Some(key)); EffectInv(c) && KeyInv(c, payloads) && Keeps(con, c)
  {}

  lemma KeyCompleted(con: Con, g: Group, e: EventId, key: Idempotency.Key, payloads: map<EventId, Payload>)
    requires EffectInv(con) && KeyInv(con, payloads) && !IsCompleted(con, g, e) && key.Completed?
    requires e in payloads && key.hash == payloads[e]
    ensures var c := WithKey(con, g, e, Some(key)).(effects := con.effects + [(g, e)]);
            EffectInv(c) && KeyInv(c, payloads) && Keeps(con, c) && IsCompleted(c, g, e)
  {
    var c := WithKey(con, g, e, Some(key)).(effects := con.effects + [(g, e)]);
    assert multiset(c.effects) == multiset(con.effects) + multiset{(g, e)};
  }

  // A step that leaves keys and effects to the lemmas above and moves one task.
  lemma TaskMoves(con: Con, mid: Con, stream: seq<Msg>, payloads: map<EventId, Payload>, k: TaskId, p: Phase)
    requires ConInv(con, stream, payloads) && k in con.tasks && Keeps(con, mid)
    requires EffectInv(mid) && KeyInv(mid, payloads) && mid.tasks == con.tasks && mid.acked == con.acked
    requires TaskInv(mid, stream, con.tasks[k].(phase := p))
    ensures ConInv(InPhase(mid, k, p), stream, payloads)
  {
    AccountedStays(con, mid, stream, stream);
    var c := InPhase(mid, k, p);
    forall j | j in c.tasks ensures TaskInv(c, stream, c.tasks[j]) {
      if j != k { assert TaskInv(con, stream, con.tasks[j]); }
    }
  }

  // The event of a decodable message is known, with its payload.
  lemma MessageKnown(y: System, i: nat)
    requires SourceInv(y) && i < |y.stream| && y.stream[i].Msg?
    ensures var e := y.stream[i].event; e.eventId in y.payloads && y.payloads[e.eventId] == e.payload
  {
    assert MsgInv(y.out.events, y.stream[i]);
  }

  lemma ClaimHolds(y: System, k: TaskId, lease: Token, now: Time, ttl: nat)
    requires SourceInv(y) && ConInv(y.con, y.stream, y.payloads) && k in y.con.tasks
             && y.con.tasks[k].index < |y.stream|
    ensures ConInv(TaskStep(y.con, y.stream, k, ClaimKey(k, lease, now, ttl)), y.stream, y.payloads)
  {
    var task := y.con.tasks[k];
    var g, m := task.group, y.stream[task.index];
    if task.phase.Fresh? && ForGroup(m, g) {
      MessageKnown(y, task.index);
      var after := Idempotency.Upsert(KeyOf(y.con, g, m), m.event.payload, lease, now, ttl);
      if after.Some? {
        KeyWritten(y.con, g, m.event.eventId, after.value, y.payloads);
      }
      TaskMoves(y.con, WithKey(y.con, g, m.event.eventId, after), y.stream, y.payloads, k,
                if after.Some? then Holding(lease) else Refused);
    }
  }

  lemma FailClaimHolds(y: System, k: TaskId, written: bool, lease: Token, now: Time, ttl: nat)
    requires SourceInv(y) && ConInv(y.con, y.stream, y.payloads) && k in y.con.tasks
             && y.con.tasks[k].index < |y.stream|
    ensures ConInv(TaskStep(y.con, y.stream, k, FailClaim(k, written, lease, now, ttl)), y.stream, y.payloads)
  {
    var task := y.con.tasks[k];
    var g, m := task.group, y.stream[task.index];
    assert TaskInv(y.con, y.stream, task);
    if task.phase.Fresh? && ForGroup(m, g) {
      MessageKnown(y, task.index);
      var after := if written then Idempotency.Upsert(KeyOf(y.con, g, m), m.event.payload, lease, now, ttl) else None;
      if after.Some? {
        KeyWritten(y.con, g, m.event.eventId, after.value, y.payloads);
      }
      TaskMoves(y.con, WithKey(y.con, g, m.event.eventId, after), y.stream, y.payloads, k, Unclaimed);
    } else if task.phase.Refused? {
      TaskMoves(y.con, y.con, y.stream, y.payloads, k, Unclaimed);
    }
  }

  lemma CommitHolds(y: System, k: TaskId, told: bool)
    requires SourceInv(y) && ConInv(y.con, y.stream, y.payloads) && k in y.con.tasks
             && y.con.tasks[k].index < |y.stream|
    ensures ConInv(TaskStep(y.con, y.stream, k, Commit(k, told)), y.stream, y.payloads)
  {
    var task := y.con.tasks[k];
    var g, m := task.group, y.stream[task.index];
    if task.phase.Holding? && m.Msg? {
      MessageKnown(y, task.index);
      var after := Idempotency.Complete(KeyOf(y.con, g, m), task.phase.lease);
      if after.Some? {
        KeyCompleted(y.con, g, m.event.eventId, after.value, y.payloads);
        TaskMoves(y.con, WithKey(y.con, g, m.event.eventId, after).(effects := y.con.effects + [(g, m.event.eventId)]),
                  y.stream, y.payloads, k, if told then CanAck else Failing(task.phase.lease));
      } else {
        TaskMoves(y.con, y.con, y.stream, y.payloads, k, Gone);
      }
    }
  }

  lemma LetGoHolds(y: System, k: TaskId, released: bool, now: Time, p: Phase)
    requires SourceInv(y) && ConInv(y.con, y.stream, y.payloads) && k in y.con.tasks
             && y.con.tasks[k].index < |y.stream|
    requires p == Fresh || p == Doomed
    ensures ConInv(InPhase(LetGo(y.con, y.stream, k, released, now), k, p), y.stream, y.payloads)
  {
    var task := y.con.tasks[k];
    var g, m := task.group, y.stream[task.index];
    if released && task.phase.Failing? && m.Msg? {
      MessageKnown(y, task.index);
      var after := Idempotency.Release(KeyOf(y.con, g, m), task.phase.lease, now);
      if after.Some? { KeyWritten(y.con, g, m.event.eventId, after.value, y.payloads); }
    }
    TaskMoves(y.con, LetGo(y.con, y.stream, k, released, now), y.stream, y.payloads, k, p);
  }

  lemma InspectHolds(y: System, k: TaskId)
    requires SourceInv(y) && ConInv(y.con, y.stream, y.payloads) && k in y.con.tasks
             && y.con.tasks[k].index < |y.stream|
    ensures ConInv(TaskStep(y.con, y.stream, k, Inspect(k)), y.stream, y.payloads)
  {
    var task := y.con.tasks[k];
    var m := y.stream[task.index];
    if task.phase.Refused? && m.Msg? {
      var p := match Idempotency.Inspect(KeyOf(y.con, task.group, m), m.event.payload)
               case AlreadyCompleted => CanAck
               case PayloadMismatch => Doomed
               case _ => Gone;
      TaskMoves(y.con, y.con, y.stream, y.payloads, k, p);
    }
  }

  lemma InsertDeadHolds(y: System, k: TaskId, replayable: bool)
    requires SourceInv(y) && ConInv(y.con, y.stream, y.payloads) && k in y.con.tasks
             && y.con.tasks[k].index < |y.stream|
    ensures ConInv(TaskStep(y.con, y.stream, k, InsertDead(k, replayable)), y.stream, y.payloads)
  {
    var task := y.con.tasks[k];
    var m, at := y.stream[task.index], (task.group, task.index);
    if task.phase.Doomed? || (task.phase.Fresh? && m.Corrupt?) {
      var dlq := if at in y.con.dlq then y.con.dlq else y.con.dlq[at := DeadLetter(m, replayable && m.Msg?, None)];
      TaskMoves(y.con, y.con.(dlq := dlq), y.stream, y.payloads, k, CanAck);
    }
  }

  lemma AckHolds(y: System, k: TaskId)
    requires ConInv(y.con, y.stream, y.payloads) && k in y.con.tasks && y.con.tasks[k].index < |y.stream|
    ensures ConInv(TaskStep(y.con, y.stream, k, Ack(k)), y.stream, y.payloads)
  {
    var task := y.con.tasks[k];
    if task.phase.CanAck? {
      TaskMoves(y.con, y.con, y.stream, y.payloads, k, Gone);
      assert TaskInv(y.con, y.stream, task);
      var c := InPhase(y.con, k, Gone);
      assert TaskStep(y.con, y.stream, k, Ack(k)) == c.(acked := c.acked + {(task.group, task.index)});
    }
  }

  lemma PhaseHolds(y: System, k: TaskId, a: ConAction)
    requires ConInv(y.con, y.stream, y.payloads) && k in y.con.tasks && y.con.tasks[k].index < |y.stream|
    requires a.Skip? || a.FailHandler? || a.Leave?
    ensures ConInv(TaskStep(y.con, y.stream, k, a), y.stream, y.payloads)
  {
    var task := y.con.tasks[k];
    assert TaskInv(y.con, y.stream, task);
    if a.Skip? && task.phase.Fresh? && y.stream[task.index].Msg? && !ForGroup(y.stream[task.index], task.group) {
      TaskMoves(y.con, y.con, y.stream, y.payloads, k, CanAck);
    } else if a.FailHandler? && task.phase.Holding? {
      TaskMoves(y.con, y.con, y.stream, y.payloads, k, Failing(task.phase.lease));
    } else if a.Leave? {
      TaskMoves(y.con, y.con, y.stream, y.payloads, k, Gone);
    }
  }

  lemma TaskStepHolds(y: System, k: TaskId, a: ConAction)
    requires SourceInv(y) && ConInv(y.con, y.stream, y.payloads) && k in y.con.tasks
             && y.con.tasks[k].index < |y.stream| && !a.Begin? && a.k == k
    ensures ConInv(TaskStep(y.con, y.stream, k, a), y.stream, y.payloads)
  {
    match a
    case ClaimKey(_, lease, now, ttl) => ClaimHolds(y, k, lease, now, ttl);
    case FailClaim(_, written, lease, now, ttl) => FailClaimHolds(y, k, written, lease, now, ttl);
    case Inspect(_) => InspectHolds(y, k);
    case Commit(_, told) => CommitHolds(y, k, told);
    case Retry(_, released, now) => LetGoHolds(y, k, released, now, Fresh);
    case GiveUp(_, released, now) => LetGoHolds(y, k, released, now, Doomed);
    case InsertDead(_, replayable) => InsertDeadHolds(y, k, replayable);
    case Ack(_) => AckHolds(y, k);
    case _ => PhaseHolds(y, k, a);
  }

  lemma ConStepHolds(y: System, a: ConAction)
    requires SourceInv(y) && ConInv(y.con, y.stream, y.payloads)
    ensures ConInv(ConStep(y.con, y.stream, a), y.stream, y.payloads)
  {
    if !a.Begin? && a.k in y.con.tasks && y.con.tasks[a.k].index < |y.stream| {
      TaskStepHolds(y, a.k, a);
    }
  }

  // ---------------------------------------------------------------- every step, every run

  ghost predicate Inv(cfg: Config, y: System) {
    OutInv(cfg, y.out, y.stream) && SourceInv(y) && ConInv(y.con, y.stream, y.payloads)
  }

  // More events, payloads and messages leave the consumers' invariant alone.
  lemma ConInvGrows(con: Con, stream: seq<Msg>, more: seq<Msg>, payloads: map<EventId, Payload>,
                    morePayloads: map<EventId, Payload>)
    requires ConInv(con, stream, payloads) && stream <= more
    requires forall e | e in payloads :: e in morePayloads && morePayloads[e] == payloads[e]
    ensures ConInv(con, more, morePayloads)
  {
    AccountedStays(con, con, stream, more);
    forall k | k in con.tasks ensures TaskInv(con, more, con.tasks[k]) {
      assert TaskInv(con, stream, con.tasks[k]) && more[con.tasks[k].index] == stream[con.tasks[k].index];
    }
  }

  lemma CreateHolds(cfg: Config, y: System, id: RowId, payload: Payload, now: Time)
    requires Inv(cfg, y)
    ensures Inv(cfg, Step(cfg, y, Create(id, payload, now)))
  {
    if id !in y.out.rows {
      assert id !in y.payloads;
      NewRowHolds(cfg, y.out, y.stream, id, Event(id, payload, None), now);
      SourceCreated(y.out.events, y.payloads, y.stream, y.con.dlq, id, payload);
      ConInvGrows(y.con, y.stream, y.stream, y.payloads, y.payloads[id := payload]);
    }
  }

  // Marking a dead letter as replayed changes no reason to acknowledge.
  lemma ReplayedStillDead(con: Con, stream: seq<Msg>, payloads: map<EventId, Payload>, at: (Group, nat), d: DeadLetter)
    requires ConInv(con, stream, payloads) && at in con.dlq
    ensures ConInv(con.(dlq := con.dlq[at := d]), stream, payloads)
  {
    var c := con.(dlq := con.dlq[at := d]);
    AccountedStays(con, c, stream, stream);
    forall k | k in c.tasks ensures TaskInv(c, stream, c.tasks[k]) {
      assert TaskInv(con, stream, con.tasks[k]);
    }
  }

  lemma ReplayHolds(cfg: Config, y: System, g: Group, i: nat, id: RowId, now: Time)
    requires Inv(cfg, y)
    ensures Inv(cfg, Step(cfg, y, Replay(g, i, id, now)))
  {
    if id !in y.out.rows && (g, i) in y.con.dlq && y.con.dlq[(g, i)].msg.Msg? {
      var d := y.con.dlq[(g, i)];
      var e := Event(d.msg.event.eventId, d.msg.event.payload, Some(g));
      var out, con := NewRow(y.out, id, e, now), y.con.(dlq := y.con.dlq[(g, i) := d.(replayedAs := Some(id))]);
      assert OutInv(cfg, out, y.stream) by { NewRowHolds(cfg, y.out, y.stream, id, e, now); }
      assert SourceOf(out.events, y.payloads, y.stream, con.dlq) by {
        SourceReplayed(y.out.events, y.payloads, y.stream, y.con.dlq, (g, i), id);
      }
      assert ConInv(con, y.stream, y.payloads) by {
        ReplayedStillDead(y.con, y.stream, y.payloads, (g, i), d.(replayedAs := Some(id)));
      }
    }
  }

  lemma ForeignHolds(cfg: Config, y: System)
    requires Inv(cfg, y)
    ensures Inv(cfg, Step(cfg, y, Foreign))
  {
    LongerStream(cfg, y.out, y.stream, y.stream + [Corrupt]);
    SourceAppended(y.out.events, y.payloads, y.stream, y.con.dlq, Corrupt);
    ConInvGrows(y.con, y.stream, y.stream + [Corrupt], y.payloads, y.payloads);
  }

  lemma RelaySource(cfg: Config, y: System, a: RelayAction)
    requires SourceInv(y)
    ensures var (o, s) := RelayStep(cfg, y.out, y.stream, a);
            o.events == y.out.events && SourceOf(o.events, y.payloads, s, y.con.dlq)
  {
    var (o, s) := RelayStep(cfg, y.out, y.stream, a);
    if s != y.stream {
      SourceAppended(y.out.events, y.payloads, y.stream, y.con.dlq, Msg(a.id, y.out.events[a.id]));
    }
  }

  lemma RelaysHold(cfg: Config, y: System, a: RelayAction)
    requires Inv(cfg, y)
    ensures Inv(cfg, Step(cfg, y, Relays(a)))
  {
    var (o, s) := RelayStep(cfg, y.out, y.stream, a);
    RelayHolds(cfg, y.out, y.stream, a);
    RelaySource(cfg, y, a);
    ConInvGrows(y.con, y.stream, s, y.payloads, y.payloads);
  }

  // Only a dead-lettered message changes the dead-letter table.
  lemma OnlyBurialWrites(con: Con, stream: seq<Msg>, a: ConAction)
    ensures var c := ConStep(con, stream, a);
            c.dlq == con.dlq
            || (a.InsertDead? && a.k in con.tasks && con.tasks[a.k].index < |stream|
                && var task := con.tasks[a.k];
                   c.dlq == con.dlq[(task.group, task.index) :=
                     DeadLetter(stream[task.index], a.replayable && stream[task.index].Msg?, None)])
  {}

  lemma ConsumeSource(y: System, a: ConAction)
    requires SourceInv(y)
    ensures SourceOf(y.out.events, y.payloads, y.stream, ConStep(y.con, y.stream, a).dlq)
  {
    OnlyBurialWrites(y.con, y.stream, a);
    if ConStep(y.con, y.stream, a).dlq != y.con.dlq {
      var task := y.con.tasks[a.k];
      SourceBuried(y.out.events, y.payloads, y.stream, y.con.dlq, (task.group, task.index),
                   a.replayable && y.stream[task.index].Msg?);
    }
  }

  lemma ConsumesHold(cfg: Config, y: System, a: ConAction)
    requires Inv(cfg, y)
    ensures Inv(cfg, Step(cfg, y, Consumes(a)))
  {
    ConStepHolds(y, a);
    ConsumeSource(y, a);
  }

  lemma StepHolds(cfg: Config, y: System, a: Action)
    requires Inv(cfg, y)
    ensures Inv(cfg, Step(cfg, y, a))
  {
    match a
    case Create(id, payload, now) => CreateHolds(cfg, y, id, payload, now);
    case Replay(g, i, id, now) => ReplayHolds(cfg, y, g, i, id, now);
    case Foreign => ForeignHolds(cfg, y);
    case Relays(r) => RelaysHold(cfg, y, r);
    case Consumes(c) => ConsumesHold(cfg, y, c);
  }

  lemma {:induction false} RunHolds(cfg: Config, actions: seq<Action>)
    ensures Inv(cfg, Run(cfg, actions))
  {
    if actions != [] {
      RunHolds(cfg, actions[..|actions|-1]);
      StepHolds(cfg, Run(cfg, actions[..|actions|-1]), actions[|actions|-1]);
    }
  }

  // Over every run with redeliveries, lost leases, lost answers, crashes and replays: at most one
  // effect commits per group and event, and one has exactly when the key is completed.
  lemma AtMostOneEffect(cfg: Config, actions: seq<Action>, g: Group, e: EventId)
    ensures var con := Run(cfg, actions).con;
            multiset(con.effects)[(g, e)] <= 1 && ((g, e) in con.effects <==> IsCompleted(con, g, e))
  {
    RunHolds(cfg, actions);
    var con := Run(cfg, actions).con;
    assert (g, e) in con.effects <==> (g, e) in multiset(con.effects);
  }

  // No silent loss: a message is acknowledged only when its key is completed, its dead letter is stored
  // or it is for another group; and what was dead-lettered and replayed has a row that publishes the same
  // event, payload and all, to that group.
  lemma AcknowledgedIsAccounted(cfg: Config, actions: seq<Action>)
    ensures var y := Run(cfg, actions);
            && (forall a | a in y.con.acked :: a.1 < |y.stream| && Accounted(y.con, y.stream, a.0, a.1))
            && (forall at | at in y.con.dlq :: DeadInv(y.out.events, y.stream, at, y.con.dlq[at]))
            && (forall j | 0 <= j < |y.stream| :: MsgInv(y.out.events, y.stream[j]))
  {
    RunHolds(cfg, actions);
  }

  // Over every run, no message meets a key of another payload, so no claim is refused for that.
  lemma NoPayloadMismatch(cfg: Config, actions: seq<Action>, g: Group, i: nat)
    requires i < |Run(cfg, actions).stream| && Run(cfg, actions).stream[i].Msg?
    ensures var y := Run(cfg, actions);
            Idempotency.Inspect(KeyOf(y.con, g, y.stream[i]), y.stream[i].event.payload) != Idempotency.PayloadMismatch
  {
    RunHolds(cfg, actions);
    MessageKnown(Run(cfg, actions), i);
  }

  // The outbox over any number of relays: a claim implies pending; processed implies published; failed
  // implies the maximum of recorded failures, each of an event its relay saw rejected; every pending
  // event can be claimed once its availability passes, at most a lease or the longest backoff after it
  // was last written.
  lemma OutboxSafe(cfg: Config, actions: seq<Action>, id: RowId)
    requires id in Run(cfg, actions).out.rows
    ensures var y := Run(cfg, actions);
            var r := y.out.rows[id];
            && id in y.out.touched && (r.claim.Some? ==> r.status == Outbox.Pending)
            && (r.status == Outbox.Processed ==> Published(y.stream, id))
            && r.retryCount == TimesCharged(y.out.charged, id)
            && (r.status == Outbox.Failed ==> r.retryCount >= cfg.maxAttempts)
            && (forall j | 0 <= j < |y.out.charged| ::
                  y.out.charged[j].1 in y.out.relays && y.out.charged[j].0 in y.out.relays[y.out.charged[j].1].rejected)
            && (r.status == Outbox.Pending ==>
                  forall now: Time | now >= y.out.touched[id] + Max(cfg.lease, cfg.maxBackoff) ::
                    Outbox.Claimable(r, now))
  {
    RunHolds(cfg, actions);
    assert RowInv(cfg, Run(cfg, actions).out.rows[id], id, Run(cfg, actions).out.charged,
                  Run(cfg, actions).out.touched[id], Run(cfg, actions).stream);
  }

  // A settled row stays as it is for the rest of every run.
  lemma {:induction false} SettledForGood(cfg: Config, actions: seq<Action>, m: nat, id: RowId)
    requires m <= |actions| && id in Run(cfg, actions[..m]).out.rows
             && Run(cfg, actions[..m]).out.rows[id].status != Outbox.Pending
    ensures id in Run(cfg, actions).out.rows && Run(cfg, actions).out.rows[id] == Run(cfg, actions[..m]).out.rows[id]
  {
    if m == |actions| {
      assert actions[..m] == actions;
    } else {
      var init := actions[..|actions|-1];
      assert init[..m] == actions[..m];
      SettledForGood(cfg, init, m, id);
      RunHolds(cfg, init);
      SettledStays(cfg, Run(cfg, init), actions[|actions|-1], id);
    }
  }

  // ---------------------------------------------------------------- nothing is stuck

  lemma RunOneMore(cfg: Config, actions: seq<Action>, more: seq<Action>, y: System, z: System, a: Action)
    requires y == Run(cfg, actions + more) && z == Step(cfg, y, a)
    ensures Run(cfg, actions + (more + [a])) == z
  {
    var all := actions + (more + [a]);
    assert all[..|all|-1] == actions + more && all[|all|-1] == a;
  }

  lemma RunThree(cfg: Config, actions: seq<Action>, y1: System, y2: System, y3: System, a: Action, b: Action,
                 c: Action)
    requires y1 == Step(cfg, Run(cfg, actions), a) && y2 == Step(cfg, y1, b) && y3 == Step(cfg, y2, c)
    ensures Run(cfg, actions + [a, b, c]) == y3
  {
    assert actions + [] == actions && [] + [a] == [a] && [a] + [b] == [a, b] && [a, b] + [c] == [a, b, c];
    RunOneMore(cfg, actions, [], Run(cfg, actions), y1, a);
    RunOneMore(cfg, actions, [a], y1, y2, b);
    RunOneMore(cfg, actions, [a, b], y2, y3, c);
  }

  lemma ClaimedByOne(cfg: Config, y: System, id: RowId, t: Token, now: Time) returns (z: System)
    requires id in y.out.rows && Outbox.Claimable(y.out.rows[id], now) && t !in y.out.relays
    ensures z == Step(cfg, y, Relays(Claim(t, {id}, now)))
    ensures id in z.out.rows && z.out.rows[id].claim == Some(t) && t in z.out.relays
            && z.out.relays[t] == Relay({id}, {}, {}) && z.out.events == y.out.events
    ensures z.stream == y.stream && z.con == y.con
  {
    z := Step(cfg, y, Relays(Claim(t, {id}, now)));
  }

  lemma PublishedOnce(cfg: Config, y: System, id: RowId, t: Token) returns (z: System)
    requires t in y.out.relays && id in y.out.relays[t].claimed && id in y.out.events
    ensures z == Step(cfg, y, Relays(Publish(t, id, Sent, true)))
    ensures z.out.rows == y.out.rows && t in z.out.relays && id in z.out.relays[t].sent
    ensures z.stream == y.stream + [Msg(id, y.out.events[id])] && z.con == y.con
  {
    z := Step(cfg, y, Relays(Publish(t, id, Sent, true)));
  }

  lemma MarkedOnce(cfg: Config, y: System, id: RowId, t: Token) returns (z: System)
    requires id in y.out.rows && y.out.rows[id].claim == Some(t) && t in y.out.relays && id in y.out.relays[t].sent
    ensures z == Step(cfg, y, Relays(Mark(t, {id})))
    ensures id in z.out.rows && z.out.rows[id].status == Outbox.Processed && z.stream == y.stream && z.con == y.con
  {
    z := Step(cfg, y, Relays(Mark(t, {id})));
  }

  // In every reachable state an outbox row that waits can still be published and processed, by any new relay,
  // from the time its last lease or backoff is over.
  lemma WaitingCanBePublished(cfg: Config, actions: seq<Action>, id: RowId, t: Token, now: Time)
    returns (more: seq<Action>)
    requires var out := Run(cfg, actions).out;
             && id in out.rows && out.rows[id].status == Outbox.Pending && id in out.touched && t !in out.relays
             && now >= out.touched[id] + Max(cfg.lease, cfg.maxBackoff)
    ensures var y, z := Run(cfg, actions), Run(cfg, actions + more);
            && id in z.out.rows && z.out.rows[id].status == Outbox.Processed && z.con == y.con
            && id in y.out.events && z.stream == y.stream + [Msg(id, y.out.events[id])]
  {
    OutboxSafe(cfg, actions, id);
    var y := Run(cfg, actions);
    assert id in y.out.events by { RunHolds(cfg, actions); }
    var y1 := ClaimedByOne(cfg, y, id, t, now);
    var y2 := PublishedOnce(cfg, y1, id, t);
    var y3 := MarkedOnce(cfg, y2, id, t);
    more := [Relays(Claim(t, {id}, now)), Relays(Publish(t, id, Sent, true)), Relays(Mark(t, {id}))];
    RunThree(cfg, actions, y1, y2, y3, more[0], more[1], more[2]);
  }

  // A task that takes up a message for its group.
  lemma Begun(cfg: Config, y: System, g: Group, i: nat, k: TaskId) returns (z: System)
    requires i < |y.stream| && (g, i) !in y.con.acked && k !in y.con.tasks
    ensures z == Step(cfg, y, Consumes(Begin(k, g, i)))
    ensures k in z.con.tasks && z.con.tasks[k] == Task(g, i, Fresh) && z.stream == y.stream
            && z.con.keys == y.con.keys && z.con.effects == y.con.effects
  {
    z := Step(cfg, y, Consumes(Begin(k, g, i)));
  }

  lemma KeyClaimed(cfg: Config, y: System, g: Group, i: nat, k: TaskId, lease: Token, now: Time) returns (z: System)
    requires i < |y.stream| && y.stream[i].Msg? && k in y.con.tasks && y.con.tasks[k] == Task(g, i, Fresh)
    requires var e := y.stream[i].event;
             && (e.target.None? || e.target.value == g)
             && ((g, e.eventId) in y.con.keys ==>
                   y.con.keys[(g, e.eventId)].hash == e.payload
                   && (y.con.keys[(g, e.eventId)].InProgress? ==> y.con.keys[(g, e.eventId)].expires <= now))
    ensures z == Step(cfg, y, Consumes(ClaimKey(k, lease, now, 1)))
    ensures var e := y.stream[i].event;
            && k in z.con.tasks && z.stream == y.stream && z.con.effects == y.con.effects
            && (g, e.eventId) in z.con.keys && z.con.keys[(g, e.eventId)].hash == e.payload
            && if IsCompleted(y.con, g, e.eventId)
               then z.con.tasks[k] == Task(g, i, Refused) && IsCompleted(z.con, g, e.eventId)
               else z.con.tasks[k] == Task(g, i, Holding(lease))
                    && Idempotency.HeldBy(Some(z.con.keys[(g, e.eventId)]), lease)
  {
    z := Step(cfg, y, Consumes(ClaimKey(k, lease, now, 1)));
  }

  lemma Settled(cfg: Config, y: System, g: Group, i: nat, k: TaskId, lease: Token) returns (a: Action, z: System)
    requires i < |y.stream| && y.stream[i].Msg? && k in y.con.tasks
    requires var e := y.stream[i].event;
             && (g, e.eventId) in y.con.keys && y.con.keys[(g, e.eventId)].hash == e.payload
             && if IsCompleted(y.con, g, e.eventId)
                then y.con.tasks[k] == Task(g, i, Refused) && (g, e.eventId) in y.con.effects
                else y.con.tasks[k] == Task(g, i, Holding(lease))
                     && Idempotency.HeldBy(Some(y.con.keys[(g, e.eventId)]), lease)
    ensures z == Step(cfg, y, a)
    ensures k in z.con.tasks && z.con.tasks[k] == Task(g, i, CanAck) && z.stream == y.stream
            && (g, y.stream[i].event.eventId) in z.con.effects
  {
    a := Consumes(if IsCompleted(y.con, g, y.stream[i].event.eventId) then Inspect(k) else Commit(k, true));
    z := Step(cfg, y, a);
  }

  lemma Acknowledged(cfg: Config, y: System, g: Group, i: nat, k: TaskId) returns (z: System)
    requires i < |y.stream| && k in y.con.tasks && y.con.tasks[k] == Task(g, i, CanAck)
    ensures z == Step(cfg, y, Consumes(Ack(k))) && (g, i) in z.con.acked && z.con.effects == y.con.effects
    ensures z.con.dlq == y.con.dlq
  {
    z := Step(cfg, y, Consumes(Ack(k)));
  }

  // In every reachable state a message not yet acknowledged can still be handled by the group it is for, once
  // the lease on its key, if any, is over: its effect is in and it is acknowledged.
  lemma MessageCanBeHandled(cfg: Config, actions: seq<Action>, g: Group, i: nat, k: TaskId, lease: Token, now: Time)
    returns (more: seq<Action>)
    requires i < |Run(cfg, actions).stream| && Run(cfg, actions).stream[i].Msg?
    requires var con, e := Run(cfg, actions).con, Run(cfg, actions).stream[i].event;
             && (e.target.None? || e.target.value == g) && (g, i) !in con.acked && k !in con.tasks
             && ((g, e.eventId) in con.keys && con.keys[(g, e.eventId)].InProgress? ==>
                   con.keys[(g, e.eventId)].expires <= now)
    ensures var con, e := Run(cfg, actions + more).con, Run(cfg, actions).stream[i].event;
            (g, i) in con.acked && (g, e.eventId) in con.effects
  {
    var y := Run(cfg, actions);
    HashIsPayload(cfg, actions, g, i);
    AtMostOneEffect(cfg, actions, g, y.stream[i].event.eventId);
    var y1 := Begun(cfg, y, g, i, k);
    var y2 := KeyClaimed(cfg, y1, g, i, k, lease, now);
    var c, y3 := Settled(cfg, y2, g, i, k, lease);
    var y4 := Acknowledged(cfg, y3, g, i, k);
    more := [Consumes(Begin(k, g, i)), Consumes(ClaimKey(k, lease, now, 1)), c];
    RunThree(cfg, actions, y1, y2, y3, more[0], more[1], more[2]);
    RunOneMore(cfg, actions, more, y3, y4, Consumes(Ack(k)));
    more := more + [Consumes(Ack(k))];
  }

  lemma HashIsPayload(cfg: Config, actions: seq<Action>, g: Group, i: nat)
    requires i < |Run(cfg, actions).stream| && Run(cfg, actions).stream[i].Msg?
    ensures var con, e := Run(cfg, actions).con, Run(cfg, actions).stream[i].event;
            (g, e.eventId) in con.keys ==> con.keys[(g, e.eventId)].hash == e.payload
  {
    RunHolds(cfg, actions);
    MessageKnown(Run(cfg, actions), i);
  }

  lemma ReplayedOnce(cfg: Config, actions: seq<Action>, g: Group, i: nat, id: RowId, now: Time) returns (z: System)
    requires var y := Run(cfg, actions);
             && (g, i) in y.con.dlq && y.con.dlq[(g, i)].replayable && y.con.dlq[(g, i)].replayedAs.None?
             && y.con.dlq[(g, i)].msg.Msg? && id !in y.out.rows
    ensures var y, e := Run(cfg, actions), Run(cfg, actions).con.dlq[(g, i)].msg.event;
            && z == Run(cfg, actions + [Replay(g, i, id, now)])
            && z.stream == y.stream && z.con.keys == y.con.keys && z.con.acked == y.con.acked
            && z.con.tasks == y.con.tasks
            && z.out.relays == y.out.relays && id in z.out.rows && z.out.rows[id].status == Outbox.Pending
            && id in z.out.touched && z.out.touched[id] == now && id in z.out.events
            && z.out.events[id] == Event(e.eventId, e.payload, Some(g))
  {
    z := Step(cfg, Run(cfg, actions), Replay(g, i, id, now));
    assert (actions + [Replay(g, i, id, now)])[..|actions|] == actions;
  }

  lemma UnreadIsUnacked(cfg: Config, actions: seq<Action>, g: Group)
    ensures (g, |Run(cfg, actions).stream|) !in Run(cfg, actions).con.acked
  {
    RunHolds(cfg, actions);
  }

  // A row that waits, for one group or all, can be published and then handled by the group.
  lemma WaitingCanBeHandled(cfg: Config, actions: seq<Action>, g: Group, id: RowId, t: Token, k: TaskId, lease: Token,
                            now: Time, later: Time)
    returns (more: seq<Action>)
    requires var y := Run(cfg, actions);
             && id in y.out.rows && y.out.rows[id].status == Outbox.Pending && id in y.out.touched
             && t !in y.out.relays && later >= y.out.touched[id] + Max(cfg.lease, cfg.maxBackoff)
             && id in y.out.events && (y.out.events[id].target.None? || y.out.events[id].target.value == g)
             && k !in y.con.tasks
             && var ge := (g, y.out.events[id].eventId);
                ge in y.con.keys && y.con.keys[ge].InProgress? ==> y.con.keys[ge].expires <= now
    ensures (g, Run(cfg, actions).out.events[id].eventId) in Run(cfg, actions + more).con.effects
  {
    UnreadIsUnacked(cfg, actions, g);
    var n := |Run(cfg, actions).stream|;
    var publish := WaitingCanBePublished(cfg, actions, id, t, later);
    assert Run(cfg, actions + publish).stream[n] == Msg(id, Run(cfg, actions).out.events[id]);
    var handle := MessageCanBeHandled(cfg, actions + publish, g, n, k, lease, now);
    more := publish + handle;
    assert actions + more == actions + publish + handle;
  }

  // No dead letter that can be replayed is lost: from every reachable state its replay, published and handled,
  // puts in the effect of the event for the group that gave it up.
  lemma DeadLetterCanBeRecovered(cfg: Config, actions: seq<Action>, g: Group, i: nat, id: RowId, t: Token, k: TaskId,
                                 lease: Token, now: Time)
    returns (more: seq<Action>)
    requires var y := Run(cfg, actions);
             && (g, i) in y.con.dlq && y.con.dlq[(g, i)].replayable && y.con.dlq[(g, i)].replayedAs.None?
             && y.con.dlq[(g, i)].msg.Msg? && id !in y.out.rows && t !in y.out.relays && k !in y.con.tasks
             && var ge := (g, y.con.dlq[(g, i)].msg.event.eventId);
                ge in y.con.keys && y.con.keys[ge].InProgress? ==> y.con.keys[ge].expires <= now
    ensures (g, Run(cfg, actions).con.dlq[(g, i)].msg.event.eventId) in Run(cfg, actions + more).con.effects
  {
    var y1 := ReplayedOnce(cfg, actions, g, i, id, now);
    var a := Replay(g, i, id, now);
    more := WaitingCanBeHandled(cfg, actions + [a], g, id, t, k, lease, now, now + Max(cfg.lease, cfg.maxBackoff));
    assert actions + ([a] + more) == actions + [a] + more;
    more := [a] + more;
  }

  // A handler that failed, or a claim that did, is tried again: released, its key can be claimed at once.
  lemma FailureCanBeRetried(cfg: Config, y: System, k: TaskId, lease: Token, now: Time)
    requires k in y.con.tasks && y.con.tasks[k].index < |y.stream|
    requires y.con.tasks[k].phase == Failing(lease) || y.con.tasks[k].phase == Unclaimed
    ensures var z, task := Step(cfg, y, Consumes(Retry(k, true, now))), y.con.tasks[k];
            && k in z.con.tasks && z.con.tasks[k] == Task(task.group, task.index, Fresh)
            && z.con.effects == y.con.effects
            && var m := y.stream[task.index];
               task.phase == Failing(lease) && m.Msg? && Idempotency.HeldBy(KeyOf(y.con, task.group, m), lease) ==>
                 KeyOf(z.con, task.group, m).Some? && KeyOf(z.con, task.group, m).value.InProgress?
                 && KeyOf(z.con, task.group, m).value.expires == now
  {}

  lemma GivenUp(cfg: Config, y: System, k: TaskId, now: Time) returns (z: System)
    requires k in y.con.tasks && y.con.tasks[k].index < |y.stream|
    requires y.con.tasks[k].phase.Failing? || y.con.tasks[k].phase == Unclaimed
    ensures z == Step(cfg, y, Consumes(GiveUp(k, true, now)))
    ensures k in z.con.tasks && z.con.tasks[k] == Task(y.con.tasks[k].group, y.con.tasks[k].index, Doomed)
            && z.stream == y.stream && z.con.effects == y.con.effects && z.con.dlq == y.con.dlq
  {
    z := Step(cfg, y, Consumes(GiveUp(k, true, now)));
  }

  lemma Buried(cfg: Config, y: System, g: Group, i: nat, k: TaskId) returns (z: System)
    requires i < |y.stream| && k in y.con.tasks && y.con.tasks[k] == Task(g, i, Doomed)
    ensures z == Step(cfg, y, Consumes(InsertDead(k, true))) && (g, i) in z.con.dlq
    ensures (g, i) !in y.con.dlq && y.stream[i].Msg? ==> z.con.dlq[(g, i)] == DeadLetter(y.stream[i], true, None)
    ensures k in z.con.tasks && z.con.tasks[k] == Task(g, i, CanAck) && z.stream == y.stream
            && z.con.effects == y.con.effects
  {
    z := Step(cfg, y, Consumes(InsertDead(k, true)));
  }

  lemma TriedIsMessage(cfg: Config, actions: seq<Action>, k: TaskId)
    requires var con := Run(cfg, actions).con;
             k in con.tasks && (con.tasks[k].phase.Failing? || con.tasks[k].phase == Unclaimed)
    ensures var y := Run(cfg, actions);
            y.con.tasks[k].index < |y.stream| && y.stream[y.con.tasks[k].index].Msg?
  {
    RunHolds(cfg, actions);
    assert TaskInv(Run(cfg, actions).con, Run(cfg, actions).stream, Run(cfg, actions).con.tasks[k]);
  }

  // From every reachable state a message whose claim or handler failed can be given up: its dead letter, the
  // message itself and open to replay, is stored, and it is acknowledged without an effect.
  lemma FailureCanBeBuried(cfg: Config, actions: seq<Action>, g: Group, i: nat, k: TaskId, now: Time)
    returns (more: seq<Action>)
    requires var y := Run(cfg, actions);
             && i < |y.stream| && k in y.con.tasks && y.con.tasks[k].group == g && y.con.tasks[k].index == i
             && (y.con.tasks[k].phase.Failing? || y.con.tasks[k].phase == Unclaimed)
             && (g, i) !in y.con.dlq
    ensures var y, z := Run(cfg, actions), Run(cfg, actions + more);
            && (g, i) in z.con.acked && z.con.effects == y.con.effects
            && (g, i) in z.con.dlq && z.con.dlq[(g, i)] == DeadLetter(y.stream[i], true, None)
  {
    TriedIsMessage(cfg, actions, k);
    var y := Run(cfg, actions);
    var y1 := GivenUp(cfg, y, k, now);
    var y2 := Buried(cfg, y1, g, i, k);
    var y3 := Acknowledged(cfg, y2, g, i, k);
    more := [Consumes(GiveUp(k, true, now)), Consumes(InsertDead(k, true)), Consumes(Ack(k))];
    RunThree(cfg, actions, y1, y2, y3, more[0], more[1], more[2]);
  }

  predicate ForOthers(y: System, task: Task) {
    task.index < |y.stream| && y.stream[task.index].Msg? && y.stream[task.index].event.target.Some?
    && y.stream[task.index].event.target.value != task.group
  }

  // Over every run a group claims no key, and runs no handler, for a message that is for another group.
  lemma OthersAreNotHandled(cfg: Config, actions: seq<Action>, k: TaskId)
    requires k in Run(cfg, actions).con.tasks && ForOthers(Run(cfg, actions), Run(cfg, actions).con.tasks[k])
    ensures var p := Run(cfg, actions).con.tasks[k].phase; !(p.Holding? || p.Failing? || p.Refused? || p.Unclaimed?)
  {
    RunHolds(cfg, actions);
    assert TaskInv(Run(cfg, actions).con, Run(cfg, actions).stream, Run(cfg, actions).con.tasks[k]);
  }

  // It is passed over: the task goes on to acknowledge it, and no key changes.
  lemma OthersArePassedOver(cfg: Config, y: System, k: TaskId)
    requires k in y.con.tasks && ForOthers(y, y.con.tasks[k]) && y.con.tasks[k].phase == Fresh
    ensures var z, task := Step(cfg, y, Consumes(Skip(k))), y.con.tasks[k];
            z.con == y.con.(tasks := y.con.tasks[k := Task(task.group, task.index, CanAck)])
  {}
}
