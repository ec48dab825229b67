// A page is decided and written exactly as if each of its records were a page of its own.
module BatchRefinement {
  import opened Prelude
  import opened Transition
  import opened Batch
  import opened ProductStore
  import opened FoldInvariant
  import opened GroupWrite
  import opened GroupCommit
  import opened PlanAppend
  import Sorting

  // What folding one record after `f` does to the snapshot `cur` reached so far.
  ghost predicate StepFrom(cur: Snapshot, next: Snapshot, versioned: bool) {
    next.productId == cur.productId && next.productSourceId == cur.productSourceId
    && (versioned ==> next.storedVersion.Some? && next.currentVersionId == Some(next.storedVersion.value.id))
    && (!versioned ==> SameVersion(cur, next))
  }

  lemma ComposesProduct(was: ProductRow, start: Option<Snapshot>, cur: Snapshot, next: Snapshot, before: bool,
                        after: bool, now: Time)
    requires StepFrom(cur, next, after)
    requires before ==> cur.storedVersion.Some? && cur.currentVersionId == Some(cur.storedVersion.value.id)
    requires !before ==> start.Some? && SameVersion(start.value, cur)
    ensures ProductAfter(ProductAfter(was, start, cur, before, now), Some(cur), next, after, now)
            == ProductAfter(was, start, next, before || after, now)
  {}

  lemma ComposesSource(was: SourceRow, start: Option<Snapshot>, cur: Snapshot, next: Snapshot, before: bool,
                       after: bool, id: Identity, now: Time)
    requires StepFrom(cur, next, after)
    requires start.None? ==> before
    ensures SourceAfter(SourceAfter(was, start, cur, before, id, now), Some(cur), next, after, id, now)
            == SourceAfter(was, start, next, before || after, id, now)
  {}

  lemma StepIsStepFrom(f: Fold, r: Record, now: Time)
    requires f.cur.Some?
    ensures var g := Step(f.cur, f.next, r, now);
            g.cur.Some? && StepFrom(f.cur.value, g.cur.value, g.added.versions != [])
  {}

  lemma OverwriteTwice<K, V>(a: map<K, V>, k: K, v: V, w: V)
    ensures a[k := v][k := w] == a[k := w]
  {}

  lemma ComposesRows(s: Store, f: Fold, g: Fold)
    ensures (s.versions + Index(f.added.versions, VersionKey)) + Index(g.added.versions, VersionKey)
            == s.versions + Index(Then(f, g).added.versions, VersionKey)
    ensures (s.changes + Index(f.added.changes, ChangeKey)) + Index(g.added.changes, ChangeKey)
            == s.changes + Index(Then(f, g).added.changes, ChangeKey)
    ensures (s.events + Index(f.added.events, EventKey)) + Index(g.added.events, EventKey)
            == s.events + Index(Then(f, g).added.events, EventKey)
  {
    IndexAppend(f.added.versions, g.added.versions, VersionKey);
    IndexAppend(f.added.changes, g.added.changes, ChangeKey);
    IndexAppend(f.added.events, g.added.events, EventKey);
    AddThenAdd(s.versions, Index(f.added.versions, VersionKey), Index(g.added.versions, VersionKey));
    AddThenAdd(s.changes, Index(f.added.changes, ChangeKey), Index(g.added.changes, ChangeKey));
    AddThenAdd(s.events, Index(f.added.events, EventKey), Index(g.added.events, EventKey));
  }

  lemma Composes(s: Store, id: Identity, start: Option<Snapshot>, f: Fold, first: Id, r: Record, now: Time)
    requires StateInv(start, f, first) && f.cur.Some?
    ensures var g := Step(f.cur, f.next, r, now);
            g.cur.Some? && Target(Target(s, start, f, id, now), f.cur, g, id, now)
                           == Target(s, start, Apply(f, r, now), id, now)
  {
    var g := Step(f.cur, f.next, r, now);
    StepIsStepFrom(f, r, now);
    var cur, next := f.cur.value, g.cur.value;
    var pid, sid := cur.productId, cur.productSourceId;
    var before, after := f.added.versions != [], g.added.versions != [];
    var h := Then(f, g);
    assert (h.added.versions != []) == (before || after);
    ComposesProduct(OldProduct(s, pid), start, cur, next, before, after, now);
    ComposesSource(OldSource(s, sid), start, cur, next, before, after, id, now);
    ComposesRows(s, f, g);
    OverwriteTwice(s.products, pid, ProductAfter(OldProduct(s, pid), start, cur, before, now),
                   ProductAfter(OldProduct(s, pid), start, next, before || after, now));
    OverwriteTwice(s.sources, sid, SourceAfter(OldSource(s, sid), start, cur, before, id, now),
                   SourceAfter(OldSource(s, sid), start, next, before || after, id, now));
    OverwriteTwice(s.byIdentity, id, sid, sid);
  }

  // ---------------------------------------------------------------- pages, and records one at a time

  datatype Progress = Progress(store: Store, metrics: Metrics, next: Id)

  // One page: read its snapshots, decide, write.
  function RunPage(s: Store, page: seq<Record>, now: Time, next: Id): Option<Progress> {
    var (plan, n) := DecideBatch(Snapshots(s, Identities(page)), page, now, next);
    match ApplyPlan(s, plan)
    case Applied(s') => Some(Progress(s', plan.added.metrics, n))
    case _ => None
  }

  // The same progress, counted from m.
  function Counted(m: Metrics, p: Option<Progress>): Option<Progress> {
    if p.None? then None else Some(p.value.(metrics := AddMetrics(m, p.value.metrics)))
  }

  // Processing one record: the tables, the record and the next identifier.
  type Runner = (Store, Record, Id) -> Option<Progress>

  function NextRecord(run: Runner, p: Option<Progress>, r: Record): Option<Progress> {
    if p.None? then None else Counted(p.value.metrics, run(p.value.store, r, p.value.next))
  }

  function RunEach(run: Runner, s: Store, rs: seq<Record>, next: Id): Option<Progress> {
    if rs == [] then Some(Progress(s, NoMetrics, next))
    else NextRecord(run, RunEach(run, s, rs[..|rs|-1], next), rs[|rs|-1])
  }

  // A page of one record.
  function Alone(now: Time): Runner {
    (s, r, next) => RunPage(s, [r], now, next)
  }

  // One page per record.
  function RunAlone(s: Store, rs: seq<Record>, now: Time, next: Id): Option<Progress> {
    RunEach(Alone(now), s, rs, next)
  }

  lemma EmptyFirst(p: Plan)
    ensures Append(EmptyPlan, p) == p
  {
    NothingFirst(p.added);
    assert [] + p.products == p.products;
    assert [] + p.sources == p.sources;
    assert [] + p.moves == p.moves;
    assert [] + p.fingerprints == p.fingerprints;
    assert [] + p.watermarks == p.watermarks;
    assert [] + p.sourceChanges == p.sourceChanges;
  }

  lemma SingleGroup(r: Record)
    ensures Identities([r]) == [r.identity] && Group([r], r.identity) == [r]
  {
    assert [r][..0] == [];
    assert Identities([]) == [] && Select([], r.identity) == [];
    assert Select([r], r.identity) == [] + [r] == [r];
    assert Sorting.StableSort([], NotAfter) == [];
    assert Sorting.StableSort([r], NotAfter) == Sorting.Insert([], r, NotAfter) == [r];
  }

  lemma SnapshotsAt(s: Store, ids: seq<Identity>, k: Identity)
    requires k in ids
    ensures StartOf(Snapshots(s, ids), k) == SnapshotOf(s, k)
  {}

  lemma SingleRecordPage(s: Store, r: Record, now: Time, next: Id)
    requires Consistent(s, next)
    ensures var start := SnapshotOf(s, r.identity);
            var g := Step(start, next, r, now);
            && g.cur.Some?
            && RunPage(s, [r], now, next)
               == Some(Progress(Target(s, start, g, r.identity, now), g.added.metrics, g.next))
  {
    var k, start := r.identity, SnapshotOf(s, r.identity);
    var g := Step(start, next, r, now);
    SingleGroup(r);
    StepAlone(start, next, r, now);
    FoldAll(start, next, [r], now);
    SnapshotsAt(s, [k], k);
    EmptyFirst(Emit(start, g, k, now));
    EmitAdded(start, g, k, now);
    Commits(s, k, start, g, next, now);
    assert [k][..0] == [];
    assert DecideGroups(Snapshots(s, [k]), [r], [], now, next) == (EmptyPlan, next);
  }

  lemma CountedTwice(m: Metrics, n: Metrics, p: Option<Progress>)
    ensures Counted(m, Counted(n, p)) == Counted(AddMetrics(m, n), p) && Counted(NoMetrics, p) == p
  {}

  lemma RunEachOne(run: Runner, s: Store, r: Record, next: Id)
    ensures RunEach(run, s, [r], next) == run(s, r, next)
  {
    assert [r][..0] == [];
    assert RunEach(run, s, [], next) == Some(Progress(s, NoMetrics, next));
    CountedTwice(NoMetrics, NoMetrics, run(s, r, next));
  }

  lemma {:induction false} RunEachAppend(run: Runner, s: Store, a: seq<Record>, b: seq<Record>, next: Id)
    requires RunEach(run, s, a, next).Some?
    ensures var p := RunEach(run, s, a, next).value;
            RunEach(run, s, a + b, next) == Counted(p.metrics, RunEach(run, p.store, b, p.next))
  {
    var p := RunEach(run, s, a, next).value;
    if b == [] {
      assert a + b == a;
    } else {
      var init, last := b[..|b|-1], b[|b|-1];
      assert (a + b)[..|a + b|-1] == a + init && (a + b)[|a + b|-1] == last;
      RunEachAppend(run, s, a, init, next);
      var q := RunEach(run, p.store, init, p.next);
      if q.Some? {
        CountedTwice(p.metrics, q.value.metrics, run(q.value.store, last, q.value.next));
      }
    }
  }

  // After a fold has been written, one more record processed alone writes the fold extended by it.
  lemma OneMoreRecord(s: Store, k: Identity, start: Option<Snapshot>, f: Fold, first: Id, r: Record, now: Time)
    requires Ready(s, k, start, f, first) && r.identity == k
    ensures var h := Apply(f, r, now);
            && h.cur.Some?
            && Counted(f.added.metrics, RunPage(Target(s, start, f, k, now), [r], now, f.next))
               == Some(Progress(Target(s, start, h, k, now), h.added.metrics, h.next))
  {
    Keeps(s, k, start, f, first, now);
    Stores(s, k, start, f, first, now);
    SingleRecordPage(Target(s, start, f, k, now), r, now, f.next);
    Composes(s, k, start, f, first, r, now);
  }

  lemma AloneSnoc(s: Store, rs: seq<Record>, now: Time, next: Id, p: Progress)
    requires rs != [] && RunAlone(s, rs[..|rs|-1], now, next) == Some(p)
    ensures RunAlone(s, rs, now, next) == Counted(p.metrics, RunPage(p.store, [rs[|rs|-1]], now, p.next))
  {
    assert Alone(now)(p.store, rs[|rs|-1], p.next) == RunPage(p.store, [rs[|rs|-1]], now, p.next);
  }

  lemma GroupReady(s: Store, k: Identity, rs: seq<Record>, now: Time, next: Id)
    requires Consistent(s, next) && rs != []
    ensures Ready(s, k, SnapshotOf(s, k), ApplyAll(Begin(SnapshotOf(s, k), next), rs, now), next)
  {
    FoldAll(SnapshotOf(s, k), next, rs, now);
  }

  // What a fold leaves: its rows written, its records counted, its identifiers used.
  function Left(s: Store, k: Identity, start: Option<Snapshot>, f: Fold, now: Time): Progress
    requires f.cur.Some?
  {
    Progress(Target(s, start, f, k, now), f.added.metrics, f.next)
  }

  lemma GroupOfOne(s: Store, k: Identity, r: Record, now: Time, next: Id)
    requires Consistent(s, next) && r.identity == k
    ensures var start := SnapshotOf(s, k);
            var f := ApplyAll(Begin(start, next), [r], now);
            f.cur.Some? && RunAlone(s, [r], now, next) == Some(Left(s, k, start, f, now))
  {
    StepAlone(SnapshotOf(s, k), next, r, now);
    SingleRecordPage(s, r, now, next);
    RunEachOne(Alone(now), s, r, next);
    assert Alone(now)(s, r, next) == RunPage(s, [r], now, next);
  }

  lemma GroupOfMore(s: Store, k: Identity, rs: seq<Record>, now: Time, next: Id)
    requires Consistent(s, next) && |rs| > 1 && rs[|rs|-1].identity == k
    requires var f := ApplyAll(Begin(SnapshotOf(s, k), next), rs[..|rs|-1], now);
             f.cur.Some? && RunAlone(s, rs[..|rs|-1], now, next) == Some(Left(s, k, SnapshotOf(s, k), f, now))
    ensures var start := SnapshotOf(s, k);
            var f := ApplyAll(Begin(start, next), rs, now);
            f.cur.Some? && RunAlone(s, rs, now, next) == Some(Left(s, k, start, f, now))
  {
    var start := SnapshotOf(s, k);
    var init, last := rs[..|rs|-1], rs[|rs|-1];
    var f := ApplyAll(Begin(start, next), init, now);
    GroupReady(s, k, init, now, next);
    OneMoreRecord(s, k, start, f, next, last, now);
    AloneSnoc(s, rs, now, next, Left(s, k, start, f, now));
  }

  // One identity: its records in order, a page each, leave what folding them together writes.
  lemma {:induction false} GroupRefines(s: Store, k: Identity, rs: seq<Record>, now: Time, next: Id)
    requires Consistent(s, next) && rs != [] && forall r | r in rs :: r.identity == k
    ensures var start := SnapshotOf(s, k);
            var f := ApplyAll(Begin(start, next), rs, now);
            f.cur.Some? && RunAlone(s, rs, now, next) == Some(Left(s, k, start, f, now))
  {
    if |rs| == 1 {
      assert rs == [rs[0]];
      GroupOfOne(s, k, rs[0], now, next);
    } else {
      GroupRefines(s, k, rs[..|rs|-1], now, next);
      GroupOfMore(s, k, rs, now, next);
    }
  }
}
