// Processing records again that were processed before.
module Replay {
  import opened Prelude
  import opened Transition
  import opened Batch
  import opened ProductStore
  import opened FoldInvariant
  import opened GroupWrite
  import opened BatchRefinement
  import opened PageRefinement
  import opened Marks
  import opened Convergence
  import opened Conservation
  import Sorting

  // ---------------------------------------------------------------- one record that changes nothing

  // The record is late, or it repeats the current content.
  predicate Repeats(m: Option<Mark>, r: Record) {
    m.Some? && (Late(m.value, r) || r.fingerprint == m.value.fingerprint)
  }

  // A record that is not late does not raise the watermarks.
  predicate Covers(m: Option<Mark>, r: Record) {
    m.Some? && (Late(m.value, r)
                || (r.receivedAt <= m.value.receivedAt
                    && Greatest(m.value.sourceUpdatedAt, r.sourceUpdatedAt) == m.value.sourceUpdatedAt))
  }

  // Record fingerprints are always computed by the current algorithm.
  predicate Current(r: Record) {
    r.fingerprint.V1?
  }

  lemma QuietStep(cur: Option<Snapshot>, next: Id, r: Record, now: Time)
    requires Current(r) && Repeats(MarkOf(cur), r) && Covers(MarkOf(cur), r)
    ensures var g := Step(cur, next, r, now);
            g.cur == cur && g.added == Added([], [], [], Metrics(0, 0, 1)) && g.next == next
  {}

  // A kept record was late, repeated the content, or met a fingerprint of an older algorithm.
  lemma KeptRepeats(cur: Option<Snapshot>, next: Id, r: Record, now: Time)
    requires Step(cur, next, r, now).added.metrics.kept == 1
    ensures cur.Some? && (Repeats(MarkOf(cur), r) || cur.value.currentFingerprint.Legacy?)
  {}

  lemma CountsOne(cur: Option<Snapshot>, next: Id, r: Record, now: Time)
    ensures Step(cur, next, r, now).added.metrics in {Metrics(1, 0, 0), Metrics(0, 1, 0), Metrics(0, 0, 1)}
  {}

  lemma SameRow<K, V>(m: map<K, V>, k: K)
    requires k in m
    ensures m[k := m[k]] == m
  {}

  lemma NothingToWrite(s: Store, k: Identity, g: Fold, now: Time)
    requires SnapshotOf(s, k).Some? && g.cur == SnapshotOf(s, k) && Placed(s, k, SnapshotOf(s, k), g.cur.value)
    requires g.added.versions == [] && g.added.changes == [] && g.added.events == []
    ensures Target(s, SnapshotOf(s, k), g, k, now) == s
  {
    var cur := g.cur.value;
    assert SourceAfter(s.sources[cur.productSourceId], g.cur, cur, false, k, now) == s.sources[cur.productSourceId];
    SameRow(s.products, cur.productId);
    SameRow(s.sources, cur.productSourceId);
    SameRow(s.byIdentity, k);
    AddNothing(s.versions);
    AddNothing(s.changes);
    AddNothing(s.events);
  }

  // The tables are left exactly as they were.
  lemma QuietRecord(s: Store, r: Record, now: Time, next: Id)
    requires Consistent(s, next) && Current(r)
    requires var m := MarkOf(SnapshotOf(s, r.identity)); Repeats(m, r) && Covers(m, r)
    ensures RunPage(s, [r], now, next) == Some(Progress(s, Metrics(0, 0, 1), next))
  {
    var start := SnapshotOf(s, r.identity);
    var g := Step(start, next, r, now);
    SingleRecordPage(s, r, now, next);
    QuietStep(start, next, r, now);
    StepAlone(start, next, r, now);
    ReadyIsPlaced(s, r.identity, start, g, next);
    NothingToWrite(s, r.identity, g, now);
  }

  // ---------------------------------------------------------------- a page

  // What the identities of these records have stored.
  ghost predicate AllCovered(s: Store, rs: seq<Record>) {
    forall r | r in rs :: Covers(MarkOf(SnapshotOf(s, r.identity)), r)
  }

  ghost predicate AllRepeat(s: Store, rs: seq<Record>) {
    forall r | r in rs :: Repeats(MarkOf(SnapshotOf(s, r.identity)), r)
  }

  predicate AllCurrent(rs: seq<Record>) {
    forall r | r in rs :: Current(r)
  }

  function Untouched(s: Store, n: nat, next: Id): Option<Progress> {
    Some(Progress(s, Metrics(0, 0, n), next))
  }

  lemma {:induction false} QuietRecords(s: Store, rs: seq<Record>, now: Time, next: Id)
    requires Consistent(s, next) && AllCurrent(rs) && AllCovered(s, rs) && AllRepeat(s, rs)
    ensures RunAlone(s, rs, now, next) == Untouched(s, |rs|, next)
  {
    if rs != [] {
      InitOf(rs);
      QuietRecords(s, rs[..|rs|-1], now, next);
      AloneSnoc(s, rs, now, next, Progress(s, Metrics(0, 0, |rs| - 1), next));
      QuietRecord(s, rs[|rs|-1], now, next);
    }
  }

  lemma MetricsOfRecord(s: Store, r: Record, now: Time, next: Id)
    requires Consistent(s, next)
    ensures RunPage(s, [r], now, next).Some?
    ensures RunPage(s, [r], now, next).value.metrics.kept <= 1
    ensures RunPage(s, [r], now, next).value.metrics.kept == 1 ==>
              var m := MarkOf(SnapshotOf(s, r.identity)); m.Some? && (Repeats(m, r) || m.value.fingerprint.Legacy?)
  {
    var start := SnapshotOf(s, r.identity);
    SingleRecordPage(s, r, now, next);
    CountsOne(start, next, r, now);
    if Step(start, next, r, now).added.metrics.kept == 1 { KeptRepeats(start, next, r, now); }
  }

  lemma {:induction false} KeptAtMost(s: Store, rs: seq<Record>, now: Time, next: Id)
    requires Consistent(s, next)
    ensures RunAlone(s, rs, now, next).Some? && RunAlone(s, rs, now, next).value.metrics.kept <= |rs|
    ensures Consistent(RunAlone(s, rs, now, next).value.store, RunAlone(s, rs, now, next).value.next)
  {
    if rs != [] {
      KeptAtMost(s, rs[..|rs|-1], now, next);
      var p := RunAlone(s, rs[..|rs|-1], now, next).value;
      AloneSnoc(s, rs, now, next, p);
      MetricsOfRecord(p.store, rs[|rs|-1], now, p.next);
      RecordMarks(p.store, rs[|rs|-1], now, p.next, rs[|rs|-1].identity);
    }
  }

  // What an identity's mark was when the i-th record came, on tables where no record so far was moved.
  lemma {:induction false} AllKeptRepeat(s: Store, rs: seq<Record>, now: Time, next: Id)
    requires Consistent(s, next) && AllCurrent(rs) && AllCovered(s, rs)
    requires forall r | r in rs ::
               SnapshotOf(s, r.identity).Some?
                 && (SnapshotOf(s, r.identity).value.currentFingerprint.V1?
                     || Repeats(MarkOf(SnapshotOf(s, r.identity)), r))
    requires RunAlone(s, rs, now, next).Some? && RunAlone(s, rs, now, next).value.metrics.kept == |rs|
    ensures AllRepeat(s, rs)
  {
    if rs != [] {
      InitOf(rs);
      var init, last := rs[..|rs|-1], rs[|rs|-1];
      KeptAtMost(s, init, now, next);
      var p := RunAlone(s, init, now, next).value;
      AloneSnoc(s, rs, now, next, p);
      MetricsOfRecord(p.store, last, now, p.next);
      AllKeptRepeat(s, init, now, next);
      QuietRecords(s, init, now, next);
    }
  }

  // Every identity of the page has a mark that covers its records, and the mark either was written by
  // the current algorithm or makes the identity's records late.
  ghost predicate Processed(s: Store, page: seq<Record>) {
    && AllCurrent(page) && AllCovered(s, page)
    && forall r | r in page ::
         var m := MarkOf(SnapshotOf(s, r.identity)); m.value.fingerprint.V1? || Late(m.value, r)
  }

  lemma SameRecords(page: seq<Record>)
    ensures forall r :: r in ProcessingOrder(page, Identities(page)) <==> r in page
    ensures |ProcessingOrder(page, Identities(page))| == |page|
  {
    OrderedPage(page);
    SameElements(ProcessingOrder(page, Identities(page)), page);
    SameCount(ProcessingOrder(page, Identities(page)), page);
  }

  // On tables that already cover a page: it is counted unchanged and leaves the tables exactly as they
  // are if and only if each of its records is late or repeats what is stored.
  lemma UntouchedIff(s: Store, page: seq<Record>, now: Time, next: Id)
    requires Consistent(s, next) && Processed(s, page)
    ensures RunPage(s, page, now, next) == Untouched(s, |page|, next) <==> AllRepeat(s, page)
  {
    var order := ProcessingOrder(page, Identities(page));
    SameRecords(page);
    PageEqualsRecordsAlone(s, page, now, next);
    if AllRepeat(s, page) {
      QuietRecords(s, order, now, next);
    }
    if RunPage(s, page, now, next) == Untouched(s, |page|, next) {
      AllKeptRepeat(s, order, now, next);
    }
  }

  // ---------------------------------------------------------------- the marks a page leaves

  lemma Sorted(rs: seq<Record>, i: nat)
    requires Sorting.Ordered(rs, NotAfter) && i < |rs|
    ensures NotAfter(rs[i], rs[|rs|-1])
  {}

  lemma CoversMore(m: Mark, r: Record, x: Record)
    requires Covers(Some(m), r) && NotAfter(r, x)
    ensures Covers(Some(Absorb(Some(m), x)), r)
  {}

  // After a sorted group, no record of it would raise a watermark again.
  lemma {:induction false} GroupCovered(m: Option<Mark>, rs: seq<Record>)
    requires Sorting.Ordered(rs, NotAfter)
    ensures forall r | r in rs :: Covers(AbsorbAll(m, rs), r)
  {
    if rs != [] {
      var init, x := rs[..|rs|-1], rs[|rs|-1];
      InitOf(rs);
      GroupCovered(m, init);
      forall r | r in init ensures Covers(AbsorbAll(m, rs), r) {
        var i :| 0 <= i < |init| && init[i] == r;
        Sorted(rs, i);
        CoversMore(AbsorbAll(m, init).value, r, x);
      }
    }
  }

  // A mark of an older algorithm is only left when every record was late.
  lemma {:induction false} LegacyLeftAlone(m: Option<Mark>, rs: seq<Record>)
    requires AllCurrent(rs) && AbsorbAll(m, rs).Some? && AbsorbAll(m, rs).value.fingerprint.Legacy?
    ensures AbsorbAll(m, rs) == m && forall r | r in rs :: Late(m.value, r)
  {
    if rs != [] {
      InitOf(rs);
      LegacyLeftAlone(m, rs[..|rs|-1]);
    }
  }

  lemma PageProcessed(s: Store, page: seq<Record>, now: Time, next: Id)
    requires Consistent(s, next) && AllCurrent(page)
    ensures RunPage(s, page, now, next).Some?
    ensures var p := RunPage(s, page, now, next).value; Consistent(p.store, p.next) && Processed(p.store, page)
  {
    PageEqualsRecordsAlone(s, page, now, next);
    var p := RunPage(s, page, now, next).value;
    forall r | r in page
      ensures var m := MarkOf(SnapshotOf(p.store, r.identity));
              Covers(m, r) && (m.value.fingerprint.V1? || Late(m.value, r))
    {
      var k := r.identity;
      PageMarks(s, page, now, next, k);
      GroupedRecords(page, k);
      GroupCovered(MarkOf(SnapshotOf(s, k)), Group(page, k));
      if MarkOf(SnapshotOf(p.store, k)).value.fingerprint.Legacy? {
        LegacyLeftAlone(MarkOf(SnapshotOf(s, k)), Group(page, k));
      }
    }
  }

  // For every page, processed twice in a row: the second time changes nothing and counts every record
  // unchanged if and only if each record is late for, or repeats, what the first time stored.
  lemma ReplayIsNoOpIff(s: Store, page: seq<Record>, now: Time, next: Id, later: Time)
    requires Consistent(s, next) && AllCurrent(page)
    ensures RunPage(s, page, now, next).Some?
    ensures var p := RunPage(s, page, now, next).value;
            RunPage(p.store, page, later, p.next) == Untouched(p.store, |page|, p.next) <==> AllRepeat(p.store, page)
  {
    PageProcessed(s, page, now, next);
    var p := RunPage(s, page, now, next).value;
    UntouchedIff(p.store, page, later, p.next);
  }

  // ---------------------------------------------------------------- pages of one kind of timestamp

  // All records say when their source updated them, or none does.
  ghost predicate Uniform(rs: seq<Record>) {
    (forall r | r in rs :: r.sourceUpdatedAt.Some?) || (forall r | r in rs :: r.sourceUpdatedAt.None?)
  }

  predicate Tied(a: Record, b: Record) {
    a.sourceUpdatedAt == b.sourceUpdatedAt && a.receivedAt == b.receivedAt
  }

  // Each record is late for the mark, or ties with the last one, whose content the mark has.
  ghost predicate LastDecides(m: Mark, rs: seq<Record>) {
    rs != [] && forall r | r in rs ::
      Late(m, r) || (Tied(r, rs[|rs|-1]) && Covers(Some(m), r) && m.fingerprint == rs[|rs|-1].fingerprint)
  }

  lemma LastStep(m: Mark, r: Record, last: Record, x: Record)
    requires r.sourceUpdatedAt.Some? == x.sourceUpdatedAt.Some? && NotAfter(r, x) && NotAfter(last, x)
    requires Late(m, r) || (Tied(r, last) && Covers(Some(m), r) && m.fingerprint == last.fingerprint)
    ensures var e := Absorb(Some(m), x);
            Late(e, r) || (Tied(r, x) && Covers(Some(e), r) && e.fingerprint == x.fingerprint)
  {}

  lemma {:induction false} GroupLastDecides(m: Option<Mark>, rs: seq<Record>)
    requires rs != [] && Sorting.Ordered(rs, NotAfter) && Uniform(rs)
    ensures LastDecides(AbsorbAll(m, rs).value, rs)
  {
    var init, x := rs[..|rs|-1], rs[|rs|-1];
    InitOf(rs);
    if init != [] {
      GroupLastDecides(m, init);
      forall r | r in init
        ensures var e := AbsorbAll(m, rs).value;
                Late(e, r) || (Tied(r, x) && Covers(Some(e), r) && e.fingerprint == x.fingerprint)
      {
        var i :| 0 <= i < |init| && init[i] == r;
        Sorted(rs, i);
        Sorted(rs, |init| - 1);
        assert r in rs && x in rs;
        LastStep(AbsorbAll(m, init).value, r, init[|init|-1], x);
      }
    } else {
      assert rs == [x] && AbsorbAll(m, init) == m;
    }
  }

  // The last record in processing order is late, or the records that tie with it agree with it.
  ghost predicate LastAgrees(m: Mark, rs: seq<Record>) {
    rs != [] ==>
      var last := rs[|rs|-1];
      Late(m, last) || forall r | r in rs && Tied(r, last) :: r.fingerprint == last.fingerprint
  }

  lemma UniformRepeatIff(m: Option<Mark>, rs: seq<Record>)
    requires rs != [] && Sorting.Ordered(rs, NotAfter) && Uniform(rs)
    ensures (forall r | r in rs :: Repeats(AbsorbAll(m, rs), r)) <==> LastAgrees(AbsorbAll(m, rs).value, rs)
  {
    GroupLastDecides(m, rs);
    var e, last := AbsorbAll(m, rs).value, rs[|rs|-1];
    assert last in rs;
    if !Late(e, last) {
      forall r | r in rs ensures !Late(e, r) ==> Tied(r, last) {}
    } else {
      forall r | r in rs ensures Late(e, r) { assert Tied(r, last) ==> Late(e, r); }
    }
  }

  ghost predicate GroupsAgree(s: Store, page: seq<Record>) {
    forall k | k in Identities(page) && SnapshotOf(s, k).Some? ::
      LastAgrees(MarkOf(SnapshotOf(s, k)).value, Group(page, k))
  }

  lemma {:induction false} EveryRecordIsListed(page: seq<Record>)
    ensures forall r | r in page :: r.identity in Identities(page)
  {
    if page != [] {
      EveryRecordIsListed(page[..|page|-1]);
      InitOf(page);
    }
  }

  lemma RepeatByGroups(s: Store, page: seq<Record>, now: Time, next: Id)
    requires Consistent(s, next) && AllCurrent(page) && forall k | k in Identities(page) :: Uniform(Group(page, k))
    requires RunPage(s, page, now, next).Some?
    ensures var t := RunPage(s, page, now, next).value.store; AllRepeat(t, page) <==> GroupsAgree(t, page)
  {
    var t := RunPage(s, page, now, next).value.store;
    forall k | k in Identities(page)
      ensures SnapshotOf(t, k).Some?
      ensures (forall r | r in page && r.identity == k :: Repeats(MarkOf(SnapshotOf(t, k)), r))
              <==> LastAgrees(MarkOf(SnapshotOf(t, k)).value, Group(page, k))
    {
      PageMarks(s, page, now, next, k);
      GroupOfIdentity(page, k);
      GroupedRecords(page, k);
      UniformRepeatIff(MarkOf(SnapshotOf(s, k)), Group(page, k));
    }
    EveryRecordIsListed(page);
  }

  // When each identity's records all carry source_updated_at or all lack it: processing the page again
  // is a no-op if and only if, per identity, the record last in processing order is late for what is
  // stored, or every record tied with it on both timestamps has its content.
  lemma UniformReplayIff(s: Store, page: seq<Record>, now: Time, next: Id, later: Time)
    requires Consistent(s, next) && AllCurrent(page) && forall k | k in Identities(page) :: Uniform(Group(page, k))
    ensures RunPage(s, page, now, next).Some?
    ensures var p := RunPage(s, page, now, next).value;
            RunPage(p.store, page, later, p.next) == Untouched(p.store, |page|, p.next) <==> GroupsAgree(p.store, page)
  {
    ReplayIsNoOpIff(s, page, now, next, later);
    RepeatByGroups(s, page, now, next);
  }

  lemma TwoSelected(a: Record, b: Record)
    requires a.identity == b.identity
    ensures Identities([a, b]) == [a.identity] && Select([a, b], a.identity) == [a, b]
  {
    var page, k := [a, b], a.identity;
    assert page[..1] == [a] && [a][..0] == [];
    assert Identities([]) == [] && Identities([a]) == [k];
    assert Select([], k) == [] && Select([a], k) == [a] && Select(page, k) == [a, b];
  }

  lemma TwoSeparate(a: Record, b: Record)
    requires NotAfter(a, b) && !NotAfter(b, a)
    ensures Sorting.Ordered([a, b], NotAfter) && Sorting.Separates(NotAfter, multiset([a, b]))
  {
    forall x, y | x in multiset([a, b]) && y in multiset([a, b]) && NotAfter(x, y) && NotAfter(y, x) ensures x == y {}
  }

  lemma TwoInOrder(a: Record, b: Record)
    requires a.identity == b.identity && NotAfter(a, b) && !NotAfter(b, a)
    ensures Identities([a, b]) == [a.identity] && Group([a, b], a.identity) == [a, b]
  {
    TwoSelected(a, b);
    TwoSeparate(a, b);
    GroupedRecords([a, b], a.identity);
    Sorting.OrderedPermutationUnique([a, b], Group([a, b], a.identity), NotAfter);
  }

  lemma MixedMarks(a: Record, b: Record)
    requires a.identity == b.identity && a.receivedAt == b.receivedAt == 10
    requires a.sourceUpdatedAt.None? && b.sourceUpdatedAt == Some(5) && a.fingerprint != b.fingerprint
    ensures Identities([a, b]) == [a.identity] && Group([a, b], a.identity) == [a, b]
    ensures AbsorbAll(None, [a, b]) == Some(Mark(b.fingerprint, Some(5), 10))
    ensures !Repeats(AbsorbAll(None, [a, b]), a) && LastAgrees(Mark(b.fingerprint, Some(5), 10), [a, b])
  {
    TwoInOrder(a, b);
    assert [a, b][..1] == [a] && [a][..0] == [];
    assert AbsorbAll(None, [a]) == Some(Mark(a.fingerprint, None, 10));
  }

  // A record that is not late and brings other content than the current algorithm stored writes a version;
  // a late one is counted unchanged.
  lemma RecordCounts(s: Store, r: Record, now: Time, next: Id)
    requires Consistent(s, next) && SnapshotOf(s, r.identity).Some?
    ensures RunPage(s, [r], now, next).Some?
    ensures var m, q := MarkOf(SnapshotOf(s, r.identity)).value, RunPage(s, [r], now, next).value;
            && (Late(m, r) ==> q.metrics == Metrics(0, 0, 1))
            && (!Late(m, r) && m.fingerprint.V1? && m.fingerprint != r.fingerprint ==> q.metrics == Metrics(0, 1, 0))
  {
    SingleRecordPage(s, r, now, next);
    StepCounts(SnapshotOf(s, r.identity).value, next, r, now);
  }

  lemma StepCounts(cur: Snapshot, next: Id, r: Record, now: Time)
    ensures var m, added := MarkOf(Some(cur)).value, Step(Some(cur), next, r, now).added.metrics;
            && (Late(m, r) ==> added == Metrics(0, 0, 1))
            && (!Late(m, r) && m.fingerprint.V1? && m.fingerprint != r.fingerprint ==> added == Metrics(0, 1, 0))
  {}

  lemma RecordMark(s: Store, r: Record, now: Time, next: Id)
    requires Consistent(s, next)
    ensures RunPage(s, [r], now, next).Some?
    ensures var p := RunPage(s, [r], now, next).value;
            Consistent(p.store, p.next)
            && MarkOf(SnapshotOf(p.store, r.identity)) == Some(Absorb(MarkOf(SnapshotOf(s, r.identity)), r))
  {
    var m := MarkOf(SnapshotOf(s, r.identity));
    RecordMarks(s, r, now, next, r.identity);
    assert [r][..0] == [] && Of([r], r.identity) == [r];
    assert AbsorbAll(m, []) == m && AbsorbAll(m, [r]) == Some(Absorb(m, r));
  }

  // Two records of one identity, each a page of its own.
  lemma TwoRecords(s: Store, a: Record, b: Record, now: Time, next: Id) returns (p: Progress, q: Progress)
    requires Consistent(s, next)
    ensures RunPage(s, [a], now, next) == Some(p) && RunPage(p.store, [b], now, p.next) == Some(q)
    ensures Consistent(p.store, p.next)
    ensures MarkOf(SnapshotOf(p.store, a.identity)) == Some(Absorb(MarkOf(SnapshotOf(s, a.identity)), a))
  {
    RecordMark(s, a, now, next);
    p := RunPage(s, [a], now, next).value;
    RecordMark(p.store, b, now, p.next);
    q := RunPage(p.store, [b], now, p.next).value;
  }

  lemma TwoEach(run: Runner, s: Store, a: Record, b: Record, next: Id, p: Progress, q: Progress)
    requires run(s, a, next) == Some(p) && run(p.store, b, p.next) == Some(q)
    ensures RunEach(run, s, [a, b], next) == Some(q.(metrics := AddMetrics(p.metrics, q.metrics)))
  {
    assert [a, b][..1] == [a];
    RunEachOne(run, s, a, next);
  }

  lemma TwoAsPage(s: Store, a: Record, b: Record, now: Time, next: Id)
    requires Consistent(s, next) && a.identity == b.identity && NotAfter(a, b) && !NotAfter(b, a)
    ensures RunPage(s, [a, b], now, next) == RunAlone(s, [a, b], now, next)
  {
    TwoInOrder(a, b);
    PageEqualsRecordsAlone(s, [a, b], now, next);
    assert [a.identity][..0] == [];
    assert ProcessingOrder([a, b], [a.identity]) == [a, b];
  }

  // The mixed page once more: both records write a version.
  lemma BothMove(s: Store, a: Record, b: Record, next: Id)
    requires Consistent(s, next) && a.identity == b.identity && a.receivedAt == b.receivedAt == 10 && Current(a)
    requires a.sourceUpdatedAt.None? && b.sourceUpdatedAt == Some(5) && a.fingerprint != b.fingerprint && Current(b)
    requires MarkOf(SnapshotOf(s, a.identity)) == Some(Mark(b.fingerprint, Some(5), 10))
    ensures RunPage(s, [a, b], 0, next).Some? && RunPage(s, [a, b], 0, next).value.metrics == Metrics(0, 2, 0)
  {
    TwoAsPage(s, a, b, 0, next);
    var p, q := TwoRecords(s, a, b, 0, next);
    assert Alone(0)(s, a, next) == Some(p) && Alone(0)(p.store, b, p.next) == Some(q);
    TwoEach(Alone(0), s, a, b, next, p, q);
    RecordCounts(s, a, 0, next);
    RecordCounts(p.store, b, 0, p.next);
  }

  lemma NothingStored(k: Identity)
    ensures Consistent(EmptyStore, 0) && SnapshotOf(EmptyStore, k) == None
  {}

  // Mixing the two kinds of record breaks it: the last record ties with no other, yet the record without
  // source_updated_at is taken for a change when the page comes again, and then the other for one back:
  // two more versions.
  lemma MixedPageIsNotReplayable(a: Record, b: Record) returns (p: Progress)
    requires Current(a) && Current(b) && a.identity == b.identity && a.receivedAt == b.receivedAt == 10
    requires a.sourceUpdatedAt.None? && b.sourceUpdatedAt == Some(5) && a.fingerprint != b.fingerprint
    ensures RunPage(EmptyStore, [a, b], 0, 0) == Some(p) && GroupsAgree(p.store, [a, b])
    ensures RunPage(p.store, [a, b], 0, p.next).Some?
    ensures RunPage(p.store, [a, b], 0, p.next).value.metrics == Metrics(0, 2, 0)
  {
    NothingStored(a.identity);
    ReplayIsNoOpIff(EmptyStore, [a, b], 0, 0, 0);
    PageMarks(EmptyStore, [a, b], 0, 0, a.identity);
    MixedMarks(a, b);
    p := RunPage(EmptyStore, [a, b], 0, 0).value;
    BothMove(p.store, a, b, p.next);
  }

  // ---------------------------------------------------------------- a whole run

  ghost predicate TiesAgree(rs: seq<Record>) {
    forall a, b | a in rs && b in rs && Tied(a, b) :: a.fingerprint == b.fingerprint
  }

  // The mark after records that all carry source_updated_at, in any order, from nothing or from a mark
  // that carries one: each record is late, or ties with both watermarks and has the current content.
  ghost predicate Final(m: Mark, rs: seq<Record>) {
    m.sourceUpdatedAt.Some? && forall r | r in rs ::
      Late(m, r) || (r.sourceUpdatedAt == m.sourceUpdatedAt && r.receivedAt == m.receivedAt
                     && r.fingerprint == m.fingerprint)
  }

  lemma FinalStep(m: Mark, r: Record, x: Record)
    requires m.sourceUpdatedAt.Some? && x.sourceUpdatedAt.Some? && r.sourceUpdatedAt.Some?
    requires Late(m, r) || (r.sourceUpdatedAt == m.sourceUpdatedAt && r.receivedAt == m.receivedAt
                            && r.fingerprint == m.fingerprint)
    requires Tied(r, x) ==> r.fingerprint == x.fingerprint
    ensures var e := Absorb(Some(m), x);
            Late(e, r) || (r.sourceUpdatedAt == e.sourceUpdatedAt && r.receivedAt == e.receivedAt
                           && r.fingerprint == e.fingerprint)
  {}

  lemma {:induction false} AllFinal(m: Option<Mark>, rs: seq<Record>)
    requires m.Some? ==> m.value.sourceUpdatedAt.Some?
    requires TiesAgree(rs) && forall r | r in rs :: r.sourceUpdatedAt.Some?
    requires rs != [] || m.Some?
    ensures AbsorbAll(m, rs).Some? && Final(AbsorbAll(m, rs).value, rs)
  {
    if rs != [] {
      var init, x := rs[..|rs|-1], rs[|rs|-1];
      InitOf(rs);
      if init != [] || m.Some? {
        AllFinal(m, init);
        forall r | r in init
          ensures var e := AbsorbAll(m, rs).value;
                  Late(e, r) || (r.sourceUpdatedAt == e.sourceUpdatedAt && r.receivedAt == e.receivedAt
                                 && r.fingerprint == e.fingerprint)
        {
          FinalStep(AbsorbAll(m, init).value, r, x);
        }
      } else {
        assert AbsorbAll(m, init) == m;
      }
    }
  }

  function RecordsIn(turns: seq<Turn>): nat {
    if turns == [] then 0 else RecordsIn(turns[..|turns|-1]) + |turns[|turns|-1].page|
  }

  lemma QuietPage(s: Store, page: seq<Record>, now: Time, next: Id)
    requires Consistent(s, next) && AllCurrent(page) && AllCovered(s, page) && AllRepeat(s, page)
    ensures RunPage(s, page, now, next) == Untouched(s, |page|, next)
  {
    SameRecords(page);
    PageEqualsRecordsAlone(s, page, now, next);
    QuietRecords(s, ProcessingOrder(page, Identities(page)), now, next);
  }

  // The page would change nothing.
  ghost predicate Quiet(s: Store, page: seq<Record>) {
    AllCurrent(page) && AllCovered(s, page) && AllRepeat(s, page)
  }

  lemma {:induction false} QuietTurns(run: TurnRunner, s: Store, turns: seq<Turn>, next: Id)
    requires forall i | 0 <= i < |turns| :: run(s, turns[i], next) == Untouched(s, |turns[i].page|, next)
    ensures RunTurns(run, s, turns, next) == Untouched(s, RecordsIn(turns), next)
  {
    if turns != [] {
      QuietTurns(run, s, turns[..|turns|-1], next);
    }
  }

  lemma QuietPages(s: Store, turns: seq<Turn>, next: Id)
    requires Consistent(s, next) && forall i | 0 <= i < |turns| :: Quiet(s, turns[i].page)
    ensures RunPages(s, turns, next) == Untouched(s, RecordsIn(turns), next)
  {
    forall i | 0 <= i < |turns| ensures RunTurn(s, turns[i], next) == Untouched(s, |turns[i].page|, next) {
      QuietPage(s, turns[i].page, turns[i].now, next);
    }
    QuietTurns(RunTurn, s, turns, next);
  }

  // A run of any pages of records that carry source_updated_at, over identities that are new or stored
  // with one, whose ties agree: processing any pages made of the run's records afterwards, in
  // particular the whole run again, changes nothing and counts every record unchanged.
  lemma WholeRunReplay(s: Store, turns: seq<Turn>, next: Id, again: seq<Turn>)
    requires Consistent(s, next)
    requires forall r | Arrives(turns, r) :: Current(r) && r.sourceUpdatedAt.Some?
    requires forall a, b | Arrives(turns, a) && Arrives(turns, b) && a.identity == b.identity && Tied(a, b) ::
               a.fingerprint == b.fingerprint
    requires forall r | Arrives(turns, r) && SnapshotOf(s, r.identity).Some? ::
               SnapshotOf(s, r.identity).value.lastSourceUpdatedAt.Some?
    requires forall r | Arrives(again, r) :: Arrives(turns, r)
    ensures RunPages(s, turns, next).Some?
    ensures var p := RunPages(s, turns, next).value;
            RunPages(p.store, again, p.next) == Untouched(p.store, RecordsIn(again), p.next)
  {
    PagesMark(s, turns, next, Identity("", ""));
    var p := RunPages(s, turns, next).value;
    forall r | Arrives(turns, r)
      ensures var m := MarkOf(SnapshotOf(p.store, r.identity)); Current(r) && Covers(m, r) && Repeats(m, r)
    {
      var k := r.identity;
      PagesMark(s, turns, next, k);
      ArrivalsAre(turns, k);
      AllFinal(MarkOf(SnapshotOf(s, k)), Arrivals(turns, k));
    }
    forall i | 0 <= i < |again| ensures Quiet(p.store, again[i].page) {
      forall r | r in again[i].page ensures Arrives(turns, r) { assert Arrives(again, r); }
    }
    QuietPages(p.store, again, p.next);
  }

  // ---------------------------------------------------------------- exactly when

  predicate TiesWith(m: Mark, r: Record) {
    r.sourceUpdatedAt == m.sourceUpdatedAt && r.receivedAt == m.receivedAt
  }

  lemma TieStep(m: Mark, r: Record, x: Record)
    requires m.sourceUpdatedAt.Some? && x.sourceUpdatedAt.Some? && r.sourceUpdatedAt.Some?
             && (Late(m, r) || TiesWith(m, r))
    ensures var e := Absorb(Some(m), x); Late(e, r) || TiesWith(e, r)
  {}

  // Once a run is over, each of its records is late or ties with both watermarks.
  lemma {:induction false} AllLateOrTied(m: Option<Mark>, rs: seq<Record>)
    requires m.Some? ==> m.value.sourceUpdatedAt.Some?
    requires forall r | r in rs :: r.sourceUpdatedAt.Some?
    requires rs != [] || m.Some?
    ensures AbsorbAll(m, rs).Some? && AbsorbAll(m, rs).value.sourceUpdatedAt.Some?
    ensures forall r | r in rs :: Late(AbsorbAll(m, rs).value, r) || TiesWith(AbsorbAll(m, rs).value, r)
  {
    if rs != [] {
      var init, x := rs[..|rs|-1], rs[|rs|-1];
      InitOf(rs);
      if init != [] || m.Some? {
        AllLateOrTied(m, init);
        forall r | r in init ensures Late(AbsorbAll(m, rs).value, r) || TiesWith(AbsorbAll(m, rs).value, r) {
          TieStep(AbsorbAll(m, init).value, r, x);
        }
      } else {
        assert AbsorbAll(m, init) == m;
      }
    }
  }

  // Every record that ties with what is stored for its identity has the stored content.
  ghost predicate TiesHaveContent(s: Store, turns: seq<Turn>) {
    forall r | Arrives(turns, r) && SnapshotOf(s, r.identity).Some?
      && TiesWith(MarkOf(SnapshotOf(s, r.identity)).value, r) ::
      r.fingerprint == SnapshotOf(s, r.identity).value.currentFingerprint
  }

  lemma KeptPageRepeats(s: Store, page: seq<Record>, now: Time, next: Id)
    requires Consistent(s, next) && Processed(s, page)
    ensures RunPage(s, page, now, next).Some? && RunPage(s, page, now, next).value.metrics.kept <= |page|
    ensures RunPage(s, page, now, next).value.metrics.kept == |page| ==> AllRepeat(s, page)
  {
    var order := ProcessingOrder(page, Identities(page));
    SameRecords(page);
    PageEqualsRecordsAlone(s, page, now, next);
    KeptAtMost(s, order, now, next);
    if RunPage(s, page, now, next).value.metrics.kept == |page| {
      AllKeptRepeat(s, order, now, next);
    }
  }

  lemma PageKeepsAtMost(s: Store, page: seq<Record>, now: Time, next: Id)
    requires Consistent(s, next)
    ensures RunPage(s, page, now, next).Some? && RunPage(s, page, now, next).value.metrics.kept <= |page|
    ensures Consistent(RunPage(s, page, now, next).value.store, RunPage(s, page, now, next).value.next)
  {
    SameRecords(page);
    PageEqualsRecordsAlone(s, page, now, next);
    KeptAtMost(s, ProcessingOrder(page, Identities(page)), now, next);
  }

  // One more turn, given what the turns before it left.
  lemma TurnAfter(run: TurnRunner, s: Store, turns: seq<Turn>, next: Id, p: Progress, q: Progress)
    requires turns != [] && RunTurns(run, s, turns[..|turns|-1], next) == Some(p)
    requires run(p.store, turns[|turns|-1], p.next) == Some(q)
    ensures RunTurns(run, s, turns, next) == Some(q.(metrics := AddMetrics(p.metrics, q.metrics)))
  {}

  lemma {:induction false} PagesKeepAtMost(s: Store, turns: seq<Turn>, next: Id)
    requires Consistent(s, next)
    ensures RunPages(s, turns, next).Some? && RunPages(s, turns, next).value.metrics.kept <= RecordsIn(turns)
    ensures Consistent(RunPages(s, turns, next).value.store, RunPages(s, turns, next).value.next)
  {
    if turns != [] {
      var last := turns[|turns|-1];
      PagesKeepAtMost(s, turns[..|turns|-1], next);
      var p := RunPages(s, turns[..|turns|-1], next).value;
      PageKeepsAtMost(p.store, last.page, last.now, p.next);
      TurnAfter(RunTurn, s, turns, next, p, RunPage(p.store, last.page, last.now, p.next).value);
    }
  }

  // If all records count as unchanged, those of the last page do and those before it do.
  lemma KeptLast(s: Store, turns: seq<Turn>, next: Id, p: Progress)
    requires turns != [] && RunPages(s, turns[..|turns|-1], next) == Some(p) && Consistent(p.store, p.next)
    requires p.metrics.kept <= RecordsIn(turns[..|turns|-1])
    requires RunPages(s, turns, next).Some? && RunPages(s, turns, next).value.metrics.kept == RecordsIn(turns)
    ensures var last := turns[|turns|-1];
            && p.metrics.kept == RecordsIn(turns[..|turns|-1])
            && RunPage(p.store, last.page, last.now, p.next).Some?
            && RunPage(p.store, last.page, last.now, p.next).value.metrics.kept == |last.page|
  {
    var last := turns[|turns|-1];
    PageKeepsAtMost(p.store, last.page, last.now, p.next);
    TurnAfter(RunTurn, s, turns, next, p, RunPage(p.store, last.page, last.now, p.next).value);
  }

  // The last page then holds nothing new, if the ones before it left the tables alone.
  lemma LastRepeats(s: Store, turns: seq<Turn>, next: Id, p: Progress)
    requires turns != [] && RunPages(s, turns[..|turns|-1], next) == Some(p) && p.store == s && p.next == next
    requires Consistent(s, next) && Processed(s, turns[|turns|-1].page)
             && p.metrics.kept <= RecordsIn(turns[..|turns|-1])
    requires RunPages(s, turns, next).Some? && RunPages(s, turns, next).value.metrics.kept == RecordsIn(turns)
    ensures AllRepeat(s, turns[|turns|-1].page)
  {
    KeptLast(s, turns, next, p);
    KeptPageRepeats(s, turns[|turns|-1].page, turns[|turns|-1].now, next);
  }

  ghost predicate PagesProcessed(s: Store, turns: seq<Turn>) {
    forall i | 0 <= i < |turns| :: Processed(s, turns[i].page)
  }

  ghost predicate PagesRepeat(s: Store, turns: seq<Turn>) {
    forall i | 0 <= i < |turns| :: AllRepeat(s, turns[i].page)
  }

  lemma InitPages(s: Store, turns: seq<Turn>)
    requires turns != []
    ensures PagesProcessed(s, turns) ==> PagesProcessed(s, turns[..|turns|-1]) && Processed(s, turns[|turns|-1].page)
    ensures PagesRepeat(s, turns[..|turns|-1]) && AllRepeat(s, turns[|turns|-1].page) ==> PagesRepeat(s, turns)
  {
    var init := turns[..|turns|-1];
    forall i | 0 <= i < |turns| - 1 ensures init[i] == turns[i] {}
  }

  // Pages whose records are all counted unchanged, on tables that cover them, hold nothing new.
  lemma {:induction false} KeptPagesRepeat(s: Store, turns: seq<Turn>, next: Id)
    requires Consistent(s, next) && PagesProcessed(s, turns)
    requires RunPages(s, turns, next).Some? && RunPages(s, turns, next).value.metrics.kept == RecordsIn(turns)
    ensures PagesRepeat(s, turns)
  {
    if turns != [] {
      var init := turns[..|turns|-1];
      InitPages(s, turns);
      PagesKeepAtMost(s, init, next);
      var p := RunPages(s, init, next).value;
      KeptLast(s, turns, next, p);
      KeptPagesRepeat(s, init, next);
      QuietInit(s, init, next);
      LastRepeats(s, turns, next, p);
    }
  }

  lemma QuietInit(s: Store, turns: seq<Turn>, next: Id)
    requires Consistent(s, next) && PagesProcessed(s, turns) && PagesRepeat(s, turns)
    ensures RunPages(s, turns, next) == Untouched(s, RecordsIn(turns), next)
  {
    forall i | 0 <= i < |turns| ensures Quiet(s, turns[i].page) {
      assert Processed(s, turns[i].page) && AllRepeat(s, turns[i].page);
    }
    QuietPages(s, turns, next);
  }

  // What a run leaves of one of its records.
  lemma RunCovers(s: Store, turns: seq<Turn>, next: Id, r: Record)
    requires Consistent(s, next) && Arrives(turns, r)
    requires forall x | Arrives(turns, x) :: Current(x) && x.sourceUpdatedAt.Some?
    requires SnapshotOf(s, r.identity).Some? ==> SnapshotOf(s, r.identity).value.lastSourceUpdatedAt.Some?
    ensures RunPages(s, turns, next).Some?
    ensures var m := MarkOf(SnapshotOf(RunPages(s, turns, next).value.store, r.identity));
            m.Some? && m.value.sourceUpdatedAt.Some? && (Late(m.value, r) || TiesWith(m.value, r))
            && (m.value.fingerprint.V1? || Late(m.value, r))
  {
    var k := r.identity;
    var m := MarkOf(SnapshotOf(s, k));
    PagesMark(s, turns, next, k);
    ArrivalsAre(turns, k);
    AllLateOrTied(m, Arrivals(turns, k));
    if AbsorbAll(m, Arrivals(turns, k)).value.fingerprint.Legacy? { LegacyLeftAlone(m, Arrivals(turns, k)); }
  }

  // For a run of any pages of records that carry source_updated_at, over identities that are new or stored
  // with one: processing pages made of the run's records afterwards changes nothing and counts every
  // record unchanged if and only if each of them that ties with both stored watermarks of its identity
  // has the stored content.
  lemma WholeRunReplayIff(s: Store, turns: seq<Turn>, next: Id, again: seq<Turn>)
    requires Consistent(s, next)
    requires forall r | Arrives(turns, r) :: Current(r) && r.sourceUpdatedAt.Some?
    requires forall r | Arrives(turns, r) && SnapshotOf(s, r.identity).Some? ::
               SnapshotOf(s, r.identity).value.lastSourceUpdatedAt.Some?
    requires forall r | Arrives(again, r) :: Arrives(turns, r)
    ensures RunPages(s, turns, next).Some?
    ensures var p := RunPages(s, turns, next).value;
            RunPages(p.store, again, p.next) == Untouched(p.store, RecordsIn(again), p.next) <==>
              TiesHaveContent(p.store, again)
  {
    PagesMark(s, turns, next, Identity("", ""));
    var p := RunPages(s, turns, next).value;
    forall r | Arrives(again, r)
      ensures var m := MarkOf(SnapshotOf(p.store, r.identity));
              Current(r) && m.Some? && m.value.sourceUpdatedAt.Some? && (Late(m.value, r) || TiesWith(m.value, r))
              && (m.value.fingerprint.V1? || Late(m.value, r))
    {
      RunCovers(s, turns, next, r);
    }
    RepeatIffTies(p.store, again, p.next);
  }

  // The same, from what the run left.
  lemma RepeatIffTies(s: Store, turns: seq<Turn>, next: Id)
    requires Consistent(s, next)
    requires forall r | Arrives(turns, r) ::
               var m := MarkOf(SnapshotOf(s, r.identity));
               Current(r) && m.Some? && m.value.sourceUpdatedAt.Some? && (Late(m.value, r) || TiesWith(m.value, r))
               && (m.value.fingerprint.V1? || Late(m.value, r))
    ensures RunPages(s, turns, next) == Untouched(s, RecordsIn(turns), next) <==> TiesHaveContent(s, turns)
  {
    forall i | 0 <= i < |turns| ensures Processed(s, turns[i].page) {
      forall r | r in turns[i].page ensures Arrives(turns, r) {}
    }
    if TiesHaveContent(s, turns) {
      forall i | 0 <= i < |turns| ensures Quiet(s, turns[i].page) {
        forall r | r in turns[i].page
          ensures Repeats(MarkOf(SnapshotOf(s, r.identity)), r) { assert Arrives(turns, r); }
      }
      QuietPages(s, turns, next);
    }
    if RunPages(s, turns, next) == Untouched(s, RecordsIn(turns), next) {
      KeptPagesRepeat(s, turns, next);
      forall r | Arrives(turns, r) && TiesWith(MarkOf(SnapshotOf(s, r.identity)).value, r)
        ensures r.fingerprint == SnapshotOf(s, r.identity).value.currentFingerprint
      {
        var i :| 0 <= i < |turns| && r in turns[i].page;
        assert AllRepeat(s, turns[i].page);
        assert Repeats(MarkOf(SnapshotOf(s, r.identity)), r);
      }
    }
  }

  // ---------------------------------------------------------------- exactly when, for any run

  lemma {:induction false} WatermarksRise(m: Mark, rs: seq<Record>)
    ensures AbsorbAll(Some(m), rs).Some?
    ensures var e := AbsorbAll(Some(m), rs).value;
            Greatest(m.sourceUpdatedAt, e.sourceUpdatedAt) == e.sourceUpdatedAt && m.receivedAt <= e.receivedAt
  {
    if rs != [] { WatermarksRise(m, rs[..|rs|-1]); }
  }

  // Watermarks that end where they began were raised by no record on the way.
  lemma {:induction false} SteadyCovers(m: Mark, rs: seq<Record>)
    requires var e := AbsorbAll(Some(m), rs).value;
             e.sourceUpdatedAt == m.sourceUpdatedAt && e.receivedAt == m.receivedAt
    ensures forall r | r in rs :: Covers(Some(m), r)
  {
    if rs != [] {
      var init := rs[..|rs|-1];
      InitOf(rs);
      WatermarksRise(m, init);
      WatermarksRise(AbsorbAll(Some(m), init).value, [rs[|rs|-1]]);
      AbsorbAppend(Some(m), init, [rs[|rs|-1]]);
      assert rs == init + [rs[|rs|-1]];
      SteadyCovers(m, init);
    }
  }

  // Tables that pages leave as they were had those pages' records covered.
  lemma UntouchedProcessed(s: Store, turns: seq<Turn>, next: Id)
    requires Consistent(s, next) && forall r | Arrives(turns, r) :: Current(r)
    requires RunPages(s, turns, next) == Untouched(s, RecordsIn(turns), next)
    ensures PagesProcessed(s, turns)
  {
    forall i, r | 0 <= i < |turns| && r in turns[i].page
      ensures var m := MarkOf(SnapshotOf(s, r.identity));
              Current(r) && Covers(m, r) && (m.value.fingerprint.V1? || Late(m.value, r))
    {
      assert Arrives(turns, r);
      StoredCovers(s, turns, next, r);
    }
  }

  lemma StoredCovers(s: Store, turns: seq<Turn>, next: Id, r: Record)
    requires Consistent(s, next) && Arrives(turns, r) && forall x | Arrives(turns, x) :: Current(x)
    requires RunPages(s, turns, next) == Untouched(s, RecordsIn(turns), next)
    ensures var m := MarkOf(SnapshotOf(s, r.identity));
            Covers(m, r) && (m.value.fingerprint.V1? || Late(m.value, r))
  {
    var k := r.identity;
    var m, rs := MarkOf(SnapshotOf(s, k)), Arrivals(turns, k);
    PagesMark(s, turns, next, k);
    ArrivalsAre(turns, k);
    assert AbsorbAll(m, rs) == m && rs != [];
    SteadyCovers(m.value, rs);
    if m.value.fingerprint.Legacy? { LegacyLeftAlone(m, rs); }
  }

  // What is stored for the record's identity covers it, and the record is late or repeats it.
  predicate Settled(m: Option<Mark>, r: Record) {
    Covers(m, r) && Repeats(m, r)
  }

  lemma UntouchedPagesIff(s: Store, turns: seq<Turn>, next: Id)
    requires Consistent(s, next) && forall r | Arrives(turns, r) :: Current(r)
    ensures RunPages(s, turns, next) == Untouched(s, RecordsIn(turns), next) <==>
              forall r | Arrives(turns, r) :: Settled(MarkOf(SnapshotOf(s, r.identity)), r)
  {
    if forall r | Arrives(turns, r) :: Settled(MarkOf(SnapshotOf(s, r.identity)), r) {
      forall i | 0 <= i < |turns| ensures Quiet(s, turns[i].page) {
        forall r | r in turns[i].page ensures Settled(MarkOf(SnapshotOf(s, r.identity)), r) && Current(r) {
          assert Arrives(turns, r);
        }
      }
      QuietPages(s, turns, next);
    }
    if RunPages(s, turns, next) == Untouched(s, RecordsIn(turns), next) {
      UntouchedProcessed(s, turns, next);
      KeptPagesRepeat(s, turns, next);
      forall r | Arrives(turns, r) ensures Settled(MarkOf(SnapshotOf(s, r.identity)), r) {
        var i :| 0 <= i < |turns| && r in turns[i].page;
        assert Processed(s, turns[i].page) && AllRepeat(s, turns[i].page);
      }
    }
  }

  // The mark that pages leave of an identity, from what was stored before them.
  function Left(s: Store, turns: seq<Turn>, k: Identity): Option<Mark> {
    AbsorbAll(MarkOf(SnapshotOf(s, k)), Arrivals(turns, k))
  }

  // For every run of any pages, with or without timestamps, and any pages that come after it, the run's
  // own among them: they change nothing and all their records count as unchanged if and only if each is
  // settled by what the run leaves.
  lemma AnyRunReplayIff(s: Store, turns: seq<Turn>, next: Id, again: seq<Turn>)
    requires Consistent(s, next) && forall r | Arrives(again, r) :: Current(r)
    ensures RunPages(s, turns, next).Some?
    ensures var p := RunPages(s, turns, next).value;
            RunPages(p.store, again, p.next) == Untouched(p.store, RecordsIn(again), p.next) <==>
              forall r | Arrives(again, r) :: Settled(Left(s, turns, r.identity), r)
  {
    PagesMark(s, turns, next, Identity("", ""));
    var p := RunPages(s, turns, next).value;
    UntouchedPagesIff(p.store, again, p.next);
    forall k: Identity ensures MarkOf(SnapshotOf(p.store, k)) == Left(s, turns, k) {
      PagesMark(s, turns, next, k);
    }
  }

  lemma TwoPagesArrive(a: Record, b: Record, now: Time)
    requires a.identity == b.identity
    ensures Arrivals([Turn([a], now), Turn([b], now)], a.identity) == [a, b]
  {
    var t, u := Turn([a], now), Turn([b], now);
    SingleGroup(a);
    SingleGroup(b);
    assert [t, u][..1] == [t] && [t][..0] == [];
    assert Arrivals([], a.identity) == [];
    assert Arrivals([t], a.identity) == [a];
  }

  lemma {:induction false} TwoAbsorbed(m: Option<Mark>, a: Record, b: Record)
    ensures AbsorbAll(m, [a, b]) == Some(Absorb(Some(Absorb(m, a)), b))
  {
    assert [a, b][..1] == [a] && [a][..0] == [];
    assert AbsorbAll(m, []) == m;
  }

  // Two pages of one record each, from what is stored for their identity.
  lemma TwoPagesMark(s: Store, a: Record, b: Record, next: Id, m: Mark)
    requires Consistent(s, next) && a.identity == b.identity && MarkOf(SnapshotOf(s, a.identity)) == Some(m)
    ensures RunPages(s, [Turn([a], 0), Turn([b], 0)], next).Some?
    ensures var p := RunPages(s, [Turn([a], 0), Turn([b], 0)], next).value;
            Consistent(p.store, p.next)
            && MarkOf(SnapshotOf(p.store, a.identity)) == Some(Absorb(Some(Absorb(Some(m), a)), b))
  {
    TwoPagesArrive(a, b, 0);
    PagesMark(s, [Turn([a], 0), Turn([b], 0)], next, a.identity);
    TwoAbsorbed(Some(m), a, b);
  }

  // A new identity after its first record.
  lemma FirstStored(c: Record) returns (s: Store, next: Id)
    ensures Consistent(s, next)
            && MarkOf(SnapshotOf(s, c.identity)) == Some(Mark(c.fingerprint, c.sourceUpdatedAt, c.receivedAt))
  {
    NothingStored(c.identity);
    RecordMarks(EmptyStore, c, 0, 0, c.identity);
    s, next := RunPage(EmptyStore, [c], 0, 0).value.store, RunPage(EmptyStore, [c], 0, 0).value.next;
    assert [c][..0] == [];
    assert Of([c], c.identity) == [] + [c] == [c];
    assert AbsorbAll(None, [c]) == Some(Absorb(None, c));
  }

  lemma TwoTurns(run: TurnRunner, s: Store, t: Turn, u: Turn, next: Id, p: Progress, q: Progress)
    requires run(s, t, next) == Some(p) && run(p.store, u, p.next) == Some(q)
    ensures RunTurns(run, s, [t, u], next) == Some(q.(metrics := AddMetrics(p.metrics, q.metrics)))
  {
    assert [t, u][..1] == [t] && [t][..0] == [];
    assert RunTurns(run, s, [], next) == Some(Progress(s, NoMetrics, next));
    TurnAfter(run, s, [t], next, Progress(s, NoMetrics, next), p);
    assert AddMetrics(NoMetrics, p.metrics) == p.metrics;
    TurnAfter(run, s, [t, u], next, p, q);
  }

  // Two pages of one record each, the first a change and the second late for it.
  lemma OneMoves(s: Store, a: Record, b: Record, next: Id) returns (again: Progress)
    requires Consistent(s, next) && a.identity == b.identity && SnapshotOf(s, a.identity).Some?
    requires var m := MarkOf(SnapshotOf(s, a.identity)).value;
             !Late(m, a) && m.fingerprint.V1? && m.fingerprint != a.fingerprint && Late(Absorb(Some(m), a), b)
    ensures RunPages(s, [Turn([a], 0), Turn([b], 0)], next) == Some(again) && again.metrics == Metrics(0, 1, 1)
  {
    var p, q := TwoRecords(s, a, b, 0, next);
    RecordCounts(s, a, 0, next);
    RecordCounts(p.store, b, 0, p.next);
    assert RunTurn(s, Turn([a], 0), next) == Some(p) && RunTurn(p.store, Turn([b], 0), p.next) == Some(q);
    TwoTurns(RunTurn, s, Turn([a], 0), Turn([b], 0), next, p, q);
    again := q.(metrics := AddMetrics(p.metrics, q.metrics));
  }

  // The stored timestamp matters: an identity stored without one takes, when the run comes again, a
  // record that was late the first time and writes a version, although every record carries a timestamp and
  // none tie. The two records come in separate pages.
  lemma StoredWithoutTimestampBreaksReplay(c: Record, a: Record, b: Record)
    returns (s: Store, next: Id, p: Progress, again: Progress)
    requires Current(c) && Current(a) && c.identity == a.identity == b.identity
    requires b.fingerprint == c.fingerprint != a.fingerprint
    requires c.sourceUpdatedAt.None? && c.receivedAt == 10
    requires a.sourceUpdatedAt == Some(5) && a.receivedAt == 1 && b.sourceUpdatedAt == Some(3) && b.receivedAt == 20
    ensures Consistent(s, next) && MarkOf(SnapshotOf(s, c.identity)) == Some(Mark(c.fingerprint, None, 10))
    ensures RunPages(s, [Turn([a], 0), Turn([b], 0)], next) == Some(p)
    ensures MarkOf(SnapshotOf(p.store, c.identity)) == Some(Mark(b.fingerprint, Some(3), 20))
    ensures RunPages(p.store, [Turn([a], 0), Turn([b], 0)], p.next) == Some(again) && again.metrics == Metrics(0, 1, 1)
  {
    s, next := FirstStored(c);
    TwoPagesMark(s, a, b, next, Mark(c.fingerprint, None, 10));
    p := RunPages(s, [Turn([a], 0), Turn([b], 0)], next).value;
    again := OneMoves(p.store, a, b, p.next);
  }
}
