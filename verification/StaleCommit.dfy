// What the version guard does not protect. A plan decided from a snapshot that is no longer current passes
// its guards while no version was added in between, and watermarks carry no guard at all; so two pages at
// once can end where neither order of them ends.
module StaleCommit {
  import opened Prelude
  import opened Transition
  import opened Batch
  import opened ProductStore
  import opened FoldInvariant
  import opened GroupWrite
  import opened BatchRefinement
  import opened Marks
  import opened Replay

  // The plan a worker decides for a page of one record, from what it reads in s.
  function PlanFor(s: Store, r: Record, now: Time, next: Id): Plan {
    DecideBatch(Snapshots(s, Identities([r])), [r], now, next).0
  }

  // What a plan decided for r at mark m makes of the mark n it meets.
  function Overlay(m: Mark, n: Mark, r: Record): Mark {
    if Late(m, r) then n
    else
      Mark(if r.fingerprint == m.fingerprint then n.fingerprint else r.fingerprint,
           Greatest(n.sourceUpdatedAt, Greatest(m.sourceUpdatedAt, r.sourceUpdatedAt)),
           Max(n.receivedAt, Max(m.receivedAt, r.receivedAt)))
  }

  lemma PlanIs(s: Store, r: Record, now: Time, next: Id)
    ensures var start := SnapshotOf(s, r.identity);
            PlanFor(s, r, now, next) == Emit(start, Step(start, next, r, now), r.identity, now)
  {
    var start := SnapshotOf(s, r.identity);
    SingleGroup(r);
    SnapshotsAt(s, [r.identity], r.identity);
    var snaps := Snapshots(s, [r.identity]);
    assert [r.identity][..0] == [];
    assert DecideGroups(snaps, [r], [], now, next) == (EmptyPlan, next);
    StepAlone(start, next, r, now);
    EmptyFirst(DecideGroup(start, r.identity, [r], now, next).0);
  }

  // ---------------------------------------------------------------- the rows a stale plan writes

  // What one record's step at a known snapshot leaves in it.
  lemma StepShape(cur: Snapshot, next: Id, r: Record, now: Time)
    ensures var m, g := MarkOf(Some(cur)).value, Step(Some(cur), next, r, now);
            && g.cur.Some? && g.cur.value.productId == cur.productId
            && g.cur.value.productSourceId == cur.productSourceId
            && MarkOf(g.cur) == Some(Absorb(Some(m), r)) && g.touched == !Late(m, r)
            && (g.added.versions != [] ==>
                  g.touched && r.fingerprint != m.fingerprint && g.cur.value.storedVersion.Some?)
  {}

  // The product's fingerprint is replaced when the fold has a version or other content, and left alone
  // otherwise.
  lemma ProductLands(t: Store, cur: Snapshot, f: Fold, k: Identity, now: Time)
    requires f.cur.Some? && f.cur.value.productId == cur.productId && cur.productId in t.products
    requires f.added.versions != [] ==> f.cur.value.storedVersion.Some?
    requires !f.touched ==> f.added.versions == [] && f.cur.value.currentFingerprint == cur.currentFingerprint
    ensures var products := ProductsAfter(t, Emit(Some(cur), f, k, now));
            && cur.productId in products
            && products[cur.productId].currentFingerprint ==
                 if f.added.versions == [] && f.cur.value.currentFingerprint == cur.currentFingerprint
                 then t.products[cur.productId].currentFingerprint else f.cur.value.currentFingerprint
  {
    var p := Emit(Some(cur), f, k, now);
    assert p.products == [] && t.products + Index(p.products, ProductKey) == t.products;
    ByNone(t.products, t.sources);
    if p.moves != [] {
      IndexOne(p.moves[0], MoveKey);
      MovedByOne(t.products, cur.productId, p.moves[0]);
      ByNone(Moved(t.products, Index(p.moves, MoveKey)), t.sources);
    } else if p.fingerprints != [] {
      IndexOne(p.fingerprints[0], FingerprintKey);
      FingerprintedByOne(t.products, cur.productId, p.fingerprints[0]);
    }
  }

  // The watermarks are raised, never lowered.
  lemma SourceLands(t: Store, cur: Snapshot, f: Fold, k: Identity, now: Time)
    requires f.cur.Some? && f.cur.value.productSourceId == cur.productSourceId && cur.productSourceId in t.sources
    requires f.added.versions != [] ==> f.touched && f.cur.value.storedVersion.Some?
    ensures var i, sources := cur.productSourceId, SourcesAfter(t, Emit(Some(cur), f, k, now));
            && i in sources && sources[i].productId == t.sources[i].productId
            && sources[i].lastSourceUpdatedAt ==
                 (if f.touched then Greatest(t.sources[i].lastSourceUpdatedAt, f.cur.value.lastSourceUpdatedAt)
                  else t.sources[i].lastSourceUpdatedAt)
            && sources[i].lastReceivedAt ==
                 (if f.touched then Max(t.sources[i].lastReceivedAt, f.cur.value.lastReceivedAt)
                  else t.sources[i].lastReceivedAt)
  {
    var p := Emit(Some(cur), f, k, now);
    assert p.sources == [] && t.sources + Index(p.sources, SourceKey) == t.sources;
    ByNone(t.products, t.sources);
    if p.sourceChanges != [] {
      IndexOne(p.sourceChanges[0], SourceChangedKey);
      UpdatedByOne(t.sources, cur.productSourceId, p.sourceChanges[0]);
      ByNone(t.products, SourceUpdated(t.sources, Index(p.sourceChanges, SourceChangedKey)));
    } else if p.watermarks != [] {
      IndexOne(p.watermarks[0], WatermarkKey);
      RaisedByOne(t.sources, cur.productSourceId, p.watermarks[0]);
    }
  }

  // t has the identity's rows where s has them.
  ghost predicate SameRows(s: Store, t: Store, k: Identity) {
    && HasRow(s, k) && HasRow(t, k) && t.byIdentity[k] == s.byIdentity[k]
    && t.sources[t.byIdentity[k]].productId == s.sources[s.byIdentity[k]].productId
  }

  // An identity's mark stands in its two rows.
  lemma RowsMark(s: Store, k: Identity)
    requires HasRow(s, k)
    ensures var src := s.sources[s.byIdentity[k]];
            MarkOf(SnapshotOf(s, k)) ==
              Some(Mark(s.products[src.productId].currentFingerprint, src.lastSourceUpdatedAt, src.lastReceivedAt))
  {}

  lemma AppliedIsWritten(t: Store, p: Plan)
    requires ApplyPlan(t, p).Applied? && p.sources == []
    ensures var after := ApplyPlan(t, p).store;
            && after.products == ProductsAfter(t, p) && after.sources == SourcesAfter(t, p)
            && after.byIdentity == t.byIdentity
  {
    assert t.byIdentity + IdentityIndex(p.sources) == t.byIdentity;
  }

  // What rows that take an identity from mark m to mark e make of the mark n they meet.
  function Laid(m: Mark, e: Mark, touched: bool, replaced: bool, n: Mark): Mark {
    if !touched then n
    else Mark(if replaced then e.fingerprint else n.fingerprint,
              Greatest(n.sourceUpdatedAt, e.sourceUpdatedAt), Max(n.receivedAt, e.receivedAt))
  }

  lemma OverlayIs(m: Mark, n: Mark, r: Record)
    ensures var e := Absorb(Some(m), r);
            Overlay(m, n, r) == Laid(m, e, !Late(m, r), e.fingerprint != m.fingerprint, n)
  {}

  // A fold's rows written over t, where the identity may have moved on since the fold's snapshot.
  lemma EmitLands(t: Store, cur: Snapshot, f: Fold, k: Identity, now: Time)
    requires HasRow(t, k) && t.byIdentity[k] == cur.productSourceId
    requires t.sources[cur.productSourceId].productId == cur.productId
    requires f.cur.Some? && f.cur.value.productId == cur.productId && f.cur.value.productSourceId == cur.productSourceId
    requires f.added.versions != [] ==> f.touched && f.cur.value.storedVersion.Some?
    requires !f.touched ==> f.cur.value.currentFingerprint == cur.currentFingerprint
    requires ApplyPlan(t, Emit(Some(cur), f, k, now)).Applied?
    ensures var after := ApplyPlan(t, Emit(Some(cur), f, k, now)).store;
            var m, e := MarkOf(Some(cur)).value, MarkOf(f.cur).value;
            && SameRows(t, after, k)
            && MarkOf(SnapshotOf(after, k)) ==
                 Some(Laid(m, e, f.touched, f.added.versions != [] || e.fingerprint != m.fingerprint,
                           MarkOf(SnapshotOf(t, k)).value))
  {
    var p := Emit(Some(cur), f, k, now);
    assert p.sources == [];
    AppliedIsWritten(t, p);
    ProductLands(t, cur, f, k, now);
    SourceLands(t, cur, f, k, now);
    RowsMark(t, k);
    RowsMark(ApplyPlan(t, p).store, k);
  }

  // For every consistent s, record and later state of the tables: what committing the plan decided in s
  // makes of the identity. Content that differs from what was read replaces what is there, content that
  // repeats it leaves what is there, and the watermarks only rise.
  lemma CommitOverlays(s: Store, t: Store, r: Record, now: Time, next: Id)
    requires Consistent(s, next) && SameRows(s, t, r.identity)
    requires ApplyPlan(t, PlanFor(s, r, now, next)).Applied?
    ensures var after := ApplyPlan(t, PlanFor(s, r, now, next)).store;
            && SameRows(s, after, r.identity)
            && MarkOf(SnapshotOf(after, r.identity)) ==
                 Some(Overlay(MarkOf(SnapshotOf(s, r.identity)).value, MarkOf(SnapshotOf(t, r.identity)).value, r))
  {
    var k, cur := r.identity, SnapshotOf(s, r.identity).value;
    var f := Step(Some(cur), next, r, now);
    PlanIs(s, r, now, next);
    StepShape(cur, next, r, now);
    assert cur.productSourceId == s.byIdentity[k] && cur.productId == s.sources[s.byIdentity[k]].productId;
    EmitLands(t, cur, f, k, now);
    OverlayIs(MarkOf(Some(cur)).value, MarkOf(SnapshotOf(t, k)).value, r);
  }

  // ---------------------------------------------------------------- two workers at once

  // The record repeats the current content, so its plan carries no guard.
  predicate Confirms(m: Mark, r: Record) {
    !Late(m, r) && r.fingerprint == m.fingerprint
  }

  predicate Replaces(m: Mark, r: Record) {
    !Late(m, r) && r.fingerprint != m.fingerprint
  }

  predicate OnlyWatermarks(p: Plan) {
    && p.added.versions == [] && p.added.changes == [] && p.added.events == []
    && p.products == [] && p.sources == [] && p.moves == [] && p.fingerprints == [] && p.sourceChanges == []
  }

  // The tables differ in watermarks alone.
  ghost predicate SameButWatermarks(s: Store, t: Store) {
    && t.products == s.products && t.byIdentity == s.byIdentity && t.versions == s.versions
    && t.changes == s.changes && t.events == s.events && t.sources.Keys == s.sources.Keys
    && forall i | i in s.sources :: t.sources[i].productId == s.sources[i].productId
  }

  lemma ConfirmsOnlyRaises(s: Store, q: Record, now: Time, next: Id)
    requires SnapshotOf(s, q.identity).Some? && Confirms(MarkOf(SnapshotOf(s, q.identity)).value, q)
    ensures OnlyWatermarks(PlanFor(s, q, now, next))
  {
    PlanIs(s, q, now, next);
    StepShape(SnapshotOf(s, q.identity).value, next, q, now);
  }

  lemma WatermarksWriteNoProducts(t: Store, p: Plan)
    requires OnlyWatermarks(p)
    ensures ProductsAfter(t, p) == t.products
  {
    assert t.products + Index(p.products, ProductKey) == t.products;
    ByNone(t.products, t.sources);
  }

  lemma WatermarksRaiseSources(t: Store, p: Plan)
    requires OnlyWatermarks(p)
    ensures SourcesAfter(t, p).Keys == t.sources.Keys
    ensures forall i | i in t.sources :: SourcesAfter(t, p)[i].productId == t.sources[i].productId
  {
    assert t.sources + Index(p.sources, SourceKey) == t.sources;
    ByNone(t.products, t.sources);
  }

  lemma AddNothing(t: Store, p: Plan)
    requires OnlyWatermarks(p) && ApplyPlan(t, p).Applied?
    ensures var after := ApplyPlan(t, p).store;
            after.versions == t.versions && after.changes == t.changes && after.events == t.events
  {
    assert t.versions + Index(p.added.versions, VersionKey) == t.versions;
    assert t.changes + Index(p.added.changes, ChangeKey) == t.changes;
    assert t.events + Index(p.added.events, EventKey) == t.events;
  }

  lemma WatermarksPassGuards(t: Store, p: Plan)
    requires OnlyWatermarks(p)
    ensures ApplyPlan(t, p).Applied?
  {}

  lemma WatermarksAreAccepted(t: Store, p: Plan)
    requires OnlyWatermarks(p)
    ensures ApplyPlan(t, p).Applied? && SameButWatermarks(t, ApplyPlan(t, p).store)
  {
    WatermarksPassGuards(t, p);
    AppliedIsWritten(t, p);
    WatermarksWriteNoProducts(t, p);
    WatermarksRaiseSources(t, p);
    AddNothing(t, p);
  }

  lemma SourceGuardsSeeKeys(a: map<Id, SourceRow>, b: map<Id, SourceRow>, rows: seq<SourceRow>,
                            changes: seq<SourceChanged>)
    requires a.Keys == b.Keys
    ensures Absent(a, rows, SourceKey) <==> Absent(b, rows, SourceKey)
    ensures SourcesMatch(a + Index(rows, SourceKey), changes) <==> SourcesMatch(b + Index(rows, SourceKey), changes)
  {
    assert forall x: Id :: x in a <==> x in b;
    assert forall x: Id :: x in a + Index(rows, SourceKey) <==> x in b + Index(rows, SourceKey);
  }

  lemma GuardsIgnoreWatermarks(s: Store, t: Store, p: Plan)
    requires SameButWatermarks(s, t) && ApplyPlan(s, p).Applied?
    ensures ApplyPlan(t, p).Applied?
  {
    SourceGuardsSeeKeys(s.sources, t.sources, p.sources, p.sourceChanges);
  }

  lemma DecidedIsAccepted(s: Store, r: Record, now: Time, next: Id)
    requires Consistent(s, next)
    ensures ApplyPlan(s, PlanFor(s, r, now, next)).Applied?
  {
    SingleRecordPage(s, r, now, next);
  }

  // A plan that adds a version moves the product to it, off the version it read.
  lemma VersionLands(t: Store, cur: Snapshot, next: Id, r: Record, now: Time)
    requires cur.productId in t.products && DecideTransition(Some(cur), r).Changed?
    ensures var p := Emit(Some(cur), Step(Some(cur), next, r, now), r.identity, now);
            && cur.productId in ProductsAfter(t, p) && ProductsAfter(t, p)[cur.productId].currentVersionId == Some(next)
            && p.moves != [] && p.moves[0].productId == cur.productId && p.moves[0].expected == cur.currentVersionId
            && p.sources == [] && p.products == []
  {
    var p := Emit(Some(cur), Step(Some(cur), next, r, now), r.identity, now);
    assert p.products == [] && t.products + Index(p.products, ProductKey) == t.products;
    IndexOne(p.moves[0], MoveKey);
    MovedByOne(t.products, cur.productId, p.moves[0]);
    ByNone(Moved(t.products, Index(p.moves, MoveKey)), t.sources);
  }

  lemma MovedOffIsRefused(t: Store, p: Plan)
    requires p.products == [] && p.moves != []
    requires p.moves[0].productId in t.products
    requires t.products[p.moves[0].productId].currentVersionId != p.moves[0].expected
    ensures !ApplyPlan(t, p).Applied?
  {
    assert t.products + Index(p.products, ProductKey) == t.products;
  }

  // Two workers that read the same tables and both replace the content: whichever commits second is
  // refused, whatever identifiers it drew.
  lemma SecondVersionIsRefused(s: Store, a: Record, b: Record, now: Time, next: Id, other: Id)
    requires Consistent(s, next) && a.identity == b.identity && SnapshotOf(s, a.identity).Some?
    requires DecideTransition(SnapshotOf(s, a.identity), a).Changed?
    requires DecideTransition(SnapshotOf(s, b.identity), b).Changed?
    ensures var first := ApplyPlan(s, PlanFor(s, a, now, next));
            first.Applied? && !ApplyPlan(first.store, PlanFor(s, b, now, other)).Applied?
  {
    var cur := SnapshotOf(s, a.identity).value;
    DecidedIsAccepted(s, a, now, next);
    PlanIs(s, a, now, next);
    PlanIs(s, b, now, other);
    VersionLands(s, cur, next, a, now);
    VersionLands(s, cur, other, b, now);
    AppliedIsWritten(s, PlanFor(s, a, now, next));
    assert cur.currentVersionId != Some(next);
    MovedOffIsRefused(ApplyPlan(s, PlanFor(s, a, now, next)).store, PlanFor(s, b, now, other));
  }

  // The mark after both records, neither of which is late, in no order.
  function Joined(m: Mark, q: Record, w: Record): Mark {
    Mark(w.fingerprint, Greatest(Greatest(m.sourceUpdatedAt, q.sourceUpdatedAt), w.sourceUpdatedAt),
         Max(Max(m.receivedAt, q.receivedAt), w.receivedAt))
  }

  lemma ConfirmedFirst(m: Mark, q: Record, w: Record)
    requires Confirms(m, q) && Replaces(m, w)
    ensures Overlay(m, Overlay(m, m, q), w) == Joined(m, q, w)
    ensures Overlay(m, Overlay(m, m, w), q) == Joined(m, q, w)
  {}

  // Two workers read the same tables; one's record confirms the content, the other's replaces it. Both
  // plans are accepted in either order, and both orders end with the new content under the highest
  // watermarks of the two.
  lemma BothAreAccepted(s: Store, q: Record, w: Record, now: Time, next: Id)
    requires Consistent(s, next) && q.identity == w.identity && SnapshotOf(s, w.identity).Some?
    requires var m := MarkOf(SnapshotOf(s, w.identity)).value; Confirms(m, q) && Replaces(m, w)
    ensures var m := MarkOf(SnapshotOf(s, w.identity)).value;
            var confirmed := ApplyPlan(s, PlanFor(s, q, now, next));
            var replaced := ApplyPlan(s, PlanFor(s, w, now, next));
            && confirmed.Applied? && replaced.Applied?
            && var both := ApplyPlan(confirmed.store, PlanFor(s, w, now, next));
               var same := ApplyPlan(replaced.store, PlanFor(s, q, now, next));
               && both.Applied? && MarkOf(SnapshotOf(both.store, w.identity)) == Some(Joined(m, q, w))
               && same.Applied? && MarkOf(SnapshotOf(same.store, w.identity)) == Some(Joined(m, q, w))
  {
    var m := MarkOf(SnapshotOf(s, w.identity)).value;
    var p, o := PlanFor(s, q, now, next), PlanFor(s, w, now, next);
    DecidedIsAccepted(s, q, now, next);
    DecidedIsAccepted(s, w, now, next);
    var confirmed, replaced := ApplyPlan(s, p).store, ApplyPlan(s, o).store;
    ConfirmsOnlyRaises(s, q, now, next);
    WatermarksAreAccepted(s, p);
    WatermarksAreAccepted(replaced, p);
    GuardsIgnoreWatermarks(s, confirmed, o);
    CommitOverlays(s, s, q, now, next);
    CommitOverlays(s, s, w, now, next);
    CommitOverlays(s, confirmed, w, now, next);
    CommitOverlays(s, replaced, q, now, next);
    ConfirmedFirst(m, q, w);
  }

  // What one record after the other leaves.
  function InTurn(m: Mark, a: Record, b: Record): Mark {
    Absorb(Some(Absorb(Some(m), a)), b)
  }

  // The replacing record is not late after the confirming one, or the confirming one is late after it and
  // raises nothing.
  predicate Orderly(m: Mark, q: Record, w: Record) {
    var n := Absorb(Some(m), w);
    || !Late(Absorb(Some(m), q), w)
    || (Late(n, q) && Max(n.receivedAt, q.receivedAt) == n.receivedAt
        && Greatest(n.sourceUpdatedAt, q.sourceUpdatedAt) == n.sourceUpdatedAt)
  }

  lemma JoinedIsInTurnIff(m: Mark, q: Record, w: Record)
    requires Confirms(m, q) && Replaces(m, w)
    ensures Joined(m, q, w) == InTurn(m, q, w) || Joined(m, q, w) == InTurn(m, w, q) <==> Orderly(m, q, w)
  {}

  function MarkAfterPages(s: Store, a: Record, b: Record, next: Id): Option<Mark> {
    match RunPages(s, [Turn([a], 0), Turn([b], 0)], next)
    case Some(p) => MarkOf(SnapshotOf(p.store, a.identity))
    case None => None
  }

  // So the two workers end where processing the two pages one after the other, in one order or the other,
  // ends if and only if the records are orderly.
  lemma RaceIsSerialIff(s: Store, q: Record, w: Record, now: Time, next: Id)
    requires Consistent(s, next) && q.identity == w.identity && SnapshotOf(s, w.identity).Some?
    requires var m := MarkOf(SnapshotOf(s, w.identity)).value; Confirms(m, q) && Replaces(m, w)
    ensures var confirmed := ApplyPlan(s, PlanFor(s, q, now, next));
            && confirmed.Applied?
            && var both := ApplyPlan(confirmed.store, PlanFor(s, w, now, next));
               && both.Applied?
               && var end := MarkOf(SnapshotOf(both.store, w.identity));
                  (end == MarkAfterPages(s, q, w, next) || end == MarkAfterPages(s, w, q, next) <==>
                     Orderly(MarkOf(SnapshotOf(s, w.identity)).value, q, w))
  {
    var m := MarkOf(SnapshotOf(s, w.identity)).value;
    BothAreAccepted(s, q, w, now, next);
    TwoPagesMark(s, q, w, next, m);
    TwoPagesMark(s, w, q, next, m);
    JoinedIsInTurnIff(m, q, w);
  }

  // It happens: the content of an older record under the watermarks of a newer one that confirmed what the
  // older one replaced.
  lemma RaceCanDiffer(c: Record, q: Record, w: Record) returns (s: Store, next: Id)
    requires c.identity == q.identity == w.identity && q.fingerprint == c.fingerprint != w.fingerprint
    requires c.sourceUpdatedAt == Some(5) && c.receivedAt == 1
    requires q.sourceUpdatedAt == Some(10) && q.receivedAt == 2 && w.sourceUpdatedAt == Some(7) && w.receivedAt == 3
    ensures Consistent(s, next) && SnapshotOf(s, c.identity).Some?
    ensures var m := MarkOf(SnapshotOf(s, c.identity)).value;
            Confirms(m, q) && Replaces(m, w) && !Orderly(m, q, w)
            && Joined(m, q, w) == Mark(w.fingerprint, Some(10), 3)
            && MarkAfterPages(s, q, w, next) == Some(Mark(q.fingerprint, Some(10), 2))
            && MarkAfterPages(s, w, q, next) == Some(Mark(q.fingerprint, Some(10), 3))
  {
    s, next := FirstStored(c);
    var m := Mark(c.fingerprint, Some(5), 1);
    TwoPagesMark(s, q, w, next, m);
    TwoPagesMark(s, w, q, next, m);
  }
}
