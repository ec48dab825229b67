// What one page of records does to one identity and to the tables: the functions that
// internal/domain/product/batch.go computes. BatchDecider.dfy holds its loops and mutable state.
module Batch {
  import opened Prelude
  import opened Transition
  import Sorting

  datatype Display = Display(canonicalName: string, description: string, brand: string, originCountry: string)

  function DisplayOf(c: Content): Display {
    Display(c.canonicalName, c.description, c.brand, c.originCountry)
  }

  datatype ProductRow = ProductRow(
    id: Id, display: Display, currentVersionId: Option<Id>, currentFingerprint: Fingerprint,
    createdAt: Time, updatedAt: Time)

  datatype SourceRow = SourceRow(
    id: Id, productId: Id, identity: Identity, firstSeenAt: Time, lastChangedAt: Time,
    lastSourceUpdatedAt: Option<Time>, lastReceivedAt: Time)

  datatype ChangeType = ChangeNew | ChangeChanged

  datatype Change = Change(
    id: Id, productId: Id, fromVersionId: Option<Id>, toVersionId: Id, kind: ChangeType,
    fields: seq<Field>, runId: Option<Id>, rawId: Id, detectedAt: Time)

  datatype Event = Event(
    id: Id, productId: Id, versionId: Id, versionNumber: nat, fingerprint: Fingerprint,
    kind: ChangeType, fields: seq<Field>)

  datatype ProductMove = ProductMove(
    productId: Id, expected: Option<Id>, toVersionId: Id, fingerprint: Fingerprint, display: Display, updatedAt: Time)

  datatype FingerprintMove = FingerprintMove(
    productId: Id, expected: Option<Id>, fingerprint: Fingerprint, updatedAt: Time)

  datatype SourceChanged = SourceChanged(
    sourceRowId: Id, lastChangedAt: Time, sourceUpdatedAt: Option<Time>, receivedAt: Time)

  datatype Watermark = Watermark(sourceRowId: Id, sourceUpdatedAt: Option<Time>, receivedAt: Time)

  datatype Metrics = Metrics(added: nat, moved: nat, kept: nat)

  function AddMetrics(a: Metrics, b: Metrics): Metrics {
    Metrics(a.added + b.added, a.moved + b.moved, a.kept + b.kept)
  }

  const NoMetrics := Metrics(0, 0, 0)

  // One version, change and event row per NEW or CHANGED record, and the counts of all records.
  datatype Added = Added(versions: seq<Version>, changes: seq<Change>, events: seq<Event>, metrics: Metrics)

  const NothingAdded := Added([], [], [], NoMetrics)

  function Both(a: Added, b: Added): Added {
    Added(a.versions + b.versions, a.changes + b.changes, a.events + b.events, AddMetrics(a.metrics, b.metrics))
  }

  datatype Plan = Plan(
    added: Added, products: seq<ProductRow>, sources: seq<SourceRow>, moves: seq<ProductMove>,
    fingerprints: seq<FingerprintMove>, watermarks: seq<Watermark>, sourceChanges: seq<SourceChanged>)

  const EmptyPlan := Plan(NothingAdded, [], [], [], [], [], [])

  function Append(a: Plan, b: Plan): Plan {
    Plan(Both(a.added, b.added), a.products + b.products, a.sources + b.sources, a.moves + b.moves,
         a.fingerprints + b.fingerprints, a.watermarks + b.watermarks, a.sourceChanges + b.sourceChanges)
  }

  // ---------------------------------------------------------------- folding one identity

  // The running state of one identity: its snapshot so far, the rows its records added, whether a record
  // was not stale, and the next unused identifier.
  datatype Fold = Fold(cur: Option<Snapshot>, added: Added, touched: bool, next: Id)

  function Begin(start: Option<Snapshot>, next: Id): Fold {
    Fold(start, NothingAdded, false, next)
  }

  function NextNumber(cur: Snapshot): nat {
    if cur.storedVersion.Some? then cur.storedVersion.value.number + 1 else 1
  }

  // A first-seen identity gets a product and a source row identifier.
  function Known(cur: Option<Snapshot>, r: Record, next: Id): Snapshot {
    if cur.Some? then cur.value else Snapshot(next + 1, next, None, Legacy(""), None, r.receivedAt, None)
  }

  function VersionId(cur: Option<Snapshot>, next: Id): Id {
    if cur.Some? then next else next + 2
  }

  function NewVersion(cur: Snapshot, id: Id, r: Record, now: Time): Version {
    Version(id, cur.productId, NextNumber(cur), r.fingerprint, r.content, r.runId, now)
  }

  function NewChange(cur: Snapshot, id: Id, r: Record, kind: ChangeType, fields: seq<Field>, now: Time): Change {
    Change(id + 1, cur.productId, cur.currentVersionId, id, kind, fields, r.runId, r.rawId, now)
  }

  function NewEvent(cur: Snapshot, id: Id, r: Record, kind: ChangeType, fields: seq<Field>): Event {
    Event(id + 2, cur.productId, id, NextNumber(cur), r.fingerprint, kind, fields)
  }

  // A record that was not stale raises both watermarks.
  function Touched(cur: Snapshot, r: Record): Snapshot {
    cur.(lastSourceUpdatedAt := Greatest(cur.lastSourceUpdatedAt, r.sourceUpdatedAt),
         lastReceivedAt := Max(cur.lastReceivedAt, r.receivedAt))
  }

  function AtVersion(cur: Snapshot, v: Version): Snapshot {
    cur.(currentVersionId := Some(v.id), currentFingerprint := v.fingerprint, storedVersion := Some(v))
  }

  function AddVersion(cur: Snapshot, id: Id, r: Record, kind: ChangeType, fields: seq<Field>, now: Time): Fold {
    var v := NewVersion(cur, id, r, now);
    Fold(Some(Touched(AtVersion(cur, v), r)),
         Added([v], [NewChange(cur, id, r, kind, fields, now)], [NewEvent(cur, id, r, kind, fields)],
               if kind.ChangeNew? then Metrics(1, 0, 0) else Metrics(0, 1, 0)),
         true, id + 3)
  }

  function Kept(cur: Option<Snapshot>, touched: bool, next: Id): Fold {
    Fold(cur, Added([], [], [], Metrics(0, 0, 1)), touched, next)
  }

  // What one record does to an identity in state `cur`.
  function Step(cur: Option<Snapshot>, next: Id, r: Record, now: Time): Fold {
    match DecideTransition(cur, r)
    case Stale => Kept(cur, false, next)
    case New => AddVersion(Known(cur, r, next), VersionId(cur, next), r, ChangeNew, [], now)
    case Changed(fields) => AddVersion(Known(cur, r, next), VersionId(cur, next), r, ChangeChanged, fields, now)
    case VersionMismatch => Kept(Some(Touched(cur.value.(currentFingerprint := r.fingerprint), r)), true, next)
    case Unchanged => Kept(Some(Touched(cur.value, r)), true, next)
  }

  function Then(f: Fold, g: Fold): Fold {
    Fold(g.cur, Both(f.added, g.added), f.touched || g.touched, g.next)
  }

  function Apply(f: Fold, r: Record, now: Time): Fold {
    Then(f, Step(f.cur, f.next, r, now))
  }

  function ApplyAll(f: Fold, rs: seq<Record>, now: Time): Fold {
    if rs == [] then f else Apply(ApplyAll(f, rs[..|rs|-1], now), rs[|rs|-1], now)
  }

  // The rows written for an identity, from its state before and after the page.
  function Emit(start: Option<Snapshot>, f: Fold, identity: Identity, now: Time): Plan {
    var base := EmptyPlan.(added := f.added);
    if f.cur.None? then base
    else
      var cur := f.cur.value;
      if start.None? then
        if cur.storedVersion.None? then base
        else base.(products := [InsertedProduct(cur, cur.storedVersion.value, now)],
                   sources := [InsertedSource(cur, identity, now)])
      else if f.added.versions != [] && cur.storedVersion.Some? then
        base.(moves := [MoveTo(start.value, cur, cur.storedVersion.value, now)],
              sourceChanges := [SourceChanged(cur.productSourceId, now, cur.lastSourceUpdatedAt, cur.lastReceivedAt)])
      else if f.touched then
        base.(fingerprints := if cur.currentFingerprint != start.value.currentFingerprint
                              then [FingerprintMove(cur.productId, start.value.currentVersionId,
                                                    cur.currentFingerprint, now)]
                              else [],
              watermarks := [Watermark(cur.productSourceId, cur.lastSourceUpdatedAt, cur.lastReceivedAt)])
      else base
  }

  function InsertedProduct(cur: Snapshot, v: Version, now: Time): ProductRow {
    ProductRow(cur.productId, DisplayOf(v.content), cur.currentVersionId, cur.currentFingerprint, now, now)
  }

  function InsertedSource(cur: Snapshot, identity: Identity, now: Time): SourceRow {
    SourceRow(cur.productSourceId, cur.productId, identity, now, now, cur.lastSourceUpdatedAt, cur.lastReceivedAt)
  }

  function MoveTo(start: Snapshot, cur: Snapshot, v: Version, now: Time): ProductMove {
    ProductMove(cur.productId, start.currentVersionId, v.id, cur.currentFingerprint, DisplayOf(v.content), now)
  }

  // ---------------------------------------------------------------- grouping a page

  // -1, 0 or 1: records without source_updated_at first, then by it, then received_at, then raw id.
  function Compare(a: Record, b: Record): int {
    var byReceipt := if CompareInt(a.receivedAt, b.receivedAt) != 0 then CompareInt(a.receivedAt, b.receivedAt)
                     else CompareInt(a.rawId, b.rawId);
    match (a.sourceUpdatedAt, b.sourceUpdatedAt)
    case (None, Some(_)) => -1
    case (Some(_), None) => 1
    case (Some(x), Some(y)) => if CompareInt(x, y) != 0 then CompareInt(x, y) else byReceipt
    case (None, None) => byReceipt
  }

  predicate NotAfter(a: Record, b: Record) {
    Compare(a, b) <= 0
  }

  // The record the source dates earlier, one it does not date coming before any it does; between two of one
  // date the one received earlier; between two received at once the one with the lower raw identifier.
  predicate Older(a: Record, b: Record) {
    if a.sourceUpdatedAt != b.sourceUpdatedAt then
      a.sourceUpdatedAt.None? || (b.sourceUpdatedAt.Some? && a.sourceUpdatedAt.value < b.sourceUpdatedAt.value)
    else if a.receivedAt != b.receivedAt then a.receivedAt < b.receivedAt
    else a.rawId < b.rawId
  }

  // A total order up to the raw record: the older record comes first, and two records tie only when they are
  // one raw record, received once.
  lemma ProcessingOrderIsTotal()
    ensures Sorting.TotalPreorder(NotAfter)
    ensures forall a, b :: NotAfter(a, b) && NotAfter(b, a) <==>
              a.rawId == b.rawId && a.receivedAt == b.receivedAt && a.sourceUpdatedAt == b.sourceUpdatedAt
    ensures forall a, b :: NotAfter(a, b) && !NotAfter(b, a) <==> Older(a, b)
  {}

  // The records of one identity, in page order.
  function Select(page: seq<Record>, identity: Identity): seq<Record> {
    if page == [] then []
    else
      var rest := Select(page[..|page|-1], identity);
      if page[|page|-1].identity == identity then rest + [page[|page|-1]] else rest
  }

  // The identities of a page, in first-seen order.
  function Identities(page: seq<Record>): seq<Identity> {
    if page == [] then []
    else
      var rest := Identities(page[..|page|-1]);
      if page[|page|-1].identity in rest then rest else rest + [page[|page|-1].identity]
  }

  function Group(page: seq<Record>, identity: Identity): seq<Record> {
    Sorting.StableSort(Select(page, identity), NotAfter)
  }

  // The order in which a page is folded: group after group.
  function ProcessingOrder(page: seq<Record>, ids: seq<Identity>): seq<Record> {
    if ids == [] then [] else ProcessingOrder(page, ids[..|ids|-1]) + Group(page, ids[|ids|-1])
  }

  // ---------------------------------------------------------------- deciding a page

  function StartOf(snapshots: map<Identity, Snapshot>, identity: Identity): Option<Snapshot> {
    if identity in snapshots then Some(snapshots[identity]) else None
  }

  function DecideGroup(start: Option<Snapshot>, identity: Identity, rs: seq<Record>, now: Time, next: Id): (Plan, Id) {
    var f := ApplyAll(Begin(start, next), rs, now);
    (Emit(start, f, identity, now), f.next)
  }

  function DecideGroups(snapshots: map<Identity, Snapshot>, page: seq<Record>, ids: seq<Identity>, now: Time, next: Id)
    : (Plan, Id)
  {
    if ids == [] then (EmptyPlan, next)
    else
      var (plan, n) := DecideGroups(snapshots, page, ids[..|ids|-1], now, next);
      var id := ids[|ids|-1];
      var (p, n') := DecideGroup(StartOf(snapshots, id), id, Group(page, id), now, n);
      (Append(plan, p), n')
  }

  function DecideBatch(snapshots: map<Identity, Snapshot>, page: seq<Record>, now: Time, next: Id): (Plan, Id) {
    DecideGroups(snapshots, page, Identities(page), now, next)
  }
}
