// The product tables and what ApplyBatch writes to them, in one transaction together with the plan's
// outbox events: internal/infrastructure/postgres/product_batch.go and the statements it runs.
module ProductStore {
  import opened Prelude
  import opened Transition
  import opened Batch

  // `byIdentity` is the unique index on (source_id, external_product_id).
  datatype Store = Store(
    products: map<Id, ProductRow>, sources: map<Id, SourceRow>, byIdentity: map<Identity, Id>,
    versions: map<Id, Version>, changes: map<Id, Change>, events: map<Id, Event>)

  const EmptyStore := Store(map[], map[], map[], map[], map[], map[])

  datatype Outcome = Applied(store: Store) | IdentityConflict | VersionConflict | DuplicateId

  function ProductKey(r: ProductRow): Id { r.id }
  function SourceKey(r: SourceRow): Id { r.id }
  function VersionKey(r: Version): Id { r.id }
  function ChangeKey(r: Change): Id { r.id }
  function EventKey(r: Event): Id { r.id }
  function MoveKey(r: ProductMove): Id { r.productId }
  function FingerprintKey(r: FingerprintMove): Id { r.productId }
  function SourceChangedKey(r: SourceChanged): Id { r.sourceRowId }
  function WatermarkKey(r: Watermark): Id { r.sourceRowId }
  function IdentityOf(r: SourceRow): Identity { r.identity }

  // The rows of a statement, by key.
  function Index<K, T>(rows: seq<T>, key: T -> K): map<K, T> {
    if rows == [] then map[] else Index(rows[..|rows|-1], key)[key(rows[|rows|-1]) := rows[|rows|-1]]
  }

  // No two rows have one key.
  predicate Distinct<K(==), T>(rows: seq<T>, key: T -> K) {
    forall i, j | 0 <= i < j < |rows| :: key(rows[i]) != key(rows[j])
  }

  predicate Absent<K(==), T, U>(table: map<K, U>, rows: seq<T>, key: T -> K) {
    forall i | 0 <= i < |rows| :: key(rows[i]) !in table
  }

  lemma {:induction false} IndexAppend<K, T>(a: seq<T>, b: seq<T>, key: T -> K)
    ensures Index(a + b, key) == Index(a, key) + Index(b, key)
  {
    if b == [] {
      assert a + b == a;
    } else {
      assert (a + b)[..|a + b|-1] == a + b[..|b|-1];
      IndexAppend(a, b[..|b|-1], key);
    }
  }

  lemma {:induction false} IndexKeys<K, T>(rows: seq<T>, key: T -> K)
    ensures forall k :: k in Index(rows, key) <==> exists i :: 0 <= i < |rows| && key(rows[i]) == k
    ensures forall i | 0 <= i < |rows| :: key(rows[i]) in Index(rows, key)
    ensures forall k | k in Index(rows, key) :: Index(rows, key)[k] in rows && key(Index(rows, key)[k]) == k
  {
    if rows != [] {
      IndexKeys(rows[..|rows|-1], key);
      assert rows == rows[..|rows|-1] + [rows[|rows|-1]];
    }
  }

  lemma IndexOne<K, T>(row: T, key: T -> K)
    ensures Index([row], key) == map[key(row) := row]
  {
    assert [row][..0] == [];
  }

  // ---------------------------------------------------------------- statements

  // UPDATE products ... WHERE current_version_id IS NOT DISTINCT FROM expected: true when every row of
  // the statement matches exactly one product, which is when requireAllUpdated is satisfied.
  predicate MovesMatch(table: map<Id, ProductRow>, moves: seq<ProductMove>) {
    Distinct(moves, MoveKey) &&
    forall i | 0 <= i < |moves| ::
      moves[i].productId in table && table[moves[i].productId].currentVersionId == moves[i].expected
  }

  predicate FingerprintsMatch(table: map<Id, ProductRow>, moves: seq<FingerprintMove>) {
    Distinct(moves, FingerprintKey) &&
    forall i | 0 <= i < |moves| ::
      moves[i].productId in table && table[moves[i].productId].currentVersionId == moves[i].expected
  }

  predicate SourcesMatch(table: map<Id, SourceRow>, changes: seq<SourceChanged>) {
    Distinct(changes, SourceChangedKey) &&
    forall i | 0 <= i < |changes| :: changes[i].sourceRowId in table
  }

  // The unique constraint on (product_id, version_number).
  predicate NumbersFree(table: map<Id, Version>, rows: seq<Version>) {
    && (forall i, j | 0 <= i < j < |rows| :: rows[i].productId != rows[j].productId || rows[i].number != rows[j].number)
    && (forall i, v | 0 <= i < |rows| && v in table ::
          table[v].productId != rows[i].productId || table[v].number != rows[i].number)
  }

  // The unique constraint on product_changes.to_version_id.
  predicate TargetsFree(table: map<Id, Change>, rows: seq<Change>) {
    && (forall i, j | 0 <= i < j < |rows| :: rows[i].toVersionId != rows[j].toVersionId)
    && (forall i, c | 0 <= i < |rows| && c in table :: table[c].toVersionId != rows[i].toVersionId)
  }

  // Rewrites the rows that have an update.
  function Updated<K, R, U>(table: map<K, R>, updates: map<K, U>, write: (R, U) -> R): map<K, R> {
    map k | k in table :: if k in updates then write(table[k], updates[k]) else table[k]
  }

  function MovedRow(p: ProductRow, m: ProductMove): ProductRow {
    p.(currentVersionId := Some(m.toVersionId), currentFingerprint := m.fingerprint, display := m.display,
       updatedAt := m.updatedAt)
  }

  function Moved(table: map<Id, ProductRow>, moves: map<Id, ProductMove>): map<Id, ProductRow> {
    Updated(table, moves, MovedRow)
  }

  function FingerprintedRow(p: ProductRow, m: FingerprintMove): ProductRow {
    p.(currentFingerprint := m.fingerprint, updatedAt := m.updatedAt)
  }

  function Fingerprinted(table: map<Id, ProductRow>, moves: map<Id, FingerprintMove>): map<Id, ProductRow> {
    Updated(table, moves, FingerprintedRow)
  }

  function ChangedSourceRow(s: SourceRow, c: SourceChanged): SourceRow {
    s.(lastChangedAt := c.lastChangedAt,
       lastSourceUpdatedAt := Greatest(s.lastSourceUpdatedAt, c.sourceUpdatedAt),
       lastReceivedAt := Max(s.lastReceivedAt, c.receivedAt))
  }

  function SourceUpdated(table: map<Id, SourceRow>, changes: map<Id, SourceChanged>): map<Id, SourceRow> {
    Updated(table, changes, ChangedSourceRow)
  }

  // Rows already at or past the watermark are left alone, which writes the same values.
  function RaisedRow(s: SourceRow, w: Watermark): SourceRow {
    s.(lastSourceUpdatedAt := Greatest(s.lastSourceUpdatedAt, w.sourceUpdatedAt),
       lastReceivedAt := Max(s.lastReceivedAt, w.receivedAt))
  }

  function Raised(table: map<Id, SourceRow>, marks: map<Id, Watermark>): map<Id, SourceRow> {
    Updated(table, marks, RaisedRow)
  }

  function IdentityIndex(rows: seq<SourceRow>): map<Identity, Id> {
    var byIdentity := Index(rows, IdentityOf);
    map k | k in byIdentity :: byIdentity[k].id
  }

  predicate InsertsFree(s: Store, p: Plan) {
    && Distinct(p.products, ProductKey) && Absent(s.products, p.products, ProductKey)
    && Distinct(p.sources, SourceKey) && Absent(s.sources, p.sources, SourceKey)
    && Distinct(p.added.versions, VersionKey) && Absent(s.versions, p.added.versions, VersionKey)
    && Distinct(p.added.changes, ChangeKey) && Absent(s.changes, p.added.changes, ChangeKey)
    && Distinct(p.added.events, EventKey) && Absent(s.events, p.added.events, EventKey)
    && TargetsFree(s.changes, p.added.changes)
  }

  predicate IdentitiesFree(s: Store, p: Plan) {
    Distinct(p.sources, IdentityOf) && Absent(s.byIdentity, p.sources, IdentityOf)
  }

  function ProductsAfter(s: Store, p: Plan): map<Id, ProductRow> {
    Fingerprinted(Moved(s.products + Index(p.products, ProductKey), Index(p.moves, MoveKey)),
                  Index(p.fingerprints, FingerprintKey))
  }

  function SourcesAfter(s: Store, p: Plan): map<Id, SourceRow> {
    Raised(SourceUpdated(s.sources + Index(p.sources, SourceKey), Index(p.sourceChanges, SourceChangedKey)),
           Index(p.watermarks, WatermarkKey))
  }

  function Written(s: Store, p: Plan): Store {
    Store(ProductsAfter(s, p), SourcesAfter(s, p),
          s.byIdentity + IdentityIndex(p.sources),
          s.versions + Index(p.added.versions, VersionKey),
          s.changes + Index(p.added.changes, ChangeKey),
          s.events + Index(p.added.events, EventKey))
  }

  // The transaction: every statement succeeds and everything is written, or nothing is.
  function ApplyPlan(s: Store, p: Plan): Outcome {
    if !InsertsFree(s, p) then DuplicateId
    else if !IdentitiesFree(s, p) then IdentityConflict
    else if !NumbersFree(s.versions, p.added.versions) then VersionConflict
    else
      var inserted := s.products + Index(p.products, ProductKey);
      if !MovesMatch(inserted, p.moves) then VersionConflict
      else if !FingerprintsMatch(Moved(inserted, Index(p.moves, MoveKey)), p.fingerprints) then VersionConflict
      else if !SourcesMatch(s.sources + Index(p.sources, SourceKey), p.sourceChanges) then VersionConflict
      else Applied(Written(s, p))
  }

  // ---------------------------------------------------------------- snapshots

  predicate HasRow(s: Store, k: Identity) {
    k in s.byIdentity && s.byIdentity[k] in s.sources && s.sources[s.byIdentity[k]].productId in s.products
  }

  // FindSnapshotsByIdentities for one identity: source row joined to its product, left join to the
  // product's current version.
  function SnapshotOf(s: Store, k: Identity): Option<Snapshot> {
    if !HasRow(s, k) then None
    else
      var src := s.sources[s.byIdentity[k]];
      var p := s.products[src.productId];
      Some(Snapshot(src.id, p.id, p.currentVersionId, p.currentFingerprint, src.lastSourceUpdatedAt,
                    src.lastReceivedAt,
                    if p.currentVersionId.Some? && p.currentVersionId.value in s.versions
                    then Some(s.versions[p.currentVersionId.value]) else None))
  }

  function Snapshots(s: Store, ids: seq<Identity>): map<Identity, Snapshot> {
    map k | k in ids && SnapshotOf(s, k).Some? :: SnapshotOf(s, k).value
  }

  // The identity index is exact and each identity has a product of its own.
  ghost predicate SourcesOk(s: Store, next: Id) {
    && (forall k | k in s.byIdentity :: s.byIdentity[k] in s.sources && s.sources[s.byIdentity[k]].identity == k)
    && (forall i | i in s.sources :: s.sources[i].id == i && i < next && s.sources[i].productId in s.products
          && s.sources[i].identity in s.byIdentity && s.byIdentity[s.sources[i].identity] == i)
    && (forall i, j | i in s.sources && j in s.sources && s.sources[i].productId == s.sources[j].productId :: i == j)
  }

  // A product's current version exists and belongs to it.
  ghost predicate ProductsOk(s: Store, next: Id) {
    && (forall p | p in s.products :: s.products[p].id == p && p < next)
    && (forall p | p in s.products && s.products[p].currentVersionId.Some? ::
          s.products[p].currentVersionId.value in s.versions
          && s.versions[s.products[p].currentVersionId.value].productId == p)
  }

  // No version of a product is numbered above its current one.
  ghost predicate VersionsOk(s: Store, next: Id) {
    forall v | v in s.versions :: s.versions[v].id == v && v < next && Bounded(s, s.versions[v])
  }

  ghost predicate LogsOk(s: Store, next: Id) {
    && (forall c | c in s.changes :: s.changes[c].id == c && c < next && s.changes[c].toVersionId < next)
    && (forall e | e in s.events :: s.events[e].id == e && e < next)
  }

  // What the schema and the writers keep true of the tables; no identifier at or above `next` is in use.
  ghost predicate Consistent(s: Store, next: Id) {
    SourcesOk(s, next) && ProductsOk(s, next) && VersionsOk(s, next) && LogsOk(s, next)
  }

  // The version's product exists and currently has a version numbered at least as high.
  predicate Bounded(s: Store, v: Version) {
    v.productId in s.products && s.products[v.productId].currentVersionId.Some?
    && s.products[v.productId].currentVersionId.value in s.versions
    && v.number <= s.versions[s.products[v.productId].currentVersionId.value].number
  }
}
