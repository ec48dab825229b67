// What writing one identity's rows does to the tables: exactly one product row, one source row, and
// the rows the fold added.
module GroupWrite {
  import opened Prelude
  import opened Transition
  import opened Batch
  import opened ProductStore
  import opened FoldInvariant

  // Where a fold stands relative to the tables it started from.
  ghost predicate Ready(s: Store, id: Identity, start: Option<Snapshot>, f: Fold, first: Id) {
    Consistent(s, first) && start == SnapshotOf(s, id) && FoldInv(start, f, first) && f.cur.Some?
  }

  // The product row once the fold is written.
  function ProductAfter(was: ProductRow, start: Option<Snapshot>, cur: Snapshot, versioned: bool,
                        now: Time): ProductRow {
    if versioned && cur.storedVersion.Some? then
      var v := cur.storedVersion.value;
      if start.None? then InsertedProduct(cur, v, now) else MovedRow(was, MoveTo(start.value, cur, v, now))
    else if start.Some? && cur.currentFingerprint != start.value.currentFingerprint then
      was.(currentFingerprint := cur.currentFingerprint, updatedAt := now)
    else was
  }

  function SourceAfter(was: SourceRow, start: Option<Snapshot>, cur: Snapshot, versioned: bool, id: Identity,
                       now: Time): SourceRow {
    if start.None? then InsertedSource(cur, id, now)
    else was.(lastChangedAt := if versioned then now else was.lastChangedAt,
              lastSourceUpdatedAt := cur.lastSourceUpdatedAt, lastReceivedAt := cur.lastReceivedAt)
  }

  const NoProduct := ProductRow(0, Display("", "", "", ""), None, Legacy(""), 0, 0)
  const NoSource := SourceRow(0, 0, Identity("", ""), 0, 0, None, 0)

  function OldProduct(s: Store, p: Id): ProductRow {
    if p in s.products then s.products[p] else NoProduct
  }

  function OldSource(s: Store, i: Id): SourceRow {
    if i in s.sources then s.sources[i] else NoSource
  }

  function Target(s: Store, start: Option<Snapshot>, f: Fold, id: Identity, now: Time): Store
    requires f.cur.Some?
  {
    var cur := f.cur.value;
    Store(s.products[cur.productId :=
                     ProductAfter(OldProduct(s, cur.productId), start, cur, f.added.versions != [], now)],
          s.sources[cur.productSourceId :=
                    SourceAfter(OldSource(s, cur.productSourceId), start, cur, f.added.versions != [], id, now)],
          s.byIdentity[id := cur.productSourceId],
          s.versions + Index(f.added.versions, VersionKey),
          s.changes + Index(f.added.changes, ChangeKey),
          s.events + Index(f.added.events, EventKey))
  }

  // Where the identity's rows are: nowhere when it is first seen, otherwise where its snapshot says.
  ghost predicate Placed(s: Store, id: Identity, start: Option<Snapshot>, cur: Snapshot) {
    if start.None? then
      id !in s.byIdentity && cur.productId !in s.products && cur.productSourceId !in s.sources
    else
      && id in s.byIdentity && s.byIdentity[id] == cur.productSourceId
      && cur.productId in s.products && cur.productSourceId in s.sources
      && s.sources[cur.productSourceId].productId == cur.productId
      && s.sources[cur.productSourceId].identity == id
      && s.products[cur.productId].currentVersionId == start.value.currentVersionId
      && s.products[cur.productId].currentFingerprint == start.value.currentFingerprint
      && s.sources[cur.productSourceId].lastSourceUpdatedAt == start.value.lastSourceUpdatedAt
      && s.sources[cur.productSourceId].lastReceivedAt == start.value.lastReceivedAt
  }

  lemma ReadyIsPlaced(s: Store, id: Identity, start: Option<Snapshot>, f: Fold, first: Id)
    requires Ready(s, id, start, f, first)
    ensures Placed(s, id, start, f.cur.value)
  {
    if id in s.byIdentity {
      var i := s.byIdentity[id];
      assert i in s.sources && s.sources[i].id == i && s.sources[i].productId in s.products;
      assert s.products[s.sources[i].productId].id == s.sources[i].productId;
      assert HasRow(s, id);
    } else {
      assert !HasRow(s, id);
    }
  }

  lemma MovedByOne(table: map<Id, ProductRow>, p: Id, m: ProductMove)
    requires p in table
    ensures Moved(table, map[p := m]) == table[p := MovedRow(table[p], m)]
  {}

  lemma FingerprintedByOne(table: map<Id, ProductRow>, p: Id, m: FingerprintMove)
    requires p in table
    ensures Fingerprinted(table, map[p := m]) == table[p := FingerprintedRow(table[p], m)]
  {}

  lemma UpdatedByOne(table: map<Id, SourceRow>, i: Id, c: SourceChanged)
    requires i in table
    ensures SourceUpdated(table, map[i := c]) == table[i := ChangedSourceRow(table[i], c)]
  {}

  lemma RaisedByOne(table: map<Id, SourceRow>, i: Id, w: Watermark)
    requires i in table
    ensures Raised(table, map[i := w]) == table[i := RaisedRow(table[i], w)]
  {}

  lemma ByNone(products: map<Id, ProductRow>, sources: map<Id, SourceRow>)
    ensures Moved(products, map[]) == products && Fingerprinted(products, map[]) == products
    ensures SourceUpdated(sources, map[]) == sources && Raised(sources, map[]) == sources
  {}

  lemma WrittenProducts(s: Store, id: Identity, start: Option<Snapshot>, f: Fold, first: Id, now: Time)
    requires StateInv(start, f, first) && f.cur.Some? && Placed(s, id, start, f.cur.value)
    ensures ProductsAfter(s, Emit(start, f, id, now)) == Target(s, start, f, id, now).products
  {
    var p, pid := Emit(start, f, id, now), f.cur.value.productId;
    var inserted := s.products + Index(p.products, ProductKey);
    if start.None? {
      IndexOne(p.products[0], ProductKey);
      ByNone(inserted, s.sources);
    } else {
      assert p.products == [] && inserted == s.products;
      if f.added.versions != [] {
        IndexOne(p.moves[0], MoveKey);
        MovedByOne(inserted, pid, p.moves[0]);
        ByNone(Moved(inserted, map[pid := p.moves[0]]), s.sources);
      } else {
        ByNone(inserted, s.sources);
        if p.fingerprints != [] {
          IndexOne(p.fingerprints[0], FingerprintKey);
          FingerprintedByOne(inserted, pid, p.fingerprints[0]);
        }
      }
    }
  }

  lemma WrittenSources(s: Store, id: Identity, start: Option<Snapshot>, f: Fold, first: Id, now: Time)
    requires StateInv(start, f, first) && f.cur.Some? && Placed(s, id, start, f.cur.value)
    ensures SourcesAfter(s, Emit(start, f, id, now)) == Target(s, start, f, id, now).sources
  {
    var p, sid := Emit(start, f, id, now), f.cur.value.productSourceId;
    var inserted := s.sources + Index(p.sources, SourceKey);
    if start.None? {
      IndexOne(p.sources[0], SourceKey);
      ByNone(s.products, inserted);
    } else {
      assert p.sources == [] && inserted == s.sources;
      ByNone(s.products, inserted);
      if f.added.versions != [] {
        IndexOne(p.sourceChanges[0], SourceChangedKey);
        UpdatedByOne(inserted, sid, p.sourceChanges[0]);
        ByNone(s.products, SourceUpdated(inserted, map[sid := p.sourceChanges[0]]));
      } else if f.touched {
        IndexOne(p.watermarks[0], WatermarkKey);
        RaisedByOne(inserted, sid, p.watermarks[0]);
      }
    }
  }

  lemma EmitAdded(start: Option<Snapshot>, f: Fold, id: Identity, now: Time)
    ensures Emit(start, f, id, now).added == f.added
  {}

  lemma WrittenIdentities(s: Store, id: Identity, start: Option<Snapshot>, f: Fold, first: Id, now: Time)
    requires StateInv(start, f, first) && f.cur.Some? && Placed(s, id, start, f.cur.value)
    ensures s.byIdentity + IdentityIndex(Emit(start, f, id, now).sources) ==
              s.byIdentity[id := f.cur.value.productSourceId]
  {
    var p := Emit(start, f, id, now);
    if start.None? {
      IndexOne(p.sources[0], IdentityOf);
      assert IdentityIndex(p.sources) == map[id := f.cur.value.productSourceId];
    } else {
      assert p.sources == [];
      assert IdentityIndex(p.sources) == map[];
    }
  }

  lemma WrittenIsTarget(s: Store, id: Identity, start: Option<Snapshot>, f: Fold, first: Id, now: Time)
    requires StateInv(start, f, first) && f.cur.Some? && Placed(s, id, start, f.cur.value)
    ensures Written(s, Emit(start, f, id, now)) == Target(s, start, f, id, now)
  {
    WrittenProducts(s, id, start, f, first, now);
    WrittenSources(s, id, start, f, first, now);
    WrittenIdentities(s, id, start, f, first, now);
    EmitAdded(start, f, id, now);
    var w, t := Written(s, Emit(start, f, id, now)), Target(s, start, f, id, now);
    assert w.products == t.products && w.sources == t.sources && w.byIdentity == t.byIdentity;
    assert w.versions == t.versions && w.changes == t.changes && w.events == t.events;
  }
}
