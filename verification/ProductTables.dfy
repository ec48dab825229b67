// The product tables as mutable state, written statement by statement:
// internal/infrastructure/postgres/product_batch.go. A page's transaction leaves exactly what ApplyPlan
// says, or nothing.
module ProductTables {
  import opened Prelude
  import opened Transition
  import opened Batch
  import opened ProductStore
  import Sorting

  // ---------------------------------------------------------------- statement parameters

  function ByKey<T>(key: T -> Id): (T, T) -> bool {
    (a, b) => key(a) <= key(b)
  }

  function SortedByKey<T>(rows: seq<T>, key: T -> Id): seq<T> {
    Sorting.StableSort(rows, ByKey(key))
  }

  lemma {:induction false} InsertIndex<T>(rows: seq<T>, r: T, key: T -> Id)
    ensures Index(Sorting.Insert(rows, r, ByKey(key)), key) == Index(rows, key)[key(r) := r]
  {
    if rows == [] || ByKey(key)(rows[|rows|-1], r) {
      assert (rows + [r])[..|rows|] == rows;
    } else {
      var init, last := rows[..|rows|-1], rows[|rows|-1];
      InsertIndex(init, r, key);
      var out := Sorting.Insert(init, r, ByKey(key)) + [last];
      assert out[..|out|-1] == Sorting.Insert(init, r, ByKey(key));
    }
  }

  // Sorting the parameters of an update does not change which update a key gets.
  lemma {:induction false} SortedIndex<T>(rows: seq<T>, key: T -> Id)
    ensures Index(SortedByKey(rows, key), key) == Index(rows, key)
  {
    if rows != [] {
      SortedIndex(rows[..|rows|-1], key);
      InsertIndex(SortedByKey(rows[..|rows|-1], key), rows[|rows|-1], key);
    }
  }

  lemma {:induction false} InsertElements<T>(rows: seq<T>, r: T, leq: (T, T) -> bool)
    ensures multiset(Sorting.Insert(rows, r, leq)) == multiset(rows) + multiset{r}
  {
    if rows != [] && !leq(rows[|rows|-1], r) {
      InsertElements(rows[..|rows|-1], r, leq);
      assert rows == rows[..|rows|-1] + [rows[|rows|-1]];
    }
  }

  lemma {:induction false} SortedElements<T>(rows: seq<T>, leq: (T, T) -> bool)
    ensures multiset(Sorting.StableSort(rows, leq)) == multiset(rows)
  {
    if rows != [] {
      SortedElements(rows[..|rows|-1], leq);
      InsertElements(Sorting.StableSort(rows[..|rows|-1], leq), rows[|rows|-1], leq);
      assert rows == rows[..|rows|-1] + [rows[|rows|-1]];
    }
  }

  // The rows that find their target: what an UPDATE ... RETURNING reports.
  function Hits<T>(rows: seq<T>, key: T -> Id, ok: T -> bool): set<Id> {
    set i | 0 <= i < |rows| && ok(rows[i]) :: key(rows[i])
  }

  lemma SameHits<T>(a: seq<T>, b: seq<T>, key: T -> Id, ok: T -> bool)
    requires multiset(a) == multiset(b)
    ensures Hits(a, key, ok) == Hits(b, key, ok)
  {
    forall x: Id ensures x in Hits(a, key, ok) <==> x in Hits(b, key, ok) {
      if x in Hits(a, key, ok) {
        var i :| 0 <= i < |a| && ok(a[i]) && key(a[i]) == x;
        assert a[i] in multiset(a) && a[i] in b;
        var j :| 0 <= j < |b| && b[j] == a[i];
      }
      if x in Hits(b, key, ok) {
        var i :| 0 <= i < |b| && ok(b[i]) && key(b[i]) == x;
        assert b[i] in multiset(b) && b[i] in a;
        var j :| 0 <= j < |a| && a[j] == b[i];
      }
    }
  }

  lemma HitsSnoc<T>(rows: seq<T>, key: T -> Id, ok: T -> bool)
    requires rows != []
    ensures var last := rows[|rows|-1];
            Hits(rows, key, ok) == Hits(rows[..|rows|-1], key, ok) + (if ok(last) then {key(last)} else {})
  {
    var init, last := rows[..|rows|-1], rows[|rows|-1];
    forall x: Id ensures x in Hits(rows, key, ok) <==> x in Hits(init, key, ok) || (ok(last) && x == key(last)) {
      if x in Hits(rows, key, ok) {
        var i :| 0 <= i < |rows| && ok(rows[i]) && key(rows[i]) == x;
        if i < |init| { assert init[i] == rows[i]; }
      }
      if x in Hits(init, key, ok) {
        var i :| 0 <= i < |init| && ok(init[i]) && key(init[i]) == x;
        assert init[i] == rows[i];
      }
    }
  }

  lemma AddOne<T>(a: set<T>, x: T)
    ensures |a + {x}| == |a| + if x in a then 0 else 1
  {
    if x in a { assert a + {x} == a; }
  }

  predicate AllMatch<T>(rows: seq<T>, ok: T -> bool) {
    forall i | 0 <= i < |rows| :: ok(rows[i])
  }

  lemma DistinctSnoc<T>(rows: seq<T>, key: T -> Id, ok: T -> bool)
    requires rows != []
    requires Distinct(rows[..|rows|-1], key) && AllMatch(rows[..|rows|-1], ok)
    ensures Distinct(rows, key) && AllMatch(rows, ok)
            <==> ok(rows[|rows|-1]) && key(rows[|rows|-1]) !in Hits(rows[..|rows|-1], key, ok)
  {
    var init, last := rows[..|rows|-1], rows[|rows|-1];
    if key(last) in Hits(init, key, ok) {
      var i :| 0 <= i < |init| && ok(init[i]) && key(init[i]) == key(last);
      assert key(rows[i]) == key(rows[|rows|-1]);
    } else if ok(last) {
      forall i, j | 0 <= i < j < |rows| ensures key(rows[i]) != key(rows[j]) {
        assert init[i] == rows[i] && ok(init[i]) && key(init[i]) in Hits(init, key, ok);
        if j < |init| { assert init[j] == rows[j]; }
      }
    }
  }

  lemma DistinctInit<T>(rows: seq<T>, key: T -> Id, ok: T -> bool)
    requires rows != [] && Distinct(rows, key) && AllMatch(rows, ok)
    ensures Distinct(rows[..|rows|-1], key) && AllMatch(rows[..|rows|-1], ok)
  {}

  // As many rows are updated as were asked for exactly when every one of them matches, each its own.
  lemma {:induction false} AllUpdated<T>(rows: seq<T>, key: T -> Id, ok: T -> bool)
    ensures |Hits(rows, key, ok)| <= |rows|
    ensures |Hits(rows, key, ok)| == |rows| <==> Distinct(rows, key) && AllMatch(rows, ok)
  {
    if rows == [] {
      assert Hits(rows, key, ok) == {};
    } else {
      var init, last := rows[..|rows|-1], rows[|rows|-1];
      AllUpdated(init, key, ok);
      HitsSnoc(rows, key, ok);
      AddOne(Hits(init, key, ok), key(last));
      if Distinct(init, key) && AllMatch(init, ok) {
        DistinctSnoc(rows, key, ok);
      } else if Distinct(rows, key) && AllMatch(rows, ok) {
        DistinctInit(rows, key, ok);
      }
    }
  }

  function Matching<T>(rows: seq<T>, ok: T -> bool): seq<T> {
    if rows == [] then []
    else Matching(rows[..|rows|-1], ok) + if ok(rows[|rows|-1]) then [rows[|rows|-1]] else []
  }

  lemma {:induction false} AllMatching<T>(rows: seq<T>, ok: T -> bool)
    requires forall i | 0 <= i < |rows| :: ok(rows[i])
    ensures Matching(rows, ok) == rows
  {
    if rows != [] {
      AllMatching(rows[..|rows|-1], ok);
      assert rows == rows[..|rows|-1] + [rows[|rows|-1]];
    }
  }

  // What a counted update amounts to once it is known to have met every row.
  lemma CountedUpdate<T>(rows: seq<T>, key: T -> Id, ok: T -> bool)
    ensures var args := SortedByKey(rows, key);
            && (|Hits(args, key, ok)| == |rows| <==> Distinct(rows, key) && AllMatch(rows, ok))
            && (|Hits(args, key, ok)| == |rows| ==> Index(Matching(args, ok), key) == Index(rows, key))
  {
    var args := SortedByKey(rows, key);
    SortedElements(rows, ByKey(key));
    SameHits(args, rows, key, ok);
    AllUpdated(rows, key, ok);
    SortedIndex(rows, key);
    if |Hits(args, key, ok)| == |rows| {
      forall i | 0 <= i < |args| ensures ok(args[i]) {
        assert args[i] in multiset(args) && args[i] in rows;
      }
      AllMatching(args, ok);
    }
  }

  function OptionalGuard(table: map<Id, ProductRow>, id: Id, expected: Option<Id>): bool {
    id in table && table[id].currentVersionId == expected
  }

  function MoveGuard(table: map<Id, ProductRow>): ProductMove -> bool {
    (m: ProductMove) => OptionalGuard(table, m.productId, m.expected)
  }

  function FingerprintGuard(table: map<Id, ProductRow>): FingerprintMove -> bool {
    (m: FingerprintMove) => OptionalGuard(table, m.productId, m.expected)
  }

  function SourceGuard(table: map<Id, SourceRow>): SourceChanged -> bool {
    (c: SourceChanged) => c.sourceRowId in table
  }

  // The rows a watermark statement would really raise.
  function WatermarkGuard(table: map<Id, SourceRow>): Watermark -> bool {
    (w: Watermark) =>
      w.sourceRowId in table
      && (table[w.sourceRowId].lastSourceUpdatedAt != Greatest(table[w.sourceRowId].lastSourceUpdatedAt,
                                                               w.sourceUpdatedAt)
          || table[w.sourceRowId].lastReceivedAt < w.receivedAt)
  }

  predicate InsertsAccepted(s: Store, p: Plan) {
    && Distinct(p.products, ProductKey) && Absent(s.products, p.products, ProductKey)
    && Distinct(p.sources, SourceKey) && Absent(s.sources, p.sources, SourceKey)
    && Distinct(p.sources, IdentityOf) && Absent(s.byIdentity, p.sources, IdentityOf)
    && Distinct(p.added.versions, VersionKey) && Absent(s.versions, p.added.versions, VersionKey)
    && NumbersFree(s.versions, p.added.versions)
  }

  predicate UpdatesAccepted(products: map<Id, ProductRow>, sources: map<Id, SourceRow>, changes: map<Id, Change>,
                            p: Plan) {
    && MovesMatch(products, p.moves)
    && FingerprintsMatch(Moved(products, Index(p.moves, MoveKey)), p.fingerprints)
    && SourcesMatch(sources, p.sourceChanges)
    && Distinct(p.added.changes, ChangeKey) && Absent(changes, p.added.changes, ChangeKey)
       && TargetsFree(changes, p.added.changes)
  }

  // Every statement of the batch meets its guard, each on the tables the ones before left.
  predicate BatchAccepted(s: Store, p: Plan) {
    InsertsAccepted(s, p)
    && UpdatesAccepted(s.products + Index(p.products, ProductKey), s.sources + Index(p.sources, SourceKey), s.changes,
                       p)
  }

  lemma AppliedIffAccepted(s: Store, p: Plan)
    ensures ApplyPlan(s, p).Applied?
            <==> BatchAccepted(s, p) && Distinct(p.added.events, EventKey) && Absent(s.events, p.added.events, EventKey)
    ensures ApplyPlan(s, p).Applied? ==> ApplyPlan(s, p).store == Written(s, p)
  {}

  // ---------------------------------------------------------------- the tables

  lemma AllMovesMatch(table: map<Id, ProductRow>, updates: seq<ProductMove>)
    ensures Distinct(updates, MoveKey) && AllMatch(updates, MoveGuard(table)) <==> MovesMatch(table, updates)
  {
    forall i | 0 <= i < |updates|
      ensures MoveGuard(table)(updates[i])
              <==> updates[i].productId in table && table[updates[i].productId].currentVersionId == updates[i].expected
    {}
  }

  lemma AllFingerprintsMatch(table: map<Id, ProductRow>, updates: seq<FingerprintMove>)
    ensures Distinct(updates, FingerprintKey) && AllMatch(updates, FingerprintGuard(table))
            <==> FingerprintsMatch(table, updates)
  {
    forall i | 0 <= i < |updates|
      ensures FingerprintGuard(table)(updates[i])
              <==> updates[i].productId in table && table[updates[i].productId].currentVersionId == updates[i].expected
    {}
  }

  // What counting the hits of a guarded update says, for each kind of update.
  lemma MovesCounted(table: map<Id, ProductRow>, updates: seq<ProductMove>)
    ensures var args, ok := SortedByKey(updates, MoveKey), MoveGuard(table);
            && (|Hits(args, MoveKey, ok)| == |updates| <==> MovesMatch(table, updates))
            && (MovesMatch(table, updates) ==>
                Moved(table, Index(Matching(args, ok), MoveKey)) == Moved(table, Index(updates, MoveKey)))
  {
    CountedUpdate(updates, MoveKey, MoveGuard(table));
    AllMovesMatch(table, updates);
  }

  lemma FingerprintsCounted(table: map<Id, ProductRow>, updates: seq<FingerprintMove>)
    ensures var args, ok := SortedByKey(updates, FingerprintKey), FingerprintGuard(table);
            && (|Hits(args, FingerprintKey, ok)| == |updates| <==> FingerprintsMatch(table, updates))
            && (FingerprintsMatch(table, updates) ==>
                  Fingerprinted(table, Index(Matching(args, ok), FingerprintKey)) ==
                    Fingerprinted(table, Index(updates, FingerprintKey)))
  {
    CountedUpdate(updates, FingerprintKey, FingerprintGuard(table));
    AllFingerprintsMatch(table, updates);
  }

  lemma NothingMoves(table: map<Id, ProductRow>)
    ensures MovesMatch(table, []) && Moved(table, Index([], MoveKey)) == table
    ensures FingerprintsMatch(table, []) && Fingerprinted(table, Index([], FingerprintKey)) == table
  {}

  class Tables {
    var products: map<Id, ProductRow>
    var sources: map<Id, SourceRow>
    var byIdentity: map<Identity, Id>
    var versions: map<Id, Version>
    var changes: map<Id, Change>
    var events: map<Id, Event>

    constructor ()
      ensures Value() == EmptyStore
    {
      products, sources, byIdentity, versions, changes, events := map[], map[], map[], map[], map[], map[];
    }

    function Value(): Store
      reads this
    {
      Store(products, sources, byIdentity, versions, changes, events)
    }

    // COPY statements fail on the first unique violation.

    method CopyProducts(rows: seq<ProductRow>) returns (ok: bool)
      modifies this`products
      ensures ok == (Distinct(rows, ProductKey) && Absent(old(products), rows, ProductKey))
      ensures ok ==> products == old(products) + Index(rows, ProductKey)
    {
      ok := Distinct(rows, ProductKey) && Absent(products, rows, ProductKey);
      if ok { products := products + Index(rows, ProductKey); }
    }

    method CopySources(rows: seq<SourceRow>) returns (ok: bool)
      modifies this`sources, this`byIdentity
      ensures ok == (Distinct(rows, SourceKey) && Absent(old(sources), rows, SourceKey)
                     && Distinct(rows, IdentityOf) && Absent(old(byIdentity), rows, IdentityOf))
      ensures ok ==>
                sources == old(sources) + Index(rows, SourceKey) && byIdentity == old(byIdentity) + IdentityIndex(rows)
    {
      ok := Distinct(rows, SourceKey) && Absent(sources, rows, SourceKey)
            && Distinct(rows, IdentityOf) && Absent(byIdentity, rows, IdentityOf);
      if ok {
        sources := sources + Index(rows, SourceKey);
        byIdentity := byIdentity + IdentityIndex(rows);
      }
    }

    method CopyVersions(rows: seq<Version>) returns (ok: bool)
      modifies this`versions
      ensures ok == (Distinct(rows, VersionKey) && Absent(old(versions), rows, VersionKey)
                     && NumbersFree(old(versions), rows))
      ensures ok ==> versions == old(versions) + Index(rows, VersionKey)
    {
      ok := Distinct(rows, VersionKey) && Absent(versions, rows, VersionKey) && NumbersFree(versions, rows);
      if ok { versions := versions + Index(rows, VersionKey); }
    }

    method CopyChanges(rows: seq<Change>) returns (ok: bool)
      modifies this`changes
      ensures ok == (Distinct(rows, ChangeKey) && Absent(old(changes), rows, ChangeKey)
                     && TargetsFree(old(changes), rows))
      ensures ok ==> changes == old(changes) + Index(rows, ChangeKey)
    {
      ok := Distinct(rows, ChangeKey) && Absent(changes, rows, ChangeKey) && TargetsFree(changes, rows);
      if ok { changes := changes + Index(rows, ChangeKey); }
    }

    method CopyEvents(rows: seq<Event>) returns (ok: bool)
      modifies this`events
      ensures ok == (Distinct(rows, EventKey) && Absent(old(events), rows, EventKey))
      ensures ok ==> events == old(events) + Index(rows, EventKey)
    {
      ok := Distinct(rows, EventKey) && Absent(events, rows, EventKey);
      if ok { events := events + Index(rows, EventKey); }
    }

    // UPDATE statements write the rows they match and report them.

    method BatchGuardedUpdateProductVersion(args: seq<ProductMove>) returns (updated: set<Id>)
      modifies this`products
      ensures updated == Hits(args, MoveKey, MoveGuard(old(products)))
      ensures products == Moved(old(products), Index(Matching(args, MoveGuard(old(products))), MoveKey))
    {
      updated := Hits(args, MoveKey, MoveGuard(products));
      products := Moved(products, Index(Matching(args, MoveGuard(products)), MoveKey));
    }

    method BatchGuardedUpdateProductFingerprintOnly(args: seq<FingerprintMove>) returns (updated: set<Id>)
      modifies this`products
      ensures updated == Hits(args, FingerprintKey, FingerprintGuard(old(products)))
      ensures products == Fingerprinted(old(products),
                                        Index(Matching(args, FingerprintGuard(old(products))), FingerprintKey))
    {
      updated := Hits(args, FingerprintKey, FingerprintGuard(products));
      products := Fingerprinted(products, Index(Matching(args, FingerprintGuard(products)), FingerprintKey));
    }

    method BatchUpdateProductSourceOnChanged(args: seq<SourceChanged>) returns (updated: nat)
      modifies this`sources
      ensures updated == |Hits(args, SourceChangedKey, SourceGuard(old(sources)))|
      ensures sources == SourceUpdated(old(sources), Index(Matching(args, SourceGuard(old(sources))), SourceChangedKey))
    {
      updated := |Hits(args, SourceChangedKey, SourceGuard(sources))|;
      sources := SourceUpdated(sources, Index(Matching(args, SourceGuard(sources)), SourceChangedKey));
    }

    // Skips the rows that are already at or past their watermark.
    method BatchUpdateProductSourceWatermarks(args: seq<Watermark>)
      modifies this`sources
      ensures sources == Raised(old(sources), Index(args, WatermarkKey))
    {
      var marks := Index(args, WatermarkKey);
      IndexKeys(args, WatermarkKey);
      sources := map i | i in sources ::
        if i in marks && WatermarkGuard(sources)(marks[i]) then RaisedRow(sources[i], marks[i]) else sources[i];
    }

    // ---------------------------------------------------------------- the repository

    method UpdateProductVersions(updates: seq<ProductMove>) returns (ok: bool)
      modifies this`products
      ensures ok == MovesMatch(old(products), updates)
      ensures ok ==> products == Moved(old(products), Index(updates, MoveKey))
    {
      if |updates| == 0 {
        NothingMoves(products);
        return true;
      }
      MovesCounted(products, updates);
      var updated := BatchGuardedUpdateProductVersion(SortedByKey(updates, MoveKey));
      ok := |updated| == |updates|;
    }

    method UpdateProductFingerprints(updates: seq<FingerprintMove>) returns (ok: bool)
      modifies this`products
      ensures ok == FingerprintsMatch(old(products), updates)
      ensures ok ==> products == Fingerprinted(old(products), Index(updates, FingerprintKey))
    {
      if |updates| == 0 {
        NothingMoves(products);
        return true;
      }
      FingerprintsCounted(products, updates);
      var updated := BatchGuardedUpdateProductFingerprintOnly(SortedByKey(updates, FingerprintKey));
      ok := |updated| == |updates|;
    }

    method UpdateSourcesOnChanged(updates: seq<SourceChanged>) returns (ok: bool)
      modifies this`sources
      ensures ok == SourcesMatch(old(sources), updates)
      ensures ok ==> sources == SourceUpdated(old(sources), Index(updates, SourceChangedKey))
    {
      if |updates| == 0 {
        return true;
      }
      CountedUpdate(updates, SourceChangedKey, SourceGuard(sources));
      var updated := BatchUpdateProductSourceOnChanged(SortedByKey(updates, SourceChangedKey));
      ok := updated == |updates|;
    }

    method UpdateSourceWatermarks(updates: seq<Watermark>)
      modifies this`sources
      ensures sources == Raised(old(sources), Index(updates, WatermarkKey))
    {
      if |updates| == 0 {
        return;
      }
      SortedIndex(updates, WatermarkKey);
      BatchUpdateProductSourceWatermarks(SortedByKey(updates, WatermarkKey));
    }

    // The first half of ApplyBatch: new rows, which later statements may refer to.
    method InsertRows(plan: Plan) returns (ok: bool)
      modifies this`products, this`sources, this`byIdentity, this`versions
      ensures ok == InsertsAccepted(old(Value()), plan)
      ensures ok ==>
        && products == old(products) + Index(plan.products, ProductKey)
        && sources == old(sources) + Index(plan.sources, SourceKey)
        && byIdentity == old(byIdentity) + IdentityIndex(plan.sources)
        && versions == old(versions) + Index(plan.added.versions, VersionKey)
    {
      ok := CopyProducts(plan.products);
      if !ok { return; }
      ok := CopySources(plan.sources);
      if !ok { return; }
      ok := CopyVersions(plan.added.versions);
    }

    // The second half: guarded updates, watermarks, change rows.
    method UpdateRows(plan: Plan) returns (ok: bool)
      modifies this`products, this`sources, this`changes
      ensures ok == UpdatesAccepted(old(products), old(sources), old(changes), plan)
      ensures ok ==>
        && products == Fingerprinted(Moved(old(products), Index(plan.moves, MoveKey)),
                                     Index(plan.fingerprints, FingerprintKey))
        && sources == Raised(SourceUpdated(old(sources), Index(plan.sourceChanges, SourceChangedKey)),
                             Index(plan.watermarks, WatermarkKey))
        && changes == old(changes) + Index(plan.added.changes, ChangeKey)
    {
      ok := UpdateProductVersions(plan.moves);
      if !ok { return; }
      ok := UpdateProductFingerprints(plan.fingerprints);
      if !ok { return; }
      ok := UpdateSourcesOnChanged(plan.sourceChanges);
      if !ok { return; }
      UpdateSourceWatermarks(plan.watermarks);
      ok := CopyChanges(plan.added.changes);
    }

    // Table after table, stopping at the first failure.
    method ApplyBatch(plan: Plan) returns (ok: bool)
      modifies this
      ensures events == old(events)
      ensures ok == BatchAccepted(old(Value()), plan)
      ensures ok ==> Value() == Written(old(Value()), plan).(events := old(events))
    {
      ok := InsertRows(plan);
      if !ok { return; }
      ok := UpdateRows(plan);
    }

    // The page's transaction: the batch and its outbox events, or nothing.
    method CommitPlan(plan: Plan) returns (ok: bool)
      modifies this
      ensures ok == ApplyPlan(old(Value()), plan).Applied?
      ensures Value() == if ok then ApplyPlan(old(Value()), plan).store else old(Value())
    {
      var before := Value();
      AppliedIffAccepted(before, plan);
      ok := ApplyBatch(plan);
      if ok {
        ok := CopyEvents(plan.added.events);
      }
      if !ok {
        products, sources, byIdentity := before.products, before.sources, before.byIdentity;
        versions, changes, events := before.versions, before.changes, before.events;
      }
    }
  }
}
