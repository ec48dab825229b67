// Two plans that touch different rows can be written one after the other or in one transaction.
module PlanAppend {
  import opened Prelude
  import opened Transition
  import opened Batch
  import opened ProductStore

  function Keys<K, T>(rows: seq<T>, key: T -> K): set<K> {
    Index(rows, key).Keys
  }

  // No row that `b` updates is written by `a`, and `a` updates no row that `b` inserts.
  ghost predicate Apart(a: Plan, b: Plan) {
    && Keys(b.moves, MoveKey) + Keys(b.fingerprints, FingerprintKey)
       !! Keys(a.products, ProductKey) + Keys(a.moves, MoveKey) + Keys(a.fingerprints, FingerprintKey)
    && Keys(b.products, ProductKey) !! Keys(a.moves, MoveKey) + Keys(a.fingerprints, FingerprintKey)
    && Keys(b.sourceChanges, SourceChangedKey) + Keys(b.watermarks, WatermarkKey)
       !! Keys(a.sources, SourceKey) + Keys(a.sourceChanges, SourceChangedKey) + Keys(a.watermarks, WatermarkKey)
    && Keys(b.sources, SourceKey) !! Keys(a.sourceChanges, SourceChangedKey) + Keys(a.watermarks, WatermarkKey)
  }

  // ---------------------------------------------------------------- what is written

  lemma UpdateTwice<K, R, U>(t: map<K, R>, a: map<K, U>, b: map<K, U>, write: (R, U) -> R)
    requires a.Keys !! b.Keys
    ensures Updated(t, a + b, write) == Updated(Updated(t, a, write), b, write)
  {}

  lemma UpdateOthers<K, R, U>(t: map<K, R>, extra: map<K, R>, a: map<K, U>, write: (R, U) -> R)
    requires a.Keys !! extra.Keys
    ensures Updated(t + extra, a, write) == Updated(t, a, write) + extra
  {}

  lemma UpdatesCommute<K, R, U, W>(t: map<K, R>, a: map<K, U>, b: map<K, W>, f: (R, U) -> R, g: (R, W) -> R)
    requires a.Keys !! b.Keys
    ensures Updated(Updated(t, a, f), b, g) == Updated(Updated(t, b, g), a, f)
  {}

  // Two kinds of update after an insert, done for `a` and then for `b`, or for both at once.
  lemma TableCompose<K, R, U, W>(t: map<K, R>, ia: map<K, R>, ua: map<K, U>, wa: map<K, W>,
                                 ib: map<K, R>, ub: map<K, U>, wb: map<K, W>, f: (R, U) -> R, g: (R, W) -> R)
    requires ub.Keys + wb.Keys !! ia.Keys + ua.Keys + wa.Keys
    requires ib.Keys !! ua.Keys + wa.Keys
    ensures Updated(Updated(t + (ia + ib), ua + ub, f), wa + wb, g)
            == Updated(Updated(Updated(Updated(t + ia, ua, f), wa, g) + ib, ub, f), wb, g)
  {
    AddThenAdd(t, ia, ib);
    UpdateTwice((t + ia) + ib, ua, ub, f);
    UpdateOthers(t + ia, ib, ua, f);
    var afterA := Updated(t + ia, ua, f);
    UpdateTwice(Updated(afterA + ib, ub, f), wa, wb, g);
    UpdatesCommute(afterA + ib, ub, wa, f, g);
    UpdateOthers(afterA, ib, wa, g);
  }

  lemma AddThenAdd<K, V>(a: map<K, V>, b: map<K, V>, c: map<K, V>)
    ensures (a + b) + c == a + (b + c)
  {}

  lemma InsertsCompose<K, T>(table: map<K, T>, a: seq<T>, b: seq<T>, key: T -> K)
    ensures table + Index(a + b, key) == (table + Index(a, key)) + Index(b, key)
  {
    IndexAppend(a, b, key);
    AddThenAdd(table, Index(a, key), Index(b, key));
  }

  lemma IdentitiesAppend(a: seq<SourceRow>, b: seq<SourceRow>)
    ensures IdentityIndex(a + b) == IdentityIndex(a) + IdentityIndex(b)
  {
    IndexAppend(a, b, IdentityOf);
  }

  lemma IdentitiesCompose(table: map<Identity, Id>, a: seq<SourceRow>, b: seq<SourceRow>)
    ensures table + IdentityIndex(a + b) == (table + IdentityIndex(a)) + IdentityIndex(b)
  {
    IdentitiesAppend(a, b);
    AddThenAdd(table, IdentityIndex(a), IdentityIndex(b));
  }

  lemma WrittenCompose(s: Store, a: Plan, b: Plan)
    requires Apart(a, b)
    ensures Written(s, Append(a, b)) == Written(Written(s, a), b)
  {
    IndexAppend(a.products, b.products, ProductKey);
    IndexAppend(a.moves, b.moves, MoveKey);
    IndexAppend(a.fingerprints, b.fingerprints, FingerprintKey);
    IndexAppend(a.sources, b.sources, SourceKey);
    IndexAppend(a.sourceChanges, b.sourceChanges, SourceChangedKey);
    IndexAppend(a.watermarks, b.watermarks, WatermarkKey);
    TableCompose(s.products, Index(a.products, ProductKey), Index(a.moves, MoveKey),
                 Index(a.fingerprints, FingerprintKey),
                 Index(b.products, ProductKey), Index(b.moves, MoveKey), Index(b.fingerprints, FingerprintKey),
                 MovedRow, FingerprintedRow);
    TableCompose(s.sources, Index(a.sources, SourceKey), Index(a.sourceChanges, SourceChangedKey),
                 Index(a.watermarks, WatermarkKey),
                 Index(b.sources, SourceKey), Index(b.sourceChanges, SourceChangedKey),
                   Index(b.watermarks, WatermarkKey),
                 ChangedSourceRow, RaisedRow);
    IdentitiesCompose(s.byIdentity, a.sources, b.sources);
    InsertsCompose(s.versions, a.added.versions, b.added.versions, VersionKey);
    InsertsCompose(s.changes, a.added.changes, b.added.changes, ChangeKey);
    InsertsCompose(s.events, a.added.events, b.added.events, EventKey);
  }

  // ---------------------------------------------------------------- what the constraints allow

  lemma DistinctAppend<K, T, U>(table: map<K, U>, after: map<K, U>, a: seq<T>, b: seq<T>, key: T -> K)
    requires Distinct(a, key) && Absent(table, a, key) && Distinct(b, key) && Absent(after, b, key)
    requires table.Keys + Keys(a, key) <= after.Keys
    ensures Distinct(a + b, key) && Absent(table, a + b, key)
  {
    IndexKeys(a, key);
    var c := a + b;
    forall i, j | 0 <= i < j < |c| ensures key(c[i]) != key(c[j]) {
      if i < |a| <= j {
        assert key(a[i]) in Index(a, key);
        assert key(a[i]) in after;
        assert key(b[j - |a|]) !in after;
      }
    }
    forall i | 0 <= i < |c| ensures key(c[i]) !in table {
      if i >= |a| { assert key(b[i - |a|]) !in after; }
    }
  }

  lemma TargetsAppend(table: map<Id, Change>, a: seq<Change>, b: seq<Change>)
    requires TargetsFree(table, a) && Distinct(a, ChangeKey) && Absent(table, a, ChangeKey)
    requires TargetsFree(table + Index(a, ChangeKey), b)
    ensures TargetsFree(table, a + b)
  {
    IndexKeys(a, ChangeKey);
    var c, after := a + b, table + Index(a, ChangeKey);
    forall i, j | 0 <= i < j < |c| ensures c[i].toVersionId != c[j].toVersionId {
      if i < |a| <= j {
        assert after[a[i].id] in a;
        DistinctIndexed(a, ChangeKey, i);
        assert b[j - |a|].toVersionId != after[a[i].id].toVersionId;
      }
    }
    forall i, x | 0 <= i < |c| && x in table ensures table[x].toVersionId != c[i].toVersionId {
      if i >= |a| {
        assert after[x] == table[x];
        assert b[i - |a|].toVersionId != after[x].toVersionId;
      }
    }
  }

  lemma DistinctIndexed<K, T>(rows: seq<T>, key: T -> K, i: nat)
    requires Distinct(rows, key) && i < |rows|
    ensures key(rows[i]) in Index(rows, key) && Index(rows, key)[key(rows[i])] == rows[i]
  {
    IndexKeys(rows, key);
  }

  lemma NumbersAppend(table: map<Id, Version>, a: seq<Version>, b: seq<Version>)
    requires NumbersFree(table, a) && Distinct(a, VersionKey) && Absent(table, a, VersionKey)
    requires NumbersFree(table + Index(a, VersionKey), b)
    ensures NumbersFree(table, a + b)
  {
    IndexKeys(a, VersionKey);
    var c, after := a + b, table + Index(a, VersionKey);
    forall i, j | 0 <= i < j < |c| ensures c[i].productId != c[j].productId || c[i].number != c[j].number {
      if i < |a| <= j {
        DistinctIndexed(a, VersionKey, i);
        assert after[a[i].id] == a[i];
        assert after[a[i].id].productId != b[j - |a|].productId || after[a[i].id].number != b[j - |a|].number;
      }
    }
    forall i, v | 0 <= i < |c| && v in table
      ensures table[v].productId != c[i].productId || table[v].number != c[i].number {
      if i >= |a| {
        assert after[v] == table[v];
        assert after[v].productId != b[i - |a|].productId || after[v].number != b[i - |a|].number;
      }
    }
  }

  lemma DistinctBoth<K, T>(a: seq<T>, b: seq<T>, key: T -> K)
    requires Distinct(a, key) && Distinct(b, key) && Keys(a, key) !! Keys(b, key)
    ensures Distinct(a + b, key)
    ensures forall i | 0 <= i < |a| :: key(a[i]) in Keys(a, key)
    ensures forall i | 0 <= i < |b| :: key(b[i]) in Keys(b, key)
  {
    IndexKeys(a, key);
    IndexKeys(b, key);
    var c := a + b;
    forall i, j | 0 <= i < j < |c| ensures key(c[i]) != key(c[j]) {
      if i < |a| <= j {
        assert key(a[i]) in Keys(a, key) && key(b[j - |a|]) in Keys(b, key);
      }
    }
  }

  lemma UpdateKeys(p: Plan)
    ensures forall i | 0 <= i < |p.moves| :: p.moves[i].productId in Keys(p.moves, MoveKey)
    ensures forall i | 0 <= i < |p.fingerprints| :: p.fingerprints[i].productId in Keys(p.fingerprints, FingerprintKey)
  {
    IndexKeys(p.moves, MoveKey);
    IndexKeys(p.fingerprints, FingerprintKey);
    forall i | 0 <= i < |p.moves| ensures p.moves[i].productId in Keys(p.moves, MoveKey) {
      assert MoveKey(p.moves[i]) == p.moves[i].productId;
    }
    forall i | 0 <= i < |p.fingerprints| ensures p.fingerprints[i].productId in Keys(p.fingerprints, FingerprintKey) {
      assert FingerprintKey(p.fingerprints[i]) == p.fingerprints[i].productId;
    }
  }

  // The two tables hold the same row for x, or none.
  predicate SameAt(t: map<Id, ProductRow>, u: map<Id, ProductRow>, x: Id) {
    (x in t <==> x in u) && (x in u ==> t[x] == u[x])
  }

  lemma RowUnwritten(t: map<Id, ProductRow>, ia: map<Id, ProductRow>, ma: map<Id, ProductMove>,
                     fa: map<Id, FingerprintMove>, x: Id)
    requires x !in ia && x !in ma && x !in fa
    ensures SameAt(t, Fingerprinted(Moved(t + ia, ma), fa), x)
  {}

  // The product row a guard of the first plan sees does not depend on the second plan's inserts.
  lemma FirstGuardSees(s: Store, a: Plan, b: Plan, x: Id)
    requires x !in Keys(b.products, ProductKey)
    ensures SameAt(s.products + Index(a.products + b.products, ProductKey), s.products + Index(a.products, ProductKey),
                   x)
  {
    IndexAppend(a.products, b.products, ProductKey);
  }

  // The product row a guard of the second plan sees does not depend on whether the first is written.
  lemma SecondGuardSees(s: Store, a: Plan, b: Plan, x: Id)
    requires x !in Keys(a.products, ProductKey) && x !in Keys(a.moves, MoveKey)
             && x !in Keys(a.fingerprints, FingerprintKey)
    ensures SameAt(s.products + Index(a.products + b.products, ProductKey),
                   ProductsAfter(s, a) + Index(b.products, ProductKey), x)
  {
    IndexAppend(a.products, b.products, ProductKey);
    RowUnwritten(s.products, Index(a.products, ProductKey), Index(a.moves, MoveKey),
                 Index(a.fingerprints, FingerprintKey), x);
  }

  lemma MovesJoin(t: map<Id, ProductRow>, ta: map<Id, ProductRow>, tb: map<Id, ProductRow>, a: seq<ProductMove>,
                  b: seq<ProductMove>)
    requires Distinct(a + b, MoveKey) && MovesMatch(ta, a) && MovesMatch(tb, b)
    requires forall i | 0 <= i < |a| :: SameAt(t, ta, a[i].productId)
    requires forall i | 0 <= i < |b| :: SameAt(t, tb, b[i].productId)
    ensures MovesMatch(t, a + b)
  {
    var c := a + b;
    forall i | 0 <= i < |c| ensures c[i].productId in t && t[c[i].productId].currentVersionId == c[i].expected {
      if i < |a| { assert c[i] == a[i]; } else { assert c[i] == b[i - |a|]; }
    }
  }

  lemma MovesAppend(s: Store, a: Plan, b: Plan)
    requires Apart(a, b)
    requires MovesMatch(s.products + Index(a.products, ProductKey), a.moves)
    requires MovesMatch(ProductsAfter(s, a) + Index(b.products, ProductKey), b.moves)
    ensures MovesMatch(s.products + Index(a.products + b.products, ProductKey), a.moves + b.moves)
  {
    DistinctBoth(a.moves, b.moves, MoveKey);
    UpdateKeys(a);
    UpdateKeys(b);
    var t, ta := s.products + Index(a.products + b.products, ProductKey), s.products + Index(a.products, ProductKey);
    var tb := ProductsAfter(s, a) + Index(b.products, ProductKey);
    forall i | 0 <= i < |a.moves|
      ensures SameAt(t, ta, a.moves[i].productId) { FirstGuardSees(s, a, b, a.moves[i].productId); }
    forall i | 0 <= i < |b.moves|
      ensures SameAt(t, tb, b.moves[i].productId) { SecondGuardSees(s, a, b, b.moves[i].productId); }
    MovesJoin(t, ta, tb, a.moves, b.moves);
  }

  lemma MovedRowSeen(t: map<Id, ProductRow>, u: map<Id, ProductRow>, m: map<Id, ProductMove>, n: map<Id, ProductMove>,
                     x: Id)
    requires SameAt(t, u, x)
    requires (x in m <==> x in n) && (x in n ==> m[x] == n[x])
    ensures SameAt(Moved(t, m), Moved(u, n), x)
  {}

  lemma FingerprintsJoin(t: map<Id, ProductRow>, ta: map<Id, ProductRow>, tb: map<Id, ProductRow>,
                         a: seq<FingerprintMove>, b: seq<FingerprintMove>)
    requires Distinct(a + b, FingerprintKey) && FingerprintsMatch(ta, a) && FingerprintsMatch(tb, b)
    requires forall i | 0 <= i < |a| :: SameAt(t, ta, a[i].productId)
    requires forall i | 0 <= i < |b| :: SameAt(t, tb, b[i].productId)
    ensures FingerprintsMatch(t, a + b)
  {
    var c := a + b;
    forall i | 0 <= i < |c| ensures c[i].productId in t && t[c[i].productId].currentVersionId == c[i].expected {
      if i < |a| { assert c[i] == a[i]; } else { assert c[i] == b[i - |a|]; }
    }
  }

  // The same, once the moves have been written.
  lemma FirstGuardSeesMoved(s: Store, a: Plan, b: Plan, x: Id)
    requires x !in Keys(b.products, ProductKey) && x !in Keys(b.moves, MoveKey)
    ensures SameAt(Moved(s.products + Index(a.products + b.products, ProductKey), Index(a.moves + b.moves, MoveKey)),
                   Moved(s.products + Index(a.products, ProductKey), Index(a.moves, MoveKey)), x)
  {
    IndexAppend(a.moves, b.moves, MoveKey);
    FirstGuardSees(s, a, b, x);
    MovedRowSeen(s.products + Index(a.products + b.products, ProductKey), s.products + Index(a.products, ProductKey),
                 Index(a.moves + b.moves, MoveKey), Index(a.moves, MoveKey), x);
  }

  lemma SecondGuardSeesMoved(s: Store, a: Plan, b: Plan, x: Id)
    requires x !in Keys(a.products, ProductKey) && x !in Keys(a.moves, MoveKey)
             && x !in Keys(a.fingerprints, FingerprintKey)
    ensures SameAt(Moved(s.products + Index(a.products + b.products, ProductKey), Index(a.moves + b.moves, MoveKey)),
                   Moved(ProductsAfter(s, a) + Index(b.products, ProductKey), Index(b.moves, MoveKey)), x)
  {
    IndexAppend(a.moves, b.moves, MoveKey);
    SecondGuardSees(s, a, b, x);
    MovedRowSeen(s.products + Index(a.products + b.products, ProductKey),
                 ProductsAfter(s, a) + Index(b.products, ProductKey),
                 Index(a.moves + b.moves, MoveKey), Index(b.moves, MoveKey), x);
  }

  lemma FingerprintsAppend(s: Store, a: Plan, b: Plan)
    requires Apart(a, b)
    requires FingerprintsMatch(Moved(s.products + Index(a.products, ProductKey), Index(a.moves, MoveKey)),
                               a.fingerprints)
    requires FingerprintsMatch(Moved(ProductsAfter(s, a) + Index(b.products, ProductKey), Index(b.moves, MoveKey)),
                               b.fingerprints)
    ensures FingerprintsMatch(Moved(s.products + Index(a.products + b.products, ProductKey),
                                    Index(a.moves + b.moves, MoveKey)),
                              a.fingerprints + b.fingerprints)
  {
    DistinctBoth(a.fingerprints, b.fingerprints, FingerprintKey);
    UpdateKeys(a);
    UpdateKeys(b);
    var t := Moved(s.products + Index(a.products + b.products, ProductKey), Index(a.moves + b.moves, MoveKey));
    var ta := Moved(s.products + Index(a.products, ProductKey), Index(a.moves, MoveKey));
    var tb := Moved(ProductsAfter(s, a) + Index(b.products, ProductKey), Index(b.moves, MoveKey));
    forall i | 0 <= i < |a.fingerprints| ensures SameAt(t, ta, a.fingerprints[i].productId) {
      FirstGuardSeesMoved(s, a, b, a.fingerprints[i].productId);
    }
    forall i | 0 <= i < |b.fingerprints| ensures SameAt(t, tb, b.fingerprints[i].productId) {
      SecondGuardSeesMoved(s, a, b, b.fingerprints[i].productId);
    }
    FingerprintsJoin(t, ta, tb, a.fingerprints, b.fingerprints);
  }

  lemma SourcesAppend(s: Store, a: Plan, b: Plan)
    requires Apart(a, b)
    requires SourcesMatch(s.sources + Index(a.sources, SourceKey), a.sourceChanges)
    requires SourcesMatch(SourcesAfter(s, a) + Index(b.sources, SourceKey), b.sourceChanges)
    ensures SourcesMatch(s.sources + Index(a.sources + b.sources, SourceKey), a.sourceChanges + b.sourceChanges)
  {
    IndexAppend(a.sources, b.sources, SourceKey);
    DistinctBoth(a.sourceChanges, b.sourceChanges, SourceChangedKey);
  }

  lemma InsertsAppend(s: Store, a: Plan, b: Plan)
    requires InsertsFree(s, a) && IdentitiesFree(s, a) && NumbersFree(s.versions, a.added.versions)
    requires InsertsFree(Written(s, a), b) && IdentitiesFree(Written(s, a), b)
    requires NumbersFree(Written(s, a).versions, b.added.versions)
    ensures var c := Append(a, b);
            InsertsFree(s, c) && IdentitiesFree(s, c) && NumbersFree(s.versions, c.added.versions)
  {
    var w := Written(s, a);
    DistinctAppend(s.products, w.products, a.products, b.products, ProductKey);
    DistinctAppend(s.sources, w.sources, a.sources, b.sources, SourceKey);
    DistinctAppend(s.versions, w.versions, a.added.versions, b.added.versions, VersionKey);
    DistinctAppend(s.changes, w.changes, a.added.changes, b.added.changes, ChangeKey);
    DistinctAppend(s.events, w.events, a.added.events, b.added.events, EventKey);
    DistinctAppend(s.byIdentity, w.byIdentity, a.sources, b.sources, IdentityOf);
    TargetsAppend(s.changes, a.added.changes, b.added.changes);
    NumbersAppend(s.versions, a.added.versions, b.added.versions);
  }

  lemma ApplyAppend(s: Store, a: Plan, b: Plan)
    requires Apart(a, b)
    requires ApplyPlan(s, a).Applied? && ApplyPlan(Written(s, a), b).Applied?
    ensures ApplyPlan(s, Append(a, b)) == ApplyPlan(Written(s, a), b)
  {
    InsertsAppend(s, a, b);
    MovesAppend(s, a, b);
    FingerprintsAppend(s, a, b);
    SourcesAppend(s, a, b);
    WrittenCompose(s, a, b);
  }
}
