// The converse of PlanAppend: a transaction that writes two plans touching different rows can only
// succeed when each of them would, one after the other.
module PlanSplit {
  import opened Prelude
  import opened Transition
  import opened Batch
  import opened ProductStore
  import opened PlanAppend

  lemma DistinctSplit<K, T, U>(table: map<K, U>, after: map<K, U>, a: seq<T>, b: seq<T>, key: T -> K)
    requires Distinct(a + b, key) && Absent(table, a + b, key)
    requires after.Keys == table.Keys + Keys(a, key)
    ensures Distinct(a, key) && Absent(table, a, key) && Distinct(b, key) && Absent(after, b, key)
  {
    IndexKeys(a, key);
    var c := a + b;
    assert forall i | 0 <= i < |a| :: c[i] == a[i];
    assert forall j | 0 <= j < |b| :: c[|a| + j] == b[j];
  }

  lemma TargetsSplit(table: map<Id, Change>, a: seq<Change>, b: seq<Change>)
    requires TargetsFree(table, a + b) && Absent(table, a, ChangeKey)
    ensures TargetsFree(table, a) && TargetsFree(table + Index(a, ChangeKey), b)
  {
    IndexKeys(a, ChangeKey);
    var c, after := a + b, table + Index(a, ChangeKey);
    assert forall i | 0 <= i < |a| :: c[i] == a[i];
    assert forall j | 0 <= j < |b| :: c[|a| + j] == b[j];
    forall j, x | 0 <= j < |b| && x in after ensures after[x].toVersionId != b[j].toVersionId {
      if x in Index(a, ChangeKey) {
        var i :| 0 <= i < |a| && a[i] == after[x];
        assert c[i].toVersionId != c[|a| + j].toVersionId;
      }
    }
  }

  lemma NumbersSplit(table: map<Id, Version>, a: seq<Version>, b: seq<Version>)
    requires NumbersFree(table, a + b)
    ensures NumbersFree(table, a) && NumbersFree(table + Index(a, VersionKey), b)
  {
    IndexKeys(a, VersionKey);
    var c, after := a + b, table + Index(a, VersionKey);
    assert forall i | 0 <= i < |a| :: c[i] == a[i];
    assert forall j | 0 <= j < |b| :: c[|a| + j] == b[j];
    forall j, v | 0 <= j < |b| && v in after
      ensures after[v].productId != b[j].productId || after[v].number != b[j].number
    {
      if v in Index(a, VersionKey) {
        var i :| 0 <= i < |a| && a[i] == after[v];
        assert c[i].productId != c[|a| + j].productId || c[i].number != c[|a| + j].number;
      }
    }
  }

  lemma InsertsSplit(s: Store, a: Plan, b: Plan)
    requires var c := Append(a, b);
             InsertsFree(s, c) && IdentitiesFree(s, c) && NumbersFree(s.versions, c.added.versions)
    ensures InsertsFree(s, a) && IdentitiesFree(s, a) && NumbersFree(s.versions, a.added.versions)
    ensures InsertsFree(Written(s, a), b) && IdentitiesFree(Written(s, a), b)
    ensures NumbersFree(Written(s, a).versions, b.added.versions)
  {
    var w := Written(s, a);
    DistinctSplit(s.products, w.products, a.products, b.products, ProductKey);
    DistinctSplit(s.sources, w.sources, a.sources, b.sources, SourceKey);
    DistinctSplit(s.versions, w.versions, a.added.versions, b.added.versions, VersionKey);
    DistinctSplit(s.changes, w.changes, a.added.changes, b.added.changes, ChangeKey);
    DistinctSplit(s.events, w.events, a.added.events, b.added.events, EventKey);
    DistinctSplit(s.byIdentity, w.byIdentity, a.sources, b.sources, IdentityOf);
    TargetsSplit(s.changes, a.added.changes, b.added.changes);
    NumbersSplit(s.versions, a.added.versions, b.added.versions);
  }

  lemma MovesSplit(s: Store, a: Plan, b: Plan)
    requires Apart(a, b)
    requires MovesMatch(s.products + Index(a.products + b.products, ProductKey), a.moves + b.moves)
    ensures MovesMatch(s.products + Index(a.products, ProductKey), a.moves)
    ensures MovesMatch(ProductsAfter(s, a) + Index(b.products, ProductKey), b.moves)
  {
    UpdateKeys(a);
    UpdateKeys(b);
    var n, c := |a.moves|, a.moves + b.moves;
    assert forall i | 0 <= i < n :: c[i] == a.moves[i];
    assert forall j | 0 <= j < |b.moves| :: c[n + j] == b.moves[j];
    forall i | 0 <= i < n
      ensures var t := s.products + Index(a.products, ProductKey);
              a.moves[i].productId in t && t[a.moves[i].productId].currentVersionId == a.moves[i].expected
    {
      FirstGuardSees(s, a, b, a.moves[i].productId);
    }
    forall j | 0 <= j < |b.moves|
      ensures var t := ProductsAfter(s, a) + Index(b.products, ProductKey);
              b.moves[j].productId in t && t[b.moves[j].productId].currentVersionId == b.moves[j].expected
    {
      SecondGuardSees(s, a, b, b.moves[j].productId);
    }
  }

  lemma FirstFingerprintsSplit(s: Store, a: Plan, b: Plan)
    requires Apart(a, b)
    requires FingerprintsMatch(Moved(s.products + Index(a.products + b.products, ProductKey),
                                     Index(a.moves + b.moves, MoveKey)),
                               a.fingerprints + b.fingerprints)
    ensures FingerprintsMatch(Moved(s.products + Index(a.products, ProductKey), Index(a.moves, MoveKey)),
                              a.fingerprints)
  {
    IndexAppend(a.moves, b.moves, MoveKey);
    UpdateKeys(a);
    var c := a.fingerprints + b.fingerprints;
    assert forall i | 0 <= i < |a.fingerprints| :: c[i] == a.fingerprints[i];
    var t, u := s.products + Index(a.products + b.products, ProductKey), s.products + Index(a.products, ProductKey);
    var u' := Moved(u, Index(a.moves, MoveKey));
    forall i | 0 <= i < |a.fingerprints|
      ensures a.fingerprints[i].productId in u'
              && u'[a.fingerprints[i].productId].currentVersionId == a.fingerprints[i].expected
    {
      var x := a.fingerprints[i].productId;
      FirstGuardSees(s, a, b, x);
      MovedRowSeen(t, u, Index(a.moves + b.moves, MoveKey), Index(a.moves, MoveKey), x);
    }
  }

  lemma SecondFingerprintsSplit(s: Store, a: Plan, b: Plan)
    requires Apart(a, b)
    requires FingerprintsMatch(Moved(s.products + Index(a.products + b.products, ProductKey),
                                     Index(a.moves + b.moves, MoveKey)),
                               a.fingerprints + b.fingerprints)
    ensures FingerprintsMatch(Moved(ProductsAfter(s, a) + Index(b.products, ProductKey), Index(b.moves, MoveKey)),
                              b.fingerprints)
  {
    IndexAppend(a.moves, b.moves, MoveKey);
    UpdateKeys(b);
    var n, c := |a.fingerprints|, a.fingerprints + b.fingerprints;
    assert forall j | 0 <= j < |b.fingerprints| :: c[n + j] == b.fingerprints[j];
    var t := s.products + Index(a.products + b.products, ProductKey);
    var u := ProductsAfter(s, a) + Index(b.products, ProductKey);
    var u' := Moved(u, Index(b.moves, MoveKey));
    forall j | 0 <= j < |b.fingerprints|
      ensures b.fingerprints[j].productId in u'
              && u'[b.fingerprints[j].productId].currentVersionId == b.fingerprints[j].expected
    {
      var x := b.fingerprints[j].productId;
      SecondGuardSees(s, a, b, x);
      MovedRowSeen(t, u, Index(a.moves + b.moves, MoveKey), Index(b.moves, MoveKey), x);
    }
  }

  lemma SourceRowSeen(s: Store, a: Plan, b: Plan, x: Id, first: bool)
    requires Apart(a, b) && x in s.sources + Index(a.sources + b.sources, SourceKey)
    requires first ==> x in Keys(a.sourceChanges, SourceChangedKey)
    requires !first ==> x in Keys(b.sourceChanges, SourceChangedKey)
    ensures first ==> x in s.sources + Index(a.sources, SourceKey)
    ensures !first ==> x in SourcesAfter(s, a) + Index(b.sources, SourceKey)
  {
    IndexAppend(a.sources, b.sources, SourceKey);
  }

  lemma DistinctHalves<K, T>(a: seq<T>, b: seq<T>, key: T -> K)
    requires Distinct(a + b, key)
    ensures Distinct(a, key) && Distinct(b, key)
    ensures forall i | 0 <= i < |a| :: (a + b)[i] == a[i] && key(a[i]) in Keys(a, key)
    ensures forall j | 0 <= j < |b| :: (a + b)[|a| + j] == b[j] && key(b[j]) in Keys(b, key)
  {
    IndexKeys(a, key);
    IndexKeys(b, key);
    var c := a + b;
    assert forall i | 0 <= i < |a| :: c[i] == a[i];
    forall i, j | 0 <= i < j < |b| ensures key(b[i]) != key(b[j]) {
      assert c[|a| + i] == b[i] && c[|a| + j] == b[j];
    }
  }

  lemma SourcesSplit(s: Store, a: Plan, b: Plan)
    requires Apart(a, b)
    requires SourcesMatch(s.sources + Index(a.sources + b.sources, SourceKey), a.sourceChanges + b.sourceChanges)
    ensures SourcesMatch(s.sources + Index(a.sources, SourceKey), a.sourceChanges)
    ensures SourcesMatch(SourcesAfter(s, a) + Index(b.sources, SourceKey), b.sourceChanges)
  {
    DistinctHalves(a.sourceChanges, b.sourceChanges, SourceChangedKey);
    var n, c := |a.sourceChanges|, a.sourceChanges + b.sourceChanges;
    forall i | 0 <= i < n ensures a.sourceChanges[i].sourceRowId in s.sources + Index(a.sources, SourceKey) {
      assert c[i] == a.sourceChanges[i] && SourceChangedKey(a.sourceChanges[i]) == c[i].sourceRowId;
      SourceRowSeen(s, a, b, c[i].sourceRowId, true);
    }
    forall j | 0 <= j < |b.sourceChanges|
      ensures b.sourceChanges[j].sourceRowId in SourcesAfter(s, a) + Index(b.sources, SourceKey) {
      assert c[n + j] == b.sourceChanges[j] && SourceChangedKey(b.sourceChanges[j]) == c[n + j].sourceRowId;
      SourceRowSeen(s, a, b, c[n + j].sourceRowId, false);
    }
  }

  lemma ApplySplit(s: Store, a: Plan, b: Plan)
    requires Apart(a, b) && ApplyPlan(s, Append(a, b)).Applied?
    ensures ApplyPlan(s, a) == Applied(Written(s, a))
    ensures ApplyPlan(Written(s, a), b) == ApplyPlan(s, Append(a, b))
  {
    InsertsSplit(s, a, b);
    MovesSplit(s, a, b);
    FirstFingerprintsSplit(s, a, b);
    SecondFingerprintsSplit(s, a, b);
    SourcesSplit(s, a, b);
    WrittenCompose(s, a, b);
  }
}
