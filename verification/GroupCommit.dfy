// Committing one identity's rows: the plan applies, the stored snapshot becomes the folded one, the
// tables stay consistent, and committing a fold in two parts is committing it at once.
module GroupCommit {
  import opened Prelude
  import opened Transition
  import opened Batch
  import opened ProductStore
  import opened FoldInvariant
  import opened GroupWrite

  lemma AddedInsertable(s: Store, id: Identity, start: Option<Snapshot>, f: Fold, first: Id, now: Time)
    requires Ready(s, id, start, f, first)
    ensures InsertsFree(s, Emit(start, f, id, now)) && IdentitiesFree(s, Emit(start, f, id, now))
  {
    EmitAdded(start, f, id, now);
    ReadyIsPlaced(s, id, start, f, first);
    var a := f.added;
    assert forall i | 0 <= i < |a.versions| :: a.versions[i].id !in s.versions;
    assert forall i | 0 <= i < |a.changes| :: a.changes[i].id !in s.changes;
    assert forall i | 0 <= i < |a.events| :: a.events[i].id !in s.events;
  }

  lemma NumbersInsertable(s: Store, id: Identity, start: Option<Snapshot>, f: Fold, first: Id)
    requires Ready(s, id, start, f, first)
    ensures NumbersFree(s.versions, f.added.versions)
  {
    var a := f.added.versions;
    forall i, v | 0 <= i < |a| && v in s.versions
      ensures s.versions[v].productId != a[i].productId || s.versions[v].number != a[i].number
    {
      assert Bounded(s, s.versions[v]);
      if s.versions[v].productId == a[i].productId {
        assert start.Some?;
        assert s.versions[v].number <= BaseNumber(start);
      }
    }
  }

  lemma GuardsMatch(s: Store, id: Identity, start: Option<Snapshot>, f: Fold, first: Id, now: Time)
    requires StateInv(start, f, first) && f.cur.Some? && Placed(s, id, start, f.cur.value)
    ensures var p := Emit(start, f, id, now);
            var inserted := s.products + Index(p.products, ProductKey);
            && MovesMatch(inserted, p.moves)
            && FingerprintsMatch(Moved(inserted, Index(p.moves, MoveKey)), p.fingerprints)
            && SourcesMatch(s.sources + Index(p.sources, SourceKey), p.sourceChanges)
  {
    var p := Emit(start, f, id, now);
    if start.Some? {
      assert p.products == [] && p.sources == [];
      assert s.products + Index(p.products, ProductKey) == s.products;
      assert s.sources + Index(p.sources, SourceKey) == s.sources;
      if f.added.versions == [] {
        assert p.moves == [];
        ByNone(s.products, s.sources);
      }
    }
  }

  lemma Commits(s: Store, id: Identity, start: Option<Snapshot>, f: Fold, first: Id, now: Time)
    requires Ready(s, id, start, f, first)
    ensures ApplyPlan(s, Emit(start, f, id, now)) == Applied(Target(s, start, f, id, now))
  {
    EmitAdded(start, f, id, now);
    ReadyIsPlaced(s, id, start, f, first);
    AddedInsertable(s, id, start, f, first, now);
    NumbersInsertable(s, id, start, f, first);
    WrittenIsTarget(s, id, start, f, first, now);
    GuardsMatch(s, id, start, f, first, now);
  }

  // ---------------------------------------------------------------- the stored snapshot

  lemma VersionStored(a: Added, base: nat, product: Id, first: Id, next: Id)
    requires Rows(base, product, a, first, next)
    ensures forall i | 0 <= i < |a.versions| ::
              a.versions[i].id in Index(a.versions, VersionKey)
              && Index(a.versions, VersionKey)[a.versions[i].id] == a.versions[i]
    ensures forall v: Id | v in Index(a.versions, VersionKey) ::
              first <= v < next && Index(a.versions, VersionKey)[v] in a.versions
              && Index(a.versions, VersionKey)[v].id == v
  {
    IndexKeys(a.versions, VersionKey);
  }

  lemma VersionsAfter(s: Store, id: Identity, start: Option<Snapshot>, f: Fold, first: Id, now: Time)
    requires Ready(s, id, start, f, first)
    ensures var t := Target(s, start, f, id, now);
            && (forall v: Id | v in s.versions :: v in t.versions && t.versions[v] == s.versions[v])
            && (f.added.versions != [] ==>
                  var last := f.added.versions[|f.added.versions|-1];
                  last.id in t.versions && t.versions[last.id] == last)
  {
    VersionStored(f.added, BaseNumber(start), f.cur.value.productId, first, f.next);
  }

  lemma Stores(s: Store, id: Identity, start: Option<Snapshot>, f: Fold, first: Id, now: Time)
    requires Ready(s, id, start, f, first)
    ensures SnapshotOf(Target(s, start, f, id, now), id) == f.cur
  {
    ReadyIsPlaced(s, id, start, f, first);
    var cur, t := f.cur.value, Target(s, start, f, id, now);
    var pid, sid := cur.productId, cur.productSourceId;
    VersionStored(f.added, BaseNumber(start), pid, first, f.next);
    assert t.byIdentity[id] == sid && t.sources[sid].productId == pid;
    assert t.products[pid].id == pid && t.sources[sid].id == sid;
    assert t.products[pid].currentVersionId == cur.currentVersionId;
    assert t.products[pid].currentFingerprint == cur.currentFingerprint;
    if f.added.versions != [] {
      var last := f.added.versions[|f.added.versions|-1];
      assert t.versions[last.id] == last;
    } else {
      assert t.versions == s.versions;
    }
  }

  // ---------------------------------------------------------------- consistency is kept

  lemma KeepsSources(s: Store, id: Identity, start: Option<Snapshot>, f: Fold, first: Id, now: Time)
    requires Ready(s, id, start, f, first)
    ensures SourcesOk(Target(s, start, f, id, now), f.next)
  {
    ReadyIsPlaced(s, id, start, f, first);
    var cur, t := f.cur.value, Target(s, start, f, id, now);
    assert t.sources[cur.productSourceId].identity == id;
    assert t.sources[cur.productSourceId].productId == cur.productId;
  }

  lemma KeepsProducts(s: Store, id: Identity, start: Option<Snapshot>, f: Fold, first: Id, now: Time)
    requires Ready(s, id, start, f, first)
    ensures ProductsOk(Target(s, start, f, id, now), f.next)
  {
    ReadyIsPlaced(s, id, start, f, first);
    VersionsAfter(s, id, start, f, first, now);
    var cur, t := f.cur.value, Target(s, start, f, id, now);
    assert t.products[cur.productId].id == cur.productId < f.next;
    assert t.products[cur.productId].currentVersionId == cur.currentVersionId;
    forall p | p in t.products && t.products[p].currentVersionId.Some?
      ensures t.products[p].currentVersionId.value in t.versions
              && t.versions[t.products[p].currentVersionId.value].productId == p
    {
      var c := t.products[p].currentVersionId.value;
      if p != cur.productId || f.added.versions == [] {
        assert p in s.products && s.products[p].currentVersionId == Some(c);
        assert c in s.versions && s.versions[c].productId == p;
      }
    }
  }

  lemma KeepsVersions(s: Store, id: Identity, start: Option<Snapshot>, f: Fold, first: Id, now: Time)
    requires Ready(s, id, start, f, first)
    ensures VersionsOk(Target(s, start, f, id, now), f.next)
  {
    ReadyIsPlaced(s, id, start, f, first);
    var cur, t := f.cur.value, Target(s, start, f, id, now);
    VersionStored(f.added, BaseNumber(start), cur.productId, first, f.next);
    assert t.products[cur.productId].currentVersionId == cur.currentVersionId;
    forall v | v in t.versions
      ensures t.versions[v].id == v && v < f.next && Bounded(t, t.versions[v])
    {
      if v in Index(f.added.versions, VersionKey) {
        var last := f.added.versions[|f.added.versions|-1];
        assert t.versions[last.id] == last;
        var i :| 0 <= i < |f.added.versions| && f.added.versions[i] == t.versions[v];
      } else {
        assert Bounded(s, s.versions[v]);
        var q := s.versions[v].productId;
        if q == cur.productId {
          assert start.Some?;
          if f.added.versions != [] {
            var last := f.added.versions[|f.added.versions|-1];
            assert t.versions[last.id] == last;
            assert s.versions[v].number <= BaseNumber(start);
          }
        } else {
          assert t.products[q] == s.products[q];
          var c := s.products[q].currentVersionId.value;
          assert c in s.versions && c < first;
          assert t.versions[c] == s.versions[c];
        }
      }
    }
  }

  lemma KeepsLogs(s: Store, id: Identity, start: Option<Snapshot>, f: Fold, first: Id, now: Time)
    requires Ready(s, id, start, f, first)
    ensures LogsOk(Target(s, start, f, id, now), f.next)
  {
    IndexKeys(f.added.changes, ChangeKey);
    IndexKeys(f.added.events, EventKey);
  }

  lemma Keeps(s: Store, id: Identity, start: Option<Snapshot>, f: Fold, first: Id, now: Time)
    requires Ready(s, id, start, f, first)
    ensures Consistent(Target(s, start, f, id, now), f.next)
  {
    KeepsSources(s, id, start, f, first, now);
    KeepsProducts(s, id, start, f, first, now);
    KeepsVersions(s, id, start, f, first, now);
    KeepsLogs(s, id, start, f, first, now);
  }
}
