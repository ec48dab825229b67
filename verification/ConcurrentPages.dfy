// Many workers read snapshots, decide their pages on them, and commit the plans later, in any order.
// Whatever the interleaving, the tables keep the version chain.
module ConcurrentPages {
  import opened Prelude
  import opened Transition
  import opened Batch
  import opened ProductStore
  import opened FoldInvariant
  import opened GroupWrite
  import opened PlanAppend
  import opened PlanSplit
  import opened PageRefinement
  import opened VersionChain

  // ---------------------------------------------------------------- snapshots that may be old

  // The snapshot was read from these tables at some time: its identity's rows and the version it
  // saw are still there. The product may have moved on since.
  ghost predicate Past(s: Store, k: Identity, snap: Snapshot) {
    && Names(s, k, Some(snap))
    && snap.currentVersionId.Some? && snap.currentVersionId.value in s.versions
    && snap.storedVersion == Some(s.versions[snap.currentVersionId.value])
    && s.versions[snap.currentVersionId.value].productId == snap.productId
  }

  ghost predicate PastStart(s: Store, k: Identity, start: Option<Snapshot>) {
    start.Some? ==> Past(s, k, start.value)
  }

  // Rows keep their identity, and versions never change.
  ghost predicate Keeps(s: Store, t: Store) {
    && (forall k | k in s.byIdentity :: k in t.byIdentity && t.byIdentity[k] == s.byIdentity[k])
    && (forall i | i in s.sources :: i in t.sources && t.sources[i].productId == s.sources[i].productId)
    && s.products.Keys <= t.products.Keys
    && (forall v | v in s.versions :: v in t.versions && t.versions[v] == s.versions[v])
  }

  lemma PastStaysPast(s: Store, t: Store, k: Identity, snap: Snapshot)
    requires Past(s, k, snap) && Keeps(s, t)
    ensures Past(t, k, snap)
  {
    var c := snap.currentVersionId.value;
    assert c in s.versions && t.versions[c] == s.versions[c];
  }

  lemma ReadIsPast(s: Store, next: Id, k: Identity)
    requires Chain(s, next)
    ensures PastStart(s, k, SnapshotOf(s, k))
  {
    if HasRow(s, k) {
      var src := s.sources[s.byIdentity[k]];
      assert src.id == s.byIdentity[k];
      var p := s.products[src.productId];
      assert p.currentVersionId.Some? && p.currentVersionId.value in s.versions && p.id == src.productId;
    }
  }

  // ---------------------------------------------------------------- one identity, on an old snapshot

  // What is known when an identity's rows, folded from `start`, have been accepted by the tables.
  ghost predicate Accepted(s: Store, k: Identity, start: Option<Snapshot>, f: Fold, first: Id, next: Id, now: Time) {
    && FoldInv(start, f, first) && f.cur.Some? && f.next <= next
    && Linked(CurrentOf(start), f.cur.value.productId, f.added)
    && PastStart(s, k, start)
    && ApplyPlan(s, Emit(start, f, k, now)).Applied?
  }

  ghost predicate SameSources(s: Store, t: Store) {
    && t.byIdentity == s.byIdentity && t.sources.Keys == s.sources.Keys && s.products.Keys <= t.products.Keys
    && forall i | i in s.sources ::
         t.sources[i].id == s.sources[i].id && t.sources[i].productId == s.sources[i].productId
         && t.sources[i].identity == s.sources[i].identity
  }

  lemma SameSourcesOk(s: Store, t: Store, next: Id)
    requires SourcesOk(s, next) && SameSources(s, t)
    ensures SourcesOk(t, next)
  {
    forall k | k in t.byIdentity ensures t.byIdentity[k] in t.sources && t.sources[t.byIdentity[k]].identity == k {
      var i := s.byIdentity[k];
      assert i in s.sources && t.sources[i].identity == s.sources[i].identity;
    }
  }

  lemma NoIdentities(t: map<Identity, Id>)
    ensures t + IdentityIndex([]) == t
  {
    assert IdentityIndex([]) == map[];
  }

  lemma KnownSources(s: Store, k: Identity, start: Option<Snapshot>, f: Fold, now: Time)
    requires start.Some?
    ensures SameSources(s, Written(s, Emit(start, f, k, now)))
  {
    var p := Emit(start, f, k, now);
    assert p.sources == [] && p.products == [];
    AddNothing(s.sources);
    AddNothing(s.products);
    NoIdentities(s.byIdentity);
  }

  lemma KnownGuard(s: Store, k: Identity, start: Option<Snapshot>, f: Fold, now: Time)
    requires start.Some? && ApplyPlan(s, Emit(start, f, k, now)).Applied?
    ensures MovesMatch(s.products, Emit(start, f, k, now).moves)
  {
    assert Emit(start, f, k, now).products == [];
    AddNothing(s.products);
  }

  // The guarded move of a known product, from the version its snapshot had seen.
  lemma KnownProductMoves(s: Store, k: Identity, start: Option<Snapshot>, f: Fold, first: Id, next: Id, now: Time)
    requires start.Some? && StateInv(start, f, first) && f.cur.Some? && f.added.versions != [] && ProductsOk(s, next)
    requires MovesMatch(s.products, Emit(start, f, k, now).moves)
    ensures var pid := f.cur.value.productId;
            && pid in s.products
            && ProductMoves(s, Written(s, Emit(start, f, k, now)), pid, start.value.currentVersionId, f.added.versions)
  {
    var p, pid := Emit(start, f, k, now), f.cur.value.productId;
    assert p.products == [] && p.fingerprints == [] && p.moves == [p.moves[0]];
    AddNothing(s.products);
    IndexOne(p.moves[0], MoveKey);
    assert MovesMatch(s.products, p.moves) && p.moves[0].productId == pid;
    MovedByOne(s.products, pid, p.moves[0]);
    ByNone(Moved(s.products, Index(p.moves, MoveKey)), s.sources);
    assert ProductsAfter(s, p) == s.products[pid := MovedRow(s.products[pid], p.moves[0])];
  }

  // Without a new version every product stays at its version.
  lemma KnownProductStays(s: Store, k: Identity, start: Option<Snapshot>, f: Fold, now: Time, next: Id, pid: Id)
    requires start.Some? && f.added.versions == [] && ProductsOk(s, next) && pid in s.products
    ensures ProductMoves(s, Written(s, Emit(start, f, k, now)), pid, s.products[pid].currentVersionId, [])
  {
    var p := Emit(start, f, k, now);
    assert p.products == [] && p.moves == [];
    AddNothing(s.products);
    ByNone(s.products, s.sources);
    assert ProductsAfter(s, p) == Fingerprinted(s.products, Index(p.fingerprints, FingerprintKey));
  }

  lemma NewPlaced(s: Store, k: Identity, start: Option<Snapshot>, f: Fold, first: Id, next: Id, now: Time)
    requires Accepted(s, k, start, f, first, next, now) && start.None?
    ensures Placed(s, k, start, f.cur.value)
    ensures Written(s, Emit(start, f, k, now)) == Target(s, start, f, k, now)
  {
    var p := Emit(start, f, k, now);
    assert ProductKey(p.products[0]) !in s.products && SourceKey(p.sources[0]) !in s.sources;
    assert IdentityOf(p.sources[0]) !in s.byIdentity;
    WrittenIsTarget(s, k, start, f, first, now);
  }

  // t is s with one more source row, for a product of its own.
  ghost predicate OneMoreSource(s: Store, t: Store, k: Identity, row: SourceRow) {
    && k !in s.byIdentity && row.id !in s.sources && row.productId !in s.products
    && row.identity == k && row.productId in t.products && s.products.Keys <= t.products.Keys
    && t.sources == s.sources[row.id := row] && t.byIdentity == s.byIdentity[k := row.id]
  }

  lemma OneMoreSourceOk(s: Store, t: Store, k: Identity, row: SourceRow, next: Id)
    requires SourcesOk(s, next) && OneMoreSource(s, t, k, row) && row.id < next
    ensures SourcesOk(t, next)
  {}

  lemma NewSources(s: Store, k: Identity, start: Option<Snapshot>, f: Fold, first: Id, now: Time)
    requires StateInv(start, f, first) && f.cur.Some? && start.None? && Placed(s, k, start, f.cur.value)
    ensures OneMoreSource(s, Target(s, start, f, k, now), k, InsertedSource(f.cur.value, k, now))
  {}

  lemma NewProducts(s: Store, k: Identity, start: Option<Snapshot>, f: Fold, first: Id, next: Id, now: Time)
    requires StateInv(start, f, first) && f.cur.Some? && start.None? && Placed(s, k, start, f.cur.value)
    requires forall p | p in s.products :: s.products[p].id == p
    ensures ProductMoves(s, Target(s, start, f, k, now), f.cur.value.productId, None, f.added.versions)
  {
    var t, cur := Target(s, start, f, k, now), f.cur.value;
    assert t.products == s.products[cur.productId := InsertedProduct(cur, cur.storedVersion.value, now)];
  }

  ghost predicate NewRow(s: Store, t: Store, k: Identity) {
    && (forall j | j in s.byIdentity :: j in t.byIdentity && t.byIdentity[j] == s.byIdentity[j])
    && (forall i | i in s.sources :: i in t.sources && t.sources[i].productId == s.sources[i].productId)
  }

  lemma NewSourceKept(s: Store, k: Identity, start: Option<Snapshot>, f: Fold, first: Id, next: Id, now: Time)
    requires StateInv(start, f, first) && f.cur.Some? && start.None? && Placed(s, k, start, f.cur.value)
    requires f.cur.value.productSourceId < next && SourcesOk(s, next)
    ensures SourcesOk(Target(s, start, f, k, now), next) && NewRow(s, Target(s, start, f, k, now), k)
  {
    NewSources(s, k, start, f, first, now);
    OneMoreSourceOk(s, Target(s, start, f, k, now), k, InsertedSource(f.cur.value, k, now), next);
  }

  lemma AcceptedRows(s: Store, k: Identity, start: Option<Snapshot>, f: Fold, first: Id, next: Id, now: Time)
    requires Accepted(s, k, start, f, first, next, now)
    ensures NewRows(s, f.added) && TablesGrow(s, Written(s, Emit(start, f, k, now)), f.added)
    ensures Rows(BaseNumber(start), f.cur.value.productId, f.added, first, next)
    ensures NumberOf(s, CurrentOf(start)) == BaseNumber(start)
  {
    EmitAdded(start, f, k, now);
  }

  lemma WrittenKeeps(s: Store, t: Store, a: Added)
    requires AllGrown(s, t, a) && s.products.Keys <= t.products.Keys
    requires forall k | k in s.byIdentity :: k in t.byIdentity && t.byIdentity[k] == s.byIdentity[k]
    requires forall i | i in s.sources :: i in t.sources && t.sources[i].productId == s.sources[i].productId
    ensures Keeps(s, t)
  {}

  lemma NewIdentityKeepsChain(s: Store, k: Identity, start: Option<Snapshot>, f: Fold, first: Id, next: Id, now: Time)
    requires Chain(s, next) && Accepted(s, k, start, f, first, next, now) && start.None?
    ensures Chain(Written(s, Emit(start, f, k, now)), next) && Keeps(s, Written(s, Emit(start, f, k, now)))
  {
    var t, pid := Target(s, start, f, k, now), f.cur.value.productId;
    NewPlaced(s, k, start, f, first, next, now);
    AcceptedRows(s, k, start, f, first, next, now);
    assert SourcesOk(t, next) && NewRow(s, t, k) by { NewSourceKept(s, k, start, f, first, next, now); }
    assert ProductMoves(s, t, pid, None, f.added.versions) by { NewProducts(s, k, start, f, first, next, now); }
    ChainGrows(s, t, pid, None, f.added, first, next);
    WrittenKeeps(s, t, f.added);
  }

  lemma NoRows(base: nat, pid: Id, first: Id, next: Id, prev: Option<Id>, a: Added)
    requires |a.versions| == |a.changes| == |a.events| == 0
    ensures Rows(base, pid, a, first, next) && Linked(prev, pid, a)
  {}

  lemma KnownIdentityKeepsChain(s: Store, k: Identity, start: Option<Snapshot>, f: Fold, first: Id, next: Id, now: Time)
    requires Chain(s, next) && Accepted(s, k, start, f, first, next, now) && start.Some?
    ensures Chain(Written(s, Emit(start, f, k, now)), next) && Keeps(s, Written(s, Emit(start, f, k, now)))
  {
    var t, pid := Written(s, Emit(start, f, k, now)), f.cur.value.productId;
    KnownSources(s, k, start, f, now);
    SameSourcesOk(s, t, next);
    AcceptedRows(s, k, start, f, first, next, now);
    assert pid in s.products && s.products[pid].id == pid < next;
    if f.added.versions == [] {
      var prev := s.products[pid].currentVersionId;
      KnownProductStays(s, k, start, f, now, next, pid);
      NoRows(NumberOf(s, prev), pid, first, next, prev, f.added);
      ChainGrows(s, t, pid, prev, f.added, first, next);
    } else {
      KnownGuard(s, k, start, f, now);
      KnownProductMoves(s, k, start, f, first, next, now);
      ChainGrows(s, t, pid, start.value.currentVersionId, f.added, first, next);
    }
    WrittenKeeps(s, t, f.added);
  }

  // The guards make a group decided on an old snapshot harmless: if it is written at all, the product
  // had not moved since, and the chain goes on.
  lemma GroupKeepsChain(s: Store, k: Identity, start: Option<Snapshot>, f: Fold, first: Id, next: Id, now: Time)
    requires Chain(s, next) && Accepted(s, k, start, f, first, next, now)
    ensures Chain(Written(s, Emit(start, f, k, now)), next) && Keeps(s, Written(s, Emit(start, f, k, now)))
  {
    if start.None? {
      NewIdentityKeepsChain(s, k, start, f, first, next, now);
    } else {
      KnownIdentityKeepsChain(s, k, start, f, first, next, now);
    }
  }

  // ---------------------------------------------------------------- one page, on old snapshots

  ghost predicate AllPast(s: Store, snaps: map<Identity, Snapshot>) {
    forall k | k in snaps :: Past(s, k, snaps[k])
  }

  lemma AllStayPast(s: Store, t: Store, snaps: map<Identity, Snapshot>)
    requires AllPast(s, snaps) && Keeps(s, t)
    ensures AllPast(t, snaps)
  {
    forall k | k in snaps ensures Past(t, k, snaps[k]) {
      PastStaysPast(s, t, k, snaps[k]);
    }
  }

  lemma InsertedAreNew<T, U>(table: map<Id, U>, a: seq<T>, b: seq<T>, key: T -> Id)
    requires Absent(table, a + b, key)
    ensures forall x: Id | x in table :: x !in Keys(a, key) && x !in Keys(b, key)
  {
    IndexKeys(a + b, key);
    KeysAppend(a, b, key);
    forall x: Id | x in Keys(a, key) + Keys(b, key) ensures x !in table {
      var i :| 0 <= i < |a + b| && key((a + b)[i]) == x;
    }
  }

  lemma OwnedExist(s: Store, ids: seq<Identity>, next: Id)
    requires SourcesOk(s, next)
    ensures forall x | OwnsProduct(s, ids, x) :: x in s.products
    ensures forall x | OwnsSource(s, ids, x) :: x in s.sources
  {}

  lemma ProductsApart(s: Store, ids: seq<Identity>, k: Identity, a: Plan, b: Plan, next: Id)
    requires Consistent(s, next) && k !in ids && Absent(s.products, a.products + b.products, ProductKey)
    requires forall x | x in Keys(a.moves, MoveKey) + Keys(a.fingerprints, FingerprintKey) :: OwnsProduct(s, ids, x)
    requires forall x | x in Keys(b.moves, MoveKey) + Keys(b.fingerprints, FingerprintKey) :: OwnsProduct(s, [k], x)
    ensures Keys(b.moves, MoveKey) + Keys(b.fingerprints, FingerprintKey)
            !! Keys(a.products, ProductKey) + Keys(a.moves, MoveKey) + Keys(a.fingerprints, FingerprintKey)
    ensures Keys(b.products, ProductKey) !! Keys(a.moves, MoveKey) + Keys(a.fingerprints, FingerprintKey)
  {
    OwnersDiffer(s, ids, k, next);
    OwnedExist(s, ids, next);
    OwnedExist(s, [k], next);
    InsertedAreNew(s.products, a.products, b.products, ProductKey);
    forall x | x in Keys(b.moves, MoveKey) + Keys(b.fingerprints, FingerprintKey)
      ensures x !in Keys(a.products, ProductKey) && x !in Keys(a.moves, MoveKey)
              && x !in Keys(a.fingerprints, FingerprintKey)
    {
      assert OwnsProduct(s, [k], x);
    }
    forall x | x in Keys(b.products, ProductKey)
      ensures x !in Keys(a.moves, MoveKey) && x !in Keys(a.fingerprints, FingerprintKey)
    {
      assert !OwnsProduct(s, ids, x);
    }
  }

  lemma SourceRowsApart(s: Store, ids: seq<Identity>, k: Identity, a: Plan, b: Plan, next: Id)
    requires Consistent(s, next) && k !in ids && Absent(s.sources, a.sources + b.sources, SourceKey)
    requires forall x | x in Keys(a.sourceChanges, SourceChangedKey) + Keys(a.watermarks, WatermarkKey) ::
               OwnsSource(s, ids, x)
    requires forall x | x in Keys(b.sourceChanges, SourceChangedKey) + Keys(b.watermarks, WatermarkKey) ::
               OwnsSource(s, [k], x)
    ensures Keys(b.sourceChanges, SourceChangedKey) + Keys(b.watermarks, WatermarkKey)
            !! Keys(a.sources, SourceKey) + Keys(a.sourceChanges, SourceChangedKey) + Keys(a.watermarks, WatermarkKey)
    ensures Keys(b.sources, SourceKey) !! Keys(a.sourceChanges, SourceChangedKey) + Keys(a.watermarks, WatermarkKey)
  {
    OwnersDiffer(s, ids, k, next);
    OwnedExist(s, ids, next);
    OwnedExist(s, [k], next);
    InsertedAreNew(s.sources, a.sources, b.sources, SourceKey);
    forall x | x in Keys(b.sourceChanges, SourceChangedKey) + Keys(b.watermarks, WatermarkKey)
      ensures x !in Keys(a.sources, SourceKey) && x !in Keys(a.sourceChanges, SourceChangedKey)
              && x !in Keys(a.watermarks, WatermarkKey)
    {
      assert OwnsSource(s, [k], x);
    }
    forall x | x in Keys(b.sources, SourceKey)
      ensures x !in Keys(a.sourceChanges, SourceChangedKey) && x !in Keys(a.watermarks, WatermarkKey)
    {
      assert !OwnsSource(s, ids, x);
    }
  }

  lemma AcceptedGroupsApart(s: Store, ids: seq<Identity>, k: Identity, a: Plan, b: Plan, first: Id, mid: Id, last: Id,
                            next: Id)
    requires Consistent(s, next) && k !in ids && InsertsFree(s, Append(a, b))
    requires Within(s, ids, a, first, mid) && Within(s, [k], b, mid, last)
    ensures Apart(a, b)
  {
    ProductsApart(s, ids, k, a, b, next);
    SourceRowsApart(s, ids, k, a, b, next);
  }

  lemma PastIsNamed(s: Store, snaps: map<Identity, Snapshot>, k: Identity)
    requires AllPast(s, snaps)
    ensures PastStart(s, k, StartOf(snaps, k)) && Names(s, k, StartOf(snaps, k))
  {}

  // The fold of one group of the page.
  function FoldOf(snaps: map<Identity, Snapshot>, page: seq<Record>, k: Identity, first: Id, now: Time): Fold {
    ApplyAll(Begin(StartOf(snaps, k), first), Group(page, k), now)
  }

  lemma FoldOfGroup(snaps: map<Identity, Snapshot>, page: seq<Record>, k: Identity, first: Id, now: Time)
    requires k in Identities(page)
    ensures var f := FoldOf(snaps, page, k, first, now);
            && FoldInv(StartOf(snaps, k), f, first) && f.cur.Some? && first <= f.next
            && Linked(CurrentOf(StartOf(snaps, k)), f.cur.value.productId, f.added)
  {
    GroupOfIdentity(page, k);
    FoldAll(StartOf(snaps, k), first, Group(page, k), now);
    LinkedAll(StartOf(snaps, k), first, Group(page, k), now);
  }

  lemma DecideLast(snaps: map<Identity, Snapshot>, page: seq<Record>, ids: seq<Identity>, now: Time, first: Id)
    requires ids != []
    ensures var k := ids[|ids|-1];
            var (plan, n) := DecideGroups(snaps, page, ids[..|ids|-1], now, first);
            var f := FoldOf(snaps, page, k, n, now);
            DecideGroups(snaps, page, ids, now, first) == (Append(plan, Emit(StartOf(snaps, k), f, k, now)), f.next)
  {}

  ghost predicate Listed(page: seq<Record>, ids: seq<Identity>) {
    NoRepeats(ids) && forall k | k in ids :: k in Identities(page)
  }

  lemma ListedInit(page: seq<Record>, ids: seq<Identity>)
    requires ids != [] && Listed(page, ids)
    ensures Listed(page, ids[..|ids|-1]) && ids[|ids|-1] !in ids[..|ids|-1] && ids[|ids|-1] in Identities(page)
    ensures ids == ids[..|ids|-1] + [ids[|ids|-1]]
  {
    assert ids[|ids|-1] in ids;
  }

  lemma {:induction false} PageWithin(s: Store, snaps: map<Identity, Snapshot>, page: seq<Record>, ids: seq<Identity>,
                                      now: Time, first: Id)
    requires AllPast(s, snaps) && Listed(page, ids)
    ensures var (plan, n) := DecideGroups(snaps, page, ids, now, first);
            first <= n && Within(s, ids, plan, first, n)
  {
    if ids == [] {
      EmptyWithin(s, first);
    } else {
      var init, k := ids[..|ids|-1], ids[|ids|-1];
      ListedInit(page, ids);
      PageWithin(s, snaps, page, init, now, first);
      DecideLast(snaps, page, ids, now, first);
      var (plan, n) := DecideGroups(snaps, page, init, now, first);
      GroupWithin(s, snaps, page, k, now, n);
      WithinAppend(s, init, k, plan, Emit(StartOf(snaps, k), FoldOf(snaps, page, k, n, now), k, now), first, n,
                   FoldOf(snaps, page, k, n, now).next);
    }
  }

  lemma GroupWithin(s: Store, snaps: map<Identity, Snapshot>, page: seq<Record>, k: Identity, now: Time, first: Id)
    requires AllPast(s, snaps) && k in Identities(page)
    ensures var f := FoldOf(snaps, page, k, first, now);
            first <= f.next && Within(s, [k], Emit(StartOf(snaps, k), f, k, now), first, f.next)
  {
    FoldOfGroup(snaps, page, k, first, now);
    PastIsNamed(s, snaps, k);
    EmitWithin(s, k, StartOf(snaps, k), FoldOf(snaps, page, k, first, now), first, now);
  }

  lemma KeepsTransitive(s: Store, t: Store, u: Store)
    requires Keeps(s, t) && Keeps(t, u)
    ensures Keeps(s, u)
  {}

  lemma KeepsSelf(s: Store)
    ensures Keeps(s, s)
  {}

  // A page decided on old snapshots either is refused as a whole or continues every chain it touches.
  lemma {:induction false} PageKeepsChain(s: Store, snaps: map<Identity, Snapshot>, page: seq<Record>,
                                          ids: seq<Identity>, now: Time, first: Id, next: Id)
    requires Chain(s, next) && AllPast(s, snaps) && Listed(page, ids)
    requires var (plan, n) := DecideGroups(snaps, page, ids, now, first); n <= next && ApplyPlan(s, plan).Applied?
    ensures var t := ApplyPlan(s, DecideGroups(snaps, page, ids, now, first).0).store; Chain(t, next) && Keeps(s, t)
  {
    if ids == [] {
      EmptyPlanApplies(s);
      KeepsSelf(s);
    } else {
      var init, k := ids[..|ids|-1], ids[|ids|-1];
      ListedInit(page, ids);
      DecideLast(snaps, page, ids, now, first);
      var (plan, n) := DecideGroups(snaps, page, init, now, first);
      var f := FoldOf(snaps, page, k, n, now);
      PageWithin(s, snaps, page, init, now, first);
      LastGroupSplits(s, snaps, page, init, k, plan, now, first, n, next);
      PageKeepsChain(s, snaps, page, init, now, first, next);
      LastGroupKeepsChain(s, snaps, page, k, Written(s, plan), now, n, next);
    }
  }

  lemma LastGroupSplits(s: Store, snaps: map<Identity, Snapshot>, page: seq<Record>, ids: seq<Identity>, k: Identity,
                        plan: Plan, now: Time, first: Id, n: Id, next: Id)
    requires Consistent(s, next) && AllPast(s, snaps) && k !in ids && k in Identities(page)
    requires Within(s, ids, plan, first, n)
    requires ApplyPlan(s, Append(plan, Emit(StartOf(snaps, k), FoldOf(snaps, page, k, n, now), k, now))).Applied?
    ensures var b := Emit(StartOf(snaps, k), FoldOf(snaps, page, k, n, now), k, now);
            && n <= FoldOf(snaps, page, k, n, now).next
            && ApplyPlan(s, plan) == Applied(Written(s, plan))
            && ApplyPlan(Written(s, plan), b) == ApplyPlan(s, Append(plan, b))
  {
    var f := FoldOf(snaps, page, k, n, now);
    var b := Emit(StartOf(snaps, k), f, k, now);
    GroupWithin(s, snaps, page, k, now, n);
    AcceptedGroupsApart(s, ids, k, plan, b, first, n, f.next, next);
    ApplySplit(s, plan, b);
  }

  lemma LastGroupKeepsChain(s: Store, snaps: map<Identity, Snapshot>, page: seq<Record>, k: Identity, mid: Store,
                            now: Time, n: Id, next: Id)
    requires k in Identities(page) && AllPast(s, snaps) && Keeps(s, mid) && Chain(mid, next)
    requires FoldOf(snaps, page, k, n, now).next <= next
    requires ApplyPlan(mid, Emit(StartOf(snaps, k), FoldOf(snaps, page, k, n, now), k, now)).Applied?
    ensures var end := Written(mid, Emit(StartOf(snaps, k), FoldOf(snaps, page, k, n, now), k, now));
            Chain(end, next) && Keeps(s, end)
  {
    var start, f := StartOf(snaps, k), FoldOf(snaps, page, k, n, now);
    AllStayPast(s, mid, snaps);
    PastIsNamed(mid, snaps, k);
    FoldOfGroup(snaps, page, k, n, now);
    GroupKeepsChain(mid, k, start, f, n, next, now);
    KeepsTransitive(s, mid, Written(mid, Emit(start, f, k, now)));
  }

  // ---------------------------------------------------------------- the system

  type WorkerId = int

  // A page decided by a worker and not yet committed, or committed already.
  datatype Work = Work(page: seq<Record>, snapshots: map<Identity, Snapshot>, now: Time, first: Id)

  datatype System = System(store: Store, next: Id, work: map<WorkerId, Work>)

  const Initial := System(EmptyStore, 0, map[])

  datatype Action =
    // reads the page's snapshots, decides the page and takes identifiers for its rows
    | Decide(worker: WorkerId, page: seq<Record>, now: Time)
    // commits what was decided: all of it or, when a guard refuses, nothing
    | Commit(worker: WorkerId)
    // a crash forgets what was decided
    | Crash(worker: WorkerId)

  function DecidedPlan(w: Work): (Plan, Id) {
    DecideBatch(w.snapshots, w.page, w.now, w.first)
  }

  function Next(y: System, a: Action): System {
    match a
    case Decide(w, page, now) =>
      var work := Work(page, Snapshots(y.store, Identities(page)), now, y.next);
      y.(work := y.work[w := work], next := DecidedPlan(work).1)
    case Commit(w) =>
      if w !in y.work then y
      else
        (match ApplyPlan(y.store, DecidedPlan(y.work[w]).0)
         case Applied(t) => y.(store := t)
         case _ => y)
    case Crash(w) => y.(work := y.work - {w})
  }

  function Run(actions: seq<Action>): System {
    if actions == [] then Initial else Next(Run(actions[..|actions|-1]), actions[|actions|-1])
  }

  ghost predicate Held(y: System, w: Work) {
    AllPast(y.store, w.snapshots) && DecidedPlan(w).1 <= y.next
  }

  ghost predicate Inv(y: System) {
    Chain(y.store, y.next) && forall w | w in y.work :: Held(y, y.work[w])
  }

  lemma InitialHolds()
    ensures Inv(Initial)
  {}

  lemma ChainWithMoreIds(s: Store, next: Id, later: Id)
    requires Chain(s, next) && next <= later
    ensures Chain(s, later)
  {}

  lemma AllListed(page: seq<Record>)
    ensures Listed(page, Identities(page))
  {
    IdentitiesDistinct(page);
  }

  lemma DecideHolds(y: System, w: WorkerId, page: seq<Record>, now: Time)
    requires Inv(y)
    ensures Inv(Next(y, Decide(w, page, now)))
  {
    var work := Work(page, Snapshots(y.store, Identities(page)), now, y.next);
    forall k | k in work.snapshots ensures Past(y.store, k, work.snapshots[k]) {
      ReadIsPast(y.store, y.next, k);
    }
    AllListed(page);
    PageWithin(y.store, work.snapshots, page, Identities(page), now, y.next);
    ChainWithMoreIds(y.store, y.next, DecidedPlan(work).1);
  }

  lemma HeldStays(y: System, t: System, w: Work)
    requires Held(y, w) && Keeps(y.store, t.store) && t.next == y.next
    ensures Held(t, w)
  {
    AllStayPast(y.store, t.store, w.snapshots);
  }

  lemma CommitKeeps(y: System, work: Work)
    requires Chain(y.store, y.next) && Held(y, work) && ApplyPlan(y.store, DecidedPlan(work).0).Applied?
    ensures var t := ApplyPlan(y.store, DecidedPlan(work).0).store; Chain(t, y.next) && Keeps(y.store, t)
  {
    AllListed(work.page);
    PageKeepsChain(y.store, work.snapshots, work.page, Identities(work.page), work.now, work.first, y.next);
  }

  lemma CommitHolds(y: System, w: WorkerId)
    requires Inv(y)
    ensures Inv(Next(y, Commit(w))) && Keeps(y.store, Next(y, Commit(w)).store)
  {
    KeepsSelf(y.store);
    if w in y.work && ApplyPlan(y.store, DecidedPlan(y.work[w]).0).Applied? {
      CommitKeeps(y, y.work[w]);
      var t := Next(y, Commit(w));
      forall v | v in t.work ensures Held(t, t.work[v]) {
        HeldStays(y, t, y.work[v]);
      }
    }
  }

  // One step of any worker: the chain is kept, and rows and versions written before stay.
  lemma StepHolds(y: System, a: Action)
    requires Inv(y)
    ensures Inv(Next(y, a)) && Keeps(y.store, Next(y, a).store)
  {
    match a
    case Decide(w, page, now) => DecideHolds(y, w, page, now); KeepsSelf(y.store);
    case Commit(w) => CommitHolds(y, w);
    case Crash(w) => KeepsSelf(y.store);
  }

  lemma {:induction false} RunHolds(actions: seq<Action>)
    ensures Inv(Run(actions))
  {
    if actions == [] {
      InitialHolds();
    } else {
      RunHolds(actions[..|actions|-1]);
      StepHolds(Run(actions[..|actions|-1]), actions[|actions|-1]);
    }
  }

  // For every interleaving of workers, whatever the age of their snapshots, and even if a decided page
  // is committed twice: each product's versions are numbered exactly 1..n and its row points at n; each
  // version has one change row, linked to the version numbered before it, and one event.
  lemma ChainsUnderConcurrency(actions: seq<Action>)
    ensures var s := Run(actions).store;
            && (forall p | p in s.products ::
                  && s.products[p].currentVersionId.Some? && s.products[p].currentVersionId.value in s.versions
                  && s.versions[s.products[p].currentVersionId.value].productId == p
                  && forall m: nat :: HasNumber(s, p, m)
                       <==> 1 <= m <= s.versions[s.products[p].currentVersionId.value].number)
            && NumbersUnique(s)
            && (forall v | v in s.versions :: Recorded(s, s.versions[v]))
            && |s.events| == |s.versions| == |s.changes|
  {
    RunHolds(actions);
    var y := Run(actions);
    OneChangeAndOneEventPerVersion(y.store, y.next);
    forall p | p in y.store.products
      ensures y.store.products[p].currentVersionId.Some?
              && y.store.products[p].currentVersionId.value in y.store.versions
      ensures forall m: nat :: HasNumber(y.store, p, m) <==>
                1 <= m <= y.store.versions[y.store.products[p].currentVersionId.value].number
    {
      VersionsAreNumberedOneToN(y.store, y.next, p);
    }
  }

  // A version, once committed, is never changed or removed.
  lemma {:induction false} CommittedVersionsStay(actions: seq<Action>, m: nat)
    requires m <= |actions|
    ensures Keeps(Run(actions[..m]).store, Run(actions).store)
  {
    if m == |actions| {
      assert actions[..m] == actions;
      KeepsSelf(Run(actions).store);
    } else {
      var init := actions[..|actions|-1];
      assert init[..m] == actions[..m];
      CommittedVersionsStay(init, m);
      RunHolds(init);
      StepHolds(Run(init), actions[|actions|-1]);
      KeepsTransitive(Run(actions[..m]).store, Run(init).store, Run(actions).store);
    }
  }
}
