// The main result on batches: a whole page, decided at once and written in one transaction, leaves
// exactly what its records leave when each is a page of its own.
module PageRefinement {
  import opened Prelude
  import opened Transition
  import opened Batch
  import opened ProductStore
  import opened FoldInvariant
  import opened GroupWrite
  import opened GroupCommit
  import opened PlanAppend
  import opened BatchRefinement
  import Sorting

  // ---------------------------------------------------------------- grouping

  lemma {:induction false} SelectedHaveIdentity(page: seq<Record>, k: Identity)
    ensures forall r | r in Select(page, k) :: r.identity == k
    ensures k in Identities(page) ==> Select(page, k) != []
  {
    if page != [] {
      SelectedHaveIdentity(page[..|page|-1], k);
    }
  }

  lemma GroupOfIdentity(page: seq<Record>, k: Identity)
    ensures forall r | r in Group(page, k) :: r.identity == k
    ensures k in Identities(page) ==> Group(page, k) != []
  {
    SelectedHaveIdentity(page, k);
    ProcessingOrderIsTotal();
    Sorting.SortOrders(Select(page, k), NotAfter);
    var g := Group(page, k);
    forall r | r in g ensures r.identity == k {
      assert r in multiset(g);
      assert r in multiset(Select(page, k));
    }
    assert |multiset(g)| == |g| && |multiset(Select(page, k))| == |Select(page, k)|;
  }

  ghost predicate NoRepeats<T>(xs: seq<T>) {
    forall i, j | 0 <= i < j < |xs| :: xs[i] != xs[j]
  }

  lemma {:induction false} IdentitiesDistinct(page: seq<Record>)
    ensures NoRepeats(Identities(page))
  {
    if page != [] {
      IdentitiesDistinct(page[..|page|-1]);
    }
  }

  // ---------------------------------------------------------------- what a group's rows touch

  // Product x belongs to one of the identities.
  ghost predicate OwnsProduct(s: Store, ids: seq<Identity>, x: Id) {
    exists k :: k in ids && HasRow(s, k) && s.sources[s.byIdentity[k]].productId == x
  }

  ghost predicate OwnsSource(s: Store, ids: seq<Identity>, x: Id) {
    exists k :: k in ids && k in s.byIdentity && s.byIdentity[k] == x
  }

  // A plan inserts rows with identifiers from [first, next) and updates only the identities' own rows.
  ghost predicate Within(s: Store, ids: seq<Identity>, p: Plan, first: Id, next: Id) {
    && (forall x | x in Keys(p.products, ProductKey) :: first <= x < next)
    && (forall x | x in Keys(p.sources, SourceKey) :: first <= x < next)
    && (forall x | x in Keys(p.moves, MoveKey) :: OwnsProduct(s, ids, x))
    && (forall x | x in Keys(p.fingerprints, FingerprintKey) :: OwnsProduct(s, ids, x))
    && (forall x | x in Keys(p.sourceChanges, SourceChangedKey) :: OwnsSource(s, ids, x))
    && (forall x | x in Keys(p.watermarks, WatermarkKey) :: OwnsSource(s, ids, x))
  }

  // The snapshot, however old, still names the identity's rows.
  ghost predicate Names(s: Store, k: Identity, start: Option<Snapshot>) {
    start.Some? ==>
      HasRow(s, k) && s.byIdentity[k] == start.value.productSourceId
      && s.sources[s.byIdentity[k]].productId == start.value.productId
  }

  lemma EmitWithin(s: Store, k: Identity, start: Option<Snapshot>, f: Fold, first: Id, now: Time)
    requires Names(s, k, start)
    requires StateInv(start, f, first) && f.cur.Some?
    requires f.added.versions != [] ==> f.added.versions[0].id < f.next
    ensures Within(s, [k], Emit(start, f, k, now), first, f.next)
  {
    var p := Emit(start, f, k, now);
    if start.None? {
      IndexOne(p.products[0], ProductKey);
      IndexOne(p.sources[0], SourceKey);
    } else {
      var cur := f.cur.value;
      assert k in [k] && HasRow(s, k) && s.byIdentity[k] == cur.productSourceId;
      assert OwnsProduct(s, [k], cur.productId) && OwnsSource(s, [k], cur.productSourceId);
      if f.added.versions != [] {
        IndexOne(p.moves[0], MoveKey);
        IndexOne(p.sourceChanges[0], SourceChangedKey);
      } else if f.touched {
        if p.fingerprints != [] { IndexOne(p.fingerprints[0], FingerprintKey); }
        IndexOne(p.watermarks[0], WatermarkKey);
      }
    }
  }

  lemma KeysAppend<K, T>(a: seq<T>, b: seq<T>, key: T -> K)
    ensures Keys(a + b, key) == Keys(a, key) + Keys(b, key)
  {
    IndexAppend(a, b, key);
  }

  lemma OwnsMore(s: Store, ids: seq<Identity>, k: Identity)
    ensures forall x | OwnsProduct(s, ids, x) || OwnsProduct(s, [k], x) :: OwnsProduct(s, ids + [k], x)
    ensures forall x | OwnsSource(s, ids, x) || OwnsSource(s, [k], x) :: OwnsSource(s, ids + [k], x)
  {
    assert forall j | j in ids || j in [k] :: j in ids + [k];
  }

  lemma WithinAppend(s: Store, ids: seq<Identity>, k: Identity, a: Plan, b: Plan, first: Id, mid: Id, next: Id)
    requires Within(s, ids, a, first, mid) && Within(s, [k], b, mid, next) && first <= mid <= next
    ensures Within(s, ids + [k], Append(a, b), first, next)
  {
    OwnsMore(s, ids, k);
    KeysAppend(a.products, b.products, ProductKey);
    KeysAppend(a.sources, b.sources, SourceKey);
    KeysAppend(a.moves, b.moves, MoveKey);
    KeysAppend(a.fingerprints, b.fingerprints, FingerprintKey);
    KeysAppend(a.sourceChanges, b.sourceChanges, SourceChangedKey);
    KeysAppend(a.watermarks, b.watermarks, WatermarkKey);
  }

  lemma OwnersDiffer(s: Store, ids: seq<Identity>, k: Identity, first: Id)
    requires Consistent(s, first) && k !in ids
    ensures forall x | OwnsProduct(s, [k], x) :: !OwnsProduct(s, ids, x) && x < first
    ensures forall x | OwnsSource(s, [k], x) :: !OwnsSource(s, ids, x) && x < first
  {
    forall x | OwnsProduct(s, [k], x) ensures !OwnsProduct(s, ids, x) && x < first {
      var i := s.byIdentity[k];
      assert s.sources[i].productId == x && x in s.products && s.products[x].id == x;
      assert s.sources[i].identity == k;
      forall j | j in ids && HasRow(s, j) ensures s.sources[s.byIdentity[j]].productId != x {
        assert s.sources[s.byIdentity[j]].identity == j && s.byIdentity[j] != i;
      }
    }
  }

  lemma OwnedAreOld(s: Store, ids: seq<Identity>, first: Id)
    requires Consistent(s, first)
    ensures forall x | OwnsProduct(s, ids, x) :: x < first
    ensures forall x | OwnsSource(s, ids, x) :: x < first
  {}

  lemma GroupsApart(s: Store, ids: seq<Identity>, k: Identity, a: Plan, b: Plan, first: Id, mid: Id, next: Id)
    requires Consistent(s, first) && k !in ids && first <= mid
    requires Within(s, ids, a, first, mid) && Within(s, [k], b, mid, next)
    ensures Apart(a, b)
  {
    OwnersDiffer(s, ids, k, first);
    OwnedAreOld(s, ids, first);
    forall x | x in Keys(b.moves, MoveKey) + Keys(b.fingerprints, FingerprintKey)
      ensures x !in Keys(a.products, ProductKey) && x !in Keys(a.moves, MoveKey)
              && x !in Keys(a.fingerprints, FingerprintKey)
    {
      assert OwnsProduct(s, [k], x);
    }
    forall x | x in Keys(b.products, ProductKey)
      ensures x !in Keys(a.moves, MoveKey) && x !in Keys(a.fingerprints, FingerprintKey)
    {}
    forall x | x in Keys(b.sourceChanges, SourceChangedKey) + Keys(b.watermarks, WatermarkKey)
      ensures x !in Keys(a.sources, SourceKey) && x !in Keys(a.sourceChanges, SourceChangedKey)
              && x !in Keys(a.watermarks, WatermarkKey)
    {
      assert OwnsSource(s, [k], x);
    }
    forall x | x in Keys(b.sources, SourceKey)
      ensures x !in Keys(a.sourceChanges, SourceChangedKey) && x !in Keys(a.watermarks, WatermarkKey)
    {}
  }

  // ---------------------------------------------------------------- the page

  // Writing one identity leaves every other identity's snapshot as it was.
  lemma OthersKeepSnapshot(s: Store, k: Identity, start: Option<Snapshot>, f: Fold, first: Id, now: Time, j: Identity)
    requires Ready(s, k, start, f, first) && j != k
    ensures SnapshotOf(Target(s, start, f, k, now), j) == SnapshotOf(s, j)
  {
    ReadyIsPlaced(s, k, start, f, first);
    VersionsAfter(s, k, start, f, first, now);
    var t, cur := Target(s, start, f, k, now), f.cur.value;
    if j in s.byIdentity {
      var i := s.byIdentity[j];
      assert i != cur.productSourceId && t.sources[i] == s.sources[i];
      var p := s.sources[i].productId;
      assert p in s.products && p != cur.productId && t.products[p] == s.products[p];
      assert HasRow(s, j) && HasRow(t, j);
      if s.products[p].currentVersionId.Some? {
        var c := s.products[p].currentVersionId.value;
        assert c in s.versions && t.versions[c] == s.versions[c];
      }
    } else {
      assert !HasRow(t, j) && !HasRow(s, j);
    }
  }

  // After the groups of `ids`: the plan so far applies, records a page each leave the same, identities
  // not yet reached are as they were.
  ghost predicate PageSoFar(s: Store, page: seq<Record>, ids: seq<Identity>, now: Time, next: Id, p: Progress) {
    var (plan, n) := DecideGroups(Snapshots(s, Identities(page)), page, ids, now, next);
    && next <= n && p.next == n && p.metrics == plan.added.metrics
    && ApplyPlan(s, plan) == Applied(p.store)
    && RunAlone(s, ProcessingOrder(page, ids), now, next) == Some(p)
    && Consistent(p.store, n)
    && Within(s, ids, plan, next, n)
    && (forall k | k !in ids :: SnapshotOf(p.store, k) == SnapshotOf(s, k))
  }

  lemma AddNothing<K, V>(m: map<K, V>)
    ensures m + map[] == m
  {}

  lemma NothingWritten(s: Store)
    ensures Written(s, EmptyPlan) == s
  {
    AddNothing(s.products);
    AddNothing(s.sources);
    AddNothing(s.byIdentity);
    AddNothing(s.versions);
    AddNothing(s.changes);
    AddNothing(s.events);
    ByNone(s.products, s.sources);
    assert IdentityIndex([]) == map[];
  }

  lemma EmptyPlanApplies(s: Store)
    ensures ApplyPlan(s, EmptyPlan) == Applied(s)
  {
    NothingWritten(s);
  }

  lemma NoGroups(s: Store, page: seq<Record>, now: Time, next: Id)
    requires Consistent(s, next)
    ensures PageSoFar(s, page, [], now, next, Progress(s, NoMetrics, next))
  {
    EmptyPlanApplies(s);
    EmptyWithin(s, next);
    assert DecideGroups(Snapshots(s, Identities(page)), page, [], now, next) == (EmptyPlan, next);
    assert RunAlone(s, ProcessingOrder(page, []), now, next) == Some(Progress(s, NoMetrics, next));
  }

  lemma EmptyWithin(s: Store, next: Id)
    ensures Within(s, [], EmptyPlan, next, next)
  {}

  lemma ApplyBoth(s: Store, a: Plan, mid: Store, b: Plan, end: Store)
    requires Apart(a, b) && ApplyPlan(s, a) == Applied(mid) && ApplyPlan(mid, b) == Applied(end)
    ensures ApplyPlan(s, Append(a, b)) == Applied(end)
  {
    assert mid == Written(s, a);
    ApplyAppend(s, a, b);
  }

  lemma RunAloneAppend(s: Store, a: seq<Record>, b: seq<Record>, now: Time, next: Id, p: Progress)
    requires RunAlone(s, a, now, next) == Some(p)
    ensures RunAlone(s, a + b, now, next) == Counted(p.metrics, RunAlone(p.store, b, now, p.next))
  {
    RunEachAppend(Alone(now), s, a, b, next);
  }

  // What the next group adds, on both sides.
  lemma NextGroup(s: Store, page: seq<Record>, ids: seq<Identity>, now: Time, next: Id, p: Progress, k: Identity)
    requires Consistent(s, next) && PageSoFar(s, page, ids, now, next, p) && k !in ids && k in Identities(page)
    ensures var start := SnapshotOf(s, k);
            var f := ApplyAll(Begin(start, p.next), Group(page, k), now);
            && Ready(p.store, k, start, f, p.next)
            && ApplyPlan(p.store, Emit(start, f, k, now)) == Applied(Target(p.store, start, f, k, now))
            && RunAlone(p.store, Group(page, k), now, p.next) == Some(Left(p.store, k, start, f, now))
  {
    var start := SnapshotOf(s, k);
    assert SnapshotOf(p.store, k) == start;
    GroupOfIdentity(page, k);
    GroupReady(p.store, k, Group(page, k), now, p.next);
    GroupRefines(p.store, k, Group(page, k), now, p.next);
    Commits(p.store, k, start, ApplyAll(Begin(start, p.next), Group(page, k), now), p.next, now);
  }

  lemma DecideOneMore(s: Store, page: seq<Record>, ids: seq<Identity>, now: Time, next: Id, k: Identity)
    requires k in Identities(page)
    ensures var snaps := Snapshots(s, Identities(page));
            var (plan, n) := DecideGroups(snaps, page, ids, now, next);
            var f := ApplyAll(Begin(SnapshotOf(s, k), n), Group(page, k), now);
            DecideGroups(snaps, page, ids + [k], now, next)
            == (Append(plan, Emit(SnapshotOf(s, k), f, k, now)), f.next)
    ensures ProcessingOrder(page, ids + [k]) == ProcessingOrder(page, ids) + Group(page, k)
  {
    SnapshotsAt(s, Identities(page), k);
    assert (ids + [k])[..|ids + [k]|-1] == ids;
  }

  lemma OneMoreGroup(s: Store, page: seq<Record>, ids: seq<Identity>, now: Time, next: Id, p: Progress, k: Identity)
    returns (q: Progress)
    requires Consistent(s, next) && PageSoFar(s, page, ids, now, next, p) && k !in ids && k in Identities(page)
    ensures PageSoFar(s, page, ids + [k], now, next, q)
  {
    var start := SnapshotOf(s, k);
    var (plan, n) := DecideGroups(Snapshots(s, Identities(page)), page, ids, now, next);
    var f := ApplyAll(Begin(start, n), Group(page, k), now);
    var b := Emit(start, f, k, now);
    NextGroup(s, page, ids, now, next, p, k);
    DecideOneMore(s, page, ids, now, next, k);
    var t := Target(p.store, start, f, k, now);
    q := Progress(t, AddMetrics(p.metrics, f.added.metrics), f.next);
    OneMoreWithin(s, ids, plan, k, start, f, next, n, now);
    EmitAdded(start, f, k, now);
    GroupsApart(s, ids, k, plan, b, next, n, f.next);
    ApplyBoth(s, plan, p.store, b, t);
    RunAloneAppend(s, ProcessingOrder(page, ids), Group(page, k), now, next, p);
    Keeps(p.store, k, start, f, n, now);
    forall j | j !in ids + [k] ensures SnapshotOf(t, j) == SnapshotOf(s, j) {
      assert j !in ids && j != k;
      OthersKeepSnapshot(p.store, k, start, f, n, now, j);
    }
  }

  lemma OneMoreWithin(s: Store, ids: seq<Identity>, plan: Plan, k: Identity, start: Option<Snapshot>, f: Fold,
                      first: Id, n: Id, now: Time)
    requires Consistent(s, first) && first <= n && start == SnapshotOf(s, k) && FoldInv(start, f, n) && f.cur.Some?
    requires Within(s, ids, plan, first, n)
    ensures Within(s, [k], Emit(start, f, k, now), n, f.next)
    ensures Within(s, ids + [k], Append(plan, Emit(start, f, k, now)), first, f.next)
  {
    assert Names(s, k, start) by {
      if start.Some? { assert s.sources[s.byIdentity[k]].id == s.byIdentity[k]; }
    }
    EmitWithin(s, k, start, f, n, now);
    WithinAppend(s, ids, k, plan, Emit(start, f, k, now), first, n, f.next);
  }

  lemma PrefixSnoc<T>(xs: seq<T>, m: nat)
    requires 0 < m <= |xs| && NoRepeats(xs)
    ensures xs[..m] == xs[..m-1] + [xs[m-1]] && xs[m-1] !in xs[..m-1] && xs[m-1] in xs
  {}

  lemma {:induction false} PagePrefix(s: Store, page: seq<Record>, m: nat, now: Time, next: Id) returns (p: Progress)
    requires Consistent(s, next) && m <= |Identities(page)|
    ensures PageSoFar(s, page, Identities(page)[..m], now, next, p)
  {
    if m == 0 {
      NoGroups(s, page, now, next);
      p := Progress(s, NoMetrics, next);
    } else {
      IdentitiesDistinct(page);
      PrefixSnoc(Identities(page), m);
      var q := PagePrefix(s, page, m - 1, now, next);
      p := OneMoreGroup(s, page, Identities(page)[..m-1], now, next, q, Identities(page)[m-1]);
    }
  }

  // For every consistent store and every page: deciding the page and writing its plan succeeds, and
  // leaves the same rows, counts and next identifier as deciding and writing its records one by one,
  // in processing order.
  lemma PageEqualsRecordsAlone(s: Store, page: seq<Record>, now: Time, next: Id)
    requires Consistent(s, next)
    ensures RunPage(s, page, now, next).Some?
    ensures RunPage(s, page, now, next) == RunAlone(s, ProcessingOrder(page, Identities(page)), now, next)
    ensures Consistent(RunPage(s, page, now, next).value.store, RunPage(s, page, now, next).value.next)
  {
    var ids := Identities(page);
    var p := PagePrefix(s, page, |ids|, now, next);
    assert ids[..|ids|] == ids;
  }
}
