// What a decided page counts and writes, and what the order of its records does not change.
module Conservation {
  import opened Prelude
  import opened Transition
  import opened Batch
  import opened FoldInvariant
  import opened PageRefinement
  import opened Marks
  import opened ConcurrentPages
  import Sorting

  // ---------------------------------------------------------------- no record is lost or repeated

  function OneIf(c: bool, x: Record): multiset<Record> {
    if c then multiset{x} else multiset{}
  }

  lemma OneMoreSelected(page: seq<Record>, k: Identity)
    requires page != []
    ensures var x := page[|page|-1];
            multiset(Group(page, k)) == multiset(Group(page[..|page|-1], k)) + OneIf(x.identity == k, x)
  {
    GroupedRecords(page, k);
    GroupedRecords(page[..|page|-1], k);
  }

  lemma OrderSnoc(page: seq<Record>, ids: seq<Identity>)
    requires ids != []
    ensures multiset(ProcessingOrder(page, ids))
            == multiset(ProcessingOrder(page, ids[..|ids|-1])) + multiset(Group(page, ids[|ids|-1]))
  {}

  lemma AddOnce(a: multiset<Record>, b: multiset<Record>, c: bool, d: bool, x: Record)
    requires !(c && d)
    ensures (a + OneIf(c, x)) + (b + OneIf(d, x)) == (a + b) + OneIf(c || d, x)
  {}

  lemma OneMoreGroup(page: seq<Record>, ids: seq<Identity>, rest: multiset<Record>, before: bool)
    requires page != [] && ids != [] && !(before && page[|page|-1].identity == ids[|ids|-1])
    requires multiset(ProcessingOrder(page, ids[..|ids|-1])) == rest + OneIf(before, page[|page|-1])
    ensures var x, k := page[|page|-1], ids[|ids|-1];
            multiset(ProcessingOrder(page, ids)) ==
              rest + multiset(Group(page[..|page|-1], k)) + OneIf(before || x.identity == k, x)
  {
    var x, k := page[|page|-1], ids[|ids|-1];
    OneMoreSelected(page, k);
    OrderSnoc(page, ids);
    AddOnce(rest, multiset(Group(page[..|page|-1], k)), before, x.identity == k, x);
  }

  lemma LastIdentity(ids: seq<Identity>, i: Identity)
    requires ids != [] && NoRepeats(ids)
    ensures i in ids <==> i in ids[..|ids|-1] || i == ids[|ids|-1]
    ensures !(i in ids[..|ids|-1] && i == ids[|ids|-1]) && NoRepeats(ids[..|ids|-1])
  {
    assert ids == ids[..|ids|-1] + [ids[|ids|-1]];
  }

  lemma {:induction false} OneMoreRecordOrdered(page: seq<Record>, ids: seq<Identity>)
    requires page != [] && NoRepeats(ids)
    ensures var x := page[|page|-1];
            multiset(ProcessingOrder(page, ids))
            == multiset(ProcessingOrder(page[..|page|-1], ids)) + OneIf(x.identity in ids, x)
  {
    if ids != [] {
      var init, i, before := page[..|page|-1], page[|page|-1].identity, ids[..|ids|-1];
      LastIdentity(ids, i);
      OneMoreRecordOrdered(page, before);
      OneMoreGroup(page, ids, multiset(ProcessingOrder(init, before)), i in before);
      OrderSnoc(init, ids);
    }
  }

  lemma NewIdentityLast(page: seq<Record>)
    requires page != []
    ensures ProcessingOrder(page[..|page|-1], Identities(page)) ==
              ProcessingOrder(page[..|page|-1], Identities(page[..|page|-1]))
    ensures page[|page|-1].identity in Identities(page)
  {
    var init, x, ids := page[..|page|-1], page[|page|-1], Identities(page);
    if x.identity !in Identities(init) {
      assert ids[..|ids|-1] == Identities(init) && ids[|ids|-1] == x.identity;
      NotInPage(init, x.identity);
    }
  }

  lemma SnocMultiset(xs: seq<Record>)
    requires xs != []
    ensures multiset(xs) == multiset(xs[..|xs|-1]) + multiset{xs[|xs|-1]}
  {
    assert xs == xs[..|xs|-1] + [xs[|xs|-1]];
  }

  // Grouping and sorting a page keeps every record exactly as often as it came.
  lemma {:induction false} OrderedPage(page: seq<Record>)
    ensures multiset(ProcessingOrder(page, Identities(page))) == multiset(page)
  {
    if page == [] {
      assert ProcessingOrder(page, Identities(page)) == [];
    } else {
      var init, x := page[..|page|-1], page[|page|-1];
      OrderedPage(init);
      IdentitiesDistinct(page);
      OneMoreRecordOrdered(page, Identities(page));
      NewIdentityLast(page);
      SnocMultiset(page);
      assert OneIf(x.identity in Identities(page), x) == multiset{x};
    }
  }

  lemma SameCount(a: seq<Record>, b: seq<Record>)
    requires multiset(a) == multiset(b)
    ensures |a| == |b|
  {
    assert |a| == |multiset(a)| && |b| == |multiset(b)|;
  }

  // ---------------------------------------------------------------- one identity

  // One count per record; one version, change and event per NEW or CHANGED record; NEW at most once,
  // exactly when the identity is first seen.
  ghost predicate Counts(start: Option<Snapshot>, n: nat, f: Fold) {
    && f.added.metrics.added + f.added.metrics.moved + f.added.metrics.kept == n
    && |f.added.versions| == |f.added.changes| == |f.added.events| == f.added.metrics.added + f.added.metrics.moved
    && f.added.metrics.added == (if start.None? && n > 0 then 1 else 0)
    && (f.cur.None? <==> start.None? && n == 0)
  }

  // What one record counts and adds.
  lemma StepCounts(cur: Option<Snapshot>, next: Id, r: Record, now: Time)
    ensures var g := Step(cur, next, r, now);
            var m := g.added.metrics;
            && g.cur.Some? && m.added + m.moved + m.kept == 1 && m.added == (if cur.None? then 1 else 0)
            && |g.added.versions| == |g.added.changes| == |g.added.events| == m.added + m.moved
  {}

  lemma CountsThen(start: Option<Snapshot>, n: nat, f: Fold, g: Fold)
    requires Counts(start, n, f) && g.cur.Some?
    requires g.added.metrics.added + g.added.metrics.moved + g.added.metrics.kept == 1
    requires g.added.metrics.added == (if f.cur.None? then 1 else 0)
    requires |g.added.versions| == |g.added.changes| == |g.added.events| ==
               g.added.metrics.added + g.added.metrics.moved
    ensures Counts(start, n + 1, Then(f, g))
  {}

  lemma CountsStep(start: Option<Snapshot>, n: nat, f: Fold, g: Fold, r: Record, now: Time)
    requires Counts(start, n, f) && g == Apply(f, r, now)
    ensures Counts(start, n + 1, g)
  {
    StepCounts(f.cur, f.next, r, now);
    CountsThen(start, n, f, Step(f.cur, f.next, r, now));
  }

  lemma {:induction false} FoldCounts(start: Option<Snapshot>, first: Id, rs: seq<Record>, now: Time)
    ensures Counts(start, |rs|, ApplyAll(Begin(start, first), rs, now))
  {
    if rs != [] {
      var init := ApplyAll(Begin(start, first), rs[..|rs|-1], now);
      FoldCounts(start, first, rs[..|rs|-1], now);
      CountsStep(start, |rs| - 1, init, Apply(init, rs[|rs|-1], now), rs[|rs|-1], now);
    }
  }

  // ---------------------------------------------------------------- one page

  ghost predicate PlanCounts(p: Plan, records: nat, identities: nat) {
    && p.added.metrics.added + p.added.metrics.moved + p.added.metrics.kept == records
    && |p.products| == |p.sources| == p.added.metrics.added
    && |p.added.versions| == |p.added.changes| == |p.added.events| == p.added.metrics.added + p.added.metrics.moved
    && |p.moves| == |p.sourceChanges| <= p.added.metrics.moved
    && |p.fingerprints| <= |p.watermarks|
    && |p.products| + |p.moves| + |p.watermarks| <= identities
  }

  // An identity is written at most once: inserted when first seen, moved once when it got versions, its
  // watermarks raised once when it was only touched, and not at all when all its records were stale.
  lemma EmitCounts(start: Option<Snapshot>, f: Fold, k: Identity, first: Id, n: nat, now: Time)
    requires FoldInv(start, f, first) && Counts(start, n, f) && n > 0
    ensures PlanCounts(Emit(start, f, k, now), n, 1)
    ensures var p := Emit(start, f, k, now);
            && |p.products| + |p.moves| + |p.watermarks| == (if f.touched then 1 else 0)
            && (|p.products| == 1 <==> start.None?)
            && (|p.moves| == 1 <==> start.Some? && f.added.versions != [])
  {}

  lemma GroupCounts(snaps: map<Identity, Snapshot>, page: seq<Record>, k: Identity, now: Time, first: Id)
    requires k in Identities(page)
    ensures PlanCounts(Emit(StartOf(snaps, k), FoldOf(snaps, page, k, first, now), k, now), |Group(page, k)|, 1)
  {
    FoldOfGroup(snaps, page, k, first, now);
    GroupOfIdentity(page, k);
    FoldCounts(StartOf(snaps, k), first, Group(page, k), now);
    EmitCounts(StartOf(snaps, k), FoldOf(snaps, page, k, first, now), k, first, |Group(page, k)|, now);
  }

  lemma CountsAppend(a: Plan, b: Plan, m: nat, n: nat, i: nat, j: nat)
    requires PlanCounts(a, m, i) && PlanCounts(b, n, j)
    ensures PlanCounts(Append(a, b), m + n, i + j)
  {}

  lemma GroupsCountSnoc(snaps: map<Identity, Snapshot>, page: seq<Record>, ids: seq<Identity>, now: Time, first: Id)
    requires ids != [] && ids[|ids|-1] in Identities(page)
    requires var init := ids[..|ids|-1];
             PlanCounts(DecideGroups(snaps, page, init, now, first).0, |ProcessingOrder(page, init)|, |init|)
    ensures PlanCounts(DecideGroups(snaps, page, ids, now, first).0, |ProcessingOrder(page, ids)|, |ids|)
  {
    var init, k := ids[..|ids|-1], ids[|ids|-1];
    var (plan, n) := DecideGroups(snaps, page, init, now, first);
    DecideLast(snaps, page, ids, now, first);
    GroupCounts(snaps, page, k, now, n);
    CountsAppend(plan, Emit(StartOf(snaps, k), FoldOf(snaps, page, k, n, now), k, now),
                 |ProcessingOrder(page, init)|, |Group(page, k)|, |init|, 1);
    assert |ProcessingOrder(page, ids)| == |ProcessingOrder(page, init)| + |Group(page, k)|;
  }

  lemma {:induction false} GroupsCount(snaps: map<Identity, Snapshot>, page: seq<Record>, ids: seq<Identity>, now: Time,
                                       first: Id)
    requires Listed(page, ids)
    ensures PlanCounts(DecideGroups(snaps, page, ids, now, first).0, |ProcessingOrder(page, ids)|, |ids|)
  {
    if ids != [] {
      ListedInit(page, ids);
      GroupsCount(snaps, page, ids[..|ids|-1], now, first);
      GroupsCountSnoc(snaps, page, ids, now, first);
    }
  }

  // For every page and snapshots: each record is counted once as new, changed or unchanged; products
  // and sources are inserted once per new identity; versions, changes and events come one each per new or
  // changed record; no identity is written twice.
  lemma PageConserves(snaps: map<Identity, Snapshot>, page: seq<Record>, now: Time, first: Id)
    ensures PlanCounts(DecideBatch(snaps, page, now, first).0, |page|, |Identities(page)|)
  {
    AllListed(page);
    OrderedPage(page);
    SameCount(ProcessingOrder(page, Identities(page)), page);
    GroupsCount(snaps, page, Identities(page), now, first);
  }

  // ---------------------------------------------------------------- the order of the page does not matter

  ghost predicate DistinctRawIds(page: seq<Record>) {
    forall i, j | 0 <= i < j < |page| :: page[i].rawId != page[j].rawId
  }

  lemma RawIdsSeparate(page: seq<Record>, k: Identity)
    requires DistinctRawIds(page)
    ensures Sorting.Separates(NotAfter, multiset(Group(page, k)))
  {
    var m := multiset(Group(page, k));
    forall x, y | x in m && y in m && NotAfter(x, y) && NotAfter(y, x) ensures x == y {
      GroupedIn(page, k, x);
      GroupedIn(page, k, y);
      TiedIsSame(page, x, y);
    }
  }

  lemma GroupedIn(page: seq<Record>, k: Identity, r: Record)
    requires r in multiset(Group(page, k))
    ensures r in page
  {
    GroupedRecords(page, k);
    assert r in Group(page, k);
  }

  lemma TiedIsSame(page: seq<Record>, x: Record, y: Record)
    requires DistinctRawIds(page) && x in page && y in page && NotAfter(x, y) && NotAfter(y, x)
    ensures x == y
  {
    var i :| 0 <= i < |page| && page[i] == x;
    var j :| 0 <= j < |page| && page[j] == y;
    assert x.rawId == y.rawId;
  }

  lemma {:induction false} SelectCounts(page: seq<Record>, k: Identity, r: Record)
    ensures multiset(Select(page, k))[r] == if r.identity == k then multiset(page)[r] else 0
  {
    if page != [] {
      SelectCounts(page[..|page|-1], k, r);
      assert page == page[..|page|-1] + [page[|page|-1]];
    }
  }

  lemma SameSelection(a: seq<Record>, b: seq<Record>, k: Identity)
    requires multiset(a) == multiset(b)
    ensures multiset(Select(a, k)) == multiset(Select(b, k))
  {
    forall r ensures multiset(Select(a, k))[r] == multiset(Select(b, k))[r] {
      SelectCounts(a, k, r);
      SelectCounts(b, k, r);
    }
  }

  // A page whose raw records are distinct folds every identity in one order, however it is permuted.
  lemma PermutedGroups(a: seq<Record>, b: seq<Record>, k: Identity)
    requires multiset(a) == multiset(b) && DistinctRawIds(a)
    ensures Group(a, k) == Group(b, k)
  {
    GroupedRecords(a, k);
    GroupedRecords(b, k);
    SameSelection(a, b, k);
    RawIdsSeparate(a, k);
    Sorting.OrderedPermutationUnique(Group(a, k), Group(b, k), NotAfter);
  }

  // Equal but for the identifiers given to new rows.
  predicate SameVersionRow(a: Version, b: Version) {
    a.(id := b.id, productId := b.productId) == b
  }

  predicate SameChangeRow(a: Change, b: Change) {
    a.kind == b.kind && a.fields == b.fields && a.runId == b.runId && a.rawId == b.rawId && a.detectedAt == b.detectedAt
  }

  predicate SameEventRow(a: Event, b: Event) {
    a.versionNumber == b.versionNumber && a.fingerprint == b.fingerprint && a.kind == b.kind && a.fields == b.fields
  }

  predicate SameCurrent(a: Option<Snapshot>, b: Option<Snapshot>) {
    && MarkOf(a) == MarkOf(b)
    && (a.Some? && b.Some? ==>
          && a.value.storedVersion.Some? == b.value.storedVersion.Some?
          && (a.value.storedVersion.Some? ==> SameVersionRow(a.value.storedVersion.value, b.value.storedVersion.value)))
  }

  ghost predicate SameUpToIds(f: Fold, g: Fold) {
    && SameCurrent(f.cur, g.cur) && f.touched == g.touched && f.added.metrics == g.added.metrics
    && |f.added.versions| == |g.added.versions| && |f.added.changes| == |g.added.changes|
    && |f.added.events| == |g.added.events|
    && (forall i | 0 <= i < |f.added.versions| :: SameVersionRow(f.added.versions[i], g.added.versions[i]))
    && (forall i | 0 <= i < |f.added.changes| :: SameChangeRow(f.added.changes[i], g.added.changes[i]))
    && (forall i | 0 <= i < |f.added.events| :: SameEventRow(f.added.events[i], g.added.events[i]))
  }

  lemma SameTransition(a: Option<Snapshot>, b: Option<Snapshot>, r: Record)
    requires SameCurrent(a, b)
    ensures DecideTransition(a, r) == DecideTransition(b, r)
  {}

  lemma SameStep(a: Option<Snapshot>, n: Id, b: Option<Snapshot>, m: Id, r: Record, now: Time)
    requires SameCurrent(a, b)
    ensures SameUpToIds(Step(a, n, r, now), Step(b, m, r, now))
  {
    SameTransition(a, b, r);
  }

  lemma SameThen(f: Fold, g: Fold, f': Fold, g': Fold)
    requires SameUpToIds(f, g) && SameUpToIds(f', g')
    ensures SameUpToIds(Then(f, f'), Then(g, g'))
  {}

  lemma {:induction false} SameFold(start: Option<Snapshot>, n: Id, m: Id, rs: seq<Record>, now: Time)
    ensures SameUpToIds(ApplyAll(Begin(start, n), rs, now), ApplyAll(Begin(start, m), rs, now))
  {
    if rs != [] {
      SameFold(start, n, m, rs[..|rs|-1], now);
      var f, g := ApplyAll(Begin(start, n), rs[..|rs|-1], now), ApplyAll(Begin(start, m), rs[..|rs|-1], now);
      SameStep(f.cur, f.next, g.cur, g.next, rs[|rs|-1], now);
      SameThen(f, g, Step(f.cur, f.next, rs[|rs|-1], now), Step(g.cur, g.next, rs[|rs|-1], now));
    }
  }

  // Permuting a page of distinct raw records gives every identity the same transitions, versions,
  // change rows and events, whatever identifiers are handed out.
  lemma PermutedPageFoldsAlike(snaps: map<Identity, Snapshot>, a: seq<Record>, b: seq<Record>, k: Identity, n: Id,
                               m: Id, now: Time)
    requires multiset(a) == multiset(b) && DistinctRawIds(a)
    ensures SameUpToIds(FoldOf(snaps, a, k, n, now), FoldOf(snaps, b, k, m, now))
  {
    PermutedGroups(a, b, k);
    SameFold(StartOf(snaps, k), n, m, Group(a, k), now);
  }
}
