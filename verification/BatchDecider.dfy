// The decider of internal/domain/product/batch.go in its own form: a fold object that moves a running
// snapshot and appends to the page's plan, and the loops that group a page and fold its groups.
module BatchDecider {
  import opened Prelude
  import opened Transition
  import opened Batch
  import opened FoldInvariant
  import opened PageRefinement
  import Marks
  import Sorting

  // Go's zero time, which stands for "not set".
  const ZERO_TIME: Time := 0

  // Hands out identifiers never handed out before.
  class IdSupply {
    var next: Id

    constructor (first: Id)
      ensures next == first
    {
      next := first;
    }

    method Take(n: nat) returns (first: Id)
      modifies this
      ensures first == old(next) && next == old(next) + n
    {
      first := next;
      next := next + n;
    }
  }

  class BatchPlan {
    var products: seq<ProductRow>
    var sources: seq<SourceRow>
    var versions: seq<Version>
    var changes: seq<Change>
    var events: seq<Event>
    var moves: seq<ProductMove>
    var fingerprints: seq<FingerprintMove>
    var watermarks: seq<Watermark>
    var sourceChanges: seq<SourceChanged>
    const seen: nat
    var added: nat
    var moved: nat
    var kept: nat

    constructor (seen: nat)
      ensures Value() == EmptyPlan && this.seen == seen
    {
      products, sources, versions, changes, events := [], [], [], [], [];
      moves, fingerprints, watermarks, sourceChanges := [], [], [], [];
      this.seen := seen;
      added, moved, kept := 0, 0, 0;
    }

    function Value(): Plan
      reads this
    {
      Plan(Added(versions, changes, events, Metrics(added, moved, kept)),
           products, sources, moves, fingerprints, watermarks, sourceChanges)
    }
  }

  lemma AppendAdded(base: Plan, a: Added, b: Added)
    ensures Both(base.added, Both(a, b)) == Both(Both(base.added, a), b)
  {
    assert base.added.versions + (a.versions + b.versions) == (base.added.versions + a.versions) + b.versions;
    assert base.added.changes + (a.changes + b.changes) == (base.added.changes + a.changes) + b.changes;
    assert base.added.events + (a.events + b.events) == (base.added.events + a.events) + b.events;
  }

  lemma AddedNothing(a: Added)
    ensures Both(a, NothingAdded) == a
  {
    assert a.versions + [] == a.versions && a.changes + [] == a.changes && a.events + [] == a.events;
  }

  class IdentityFold {
    const plan: BatchPlan
    const ids: IdSupply
    const identity: Identity
    const start: Option<Snapshot>
    const now: Time
    var cur: Option<Snapshot>
    var versioned: bool
    var touched: bool
    // the plan before this identity, and what folding it means
    ghost const base: Plan
    ghost var fold: Fold

    constructor (plan: BatchPlan, ids: IdSupply, identity: Identity, start: Option<Snapshot>, now: Time)
      ensures Valid() && fold == Begin(start, ids.next)
      ensures this.plan == plan && this.ids == ids && this.identity == identity && this.start == start
              && this.now == now
      ensures base == plan.Value()
    {
      this.plan, this.ids, this.identity, this.start, this.now := plan, ids, identity, start, now;
      cur, versioned, touched := start, false, false;
      base, fold := plan.Value(), Begin(start, ids.next);
      AddedNothing(plan.Value().added);
    }

    // The fields are the running fold, and the plan is the earlier one with the fold's rows appended.
    ghost predicate Valid()
      reads this, plan, ids
    {
      && cur == fold.cur && versioned == (fold.added.versions != []) && touched == fold.touched
      && ids.next == fold.next
      && plan.Value() == base.(added := Both(base.added, fold.added))
    }

    method AddVersion(r: Record, isNew: bool, fields: seq<Field>)
      requires isNew ==> fields == []
      modifies this`cur, this`versioned, ids, plan`versions, plan`changes, plan`events, plan`added, plan`moved
      ensures var c, id := Known(old(cur), r, old(ids.next)), VersionId(old(cur), old(ids.next));
              var kind := if isNew then ChangeNew else ChangeChanged;
              && cur == Some(AtVersion(c, NewVersion(c, id, r, now))) && versioned && ids.next == id + 3
              && plan.versions == old(plan.versions) + [NewVersion(c, id, r, now)]
              && plan.changes == old(plan.changes) + [NewChange(c, id, r, kind, fields, now)]
              && plan.events == old(plan.events) + [NewEvent(c, id, r, kind, fields)]
      ensures plan.added == old(plan.added) + (if isNew then 1 else 0)
              && plan.moved == old(plan.moved) + (if isNew then 0 else 1)
    {
      if cur.None? {
        var known := ids.Take(2);
        cur := Some(Snapshot(known + 1, known, None, Legacy(""), None, r.receivedAt, None));
      }
      var id := ids.Take(3);
      var kind := if isNew then ChangeNew else ChangeChanged;
      var number := 1;
      if cur.value.storedVersion.Some? {
        number := cur.value.storedVersion.value.number + 1;
      }
      var version := Version(id, cur.value.productId, number, r.fingerprint, r.content, r.runId, now);
      var change := Change(id + 1, cur.value.productId, cur.value.currentVersionId, id, kind, fields, r.runId, r.rawId,
                           now);
      plan.versions := plan.versions + [version];
      plan.changes := plan.changes + [change];
      plan.events := plan.events
        + [Event(id + 2, version.productId, version.id, version.number, version.fingerprint, kind, fields)];
      if isNew {
        plan.added := plan.added + 1;
      } else {
        plan.moved := plan.moved + 1;
      }
      cur := Some(cur.value.(currentVersionId := Some(version.id), currentFingerprint := version.fingerprint,
                             storedVersion := Some(version)));
      versioned := true;
    }

    // The transition itself: what it appends to the plan and where it moves the snapshot, before a
    // record that was not stale raises the watermarks.
    method Transit(r: Record) returns (stale: bool)
      modifies this`cur, this`versioned, ids, plan
      ensures var g := Step(old(cur), old(ids.next), r, now);
              && plan.Value() == old(plan.Value()).(added := Both(old(plan.Value()).added, g.added))
              && ids.next == g.next && stale == !g.touched
              && versioned == (old(versioned) || g.added.versions != [])
              && (stale ==> cur == g.cur) && (!stale ==> cur.Some? && g.cur == Some(Touched(cur.value, r)))
    {
      BothCounted(plan.Value().added, Metrics(0, 0, 1));
      var transition := DecideTransition(cur, r);
      stale := false;
      match transition {
        case Stale =>
          plan.kept := plan.kept + 1;
          stale := true;
        case New => AddVersion(r, true, []);
        case Changed(fields) => AddVersion(r, false, fields);
        case VersionMismatch =>
          cur := Some(cur.value.(currentFingerprint := r.fingerprint));
          plan.kept := plan.kept + 1;
        case Unchanged => plan.kept := plan.kept + 1;
      }
    }

    method Apply(r: Record)
      requires Valid()
      modifies this, plan, ids
      ensures Valid() && fold == Batch.Apply(old(fold), r, now)
    {
      AppendAdded(base, fold.added, Step(fold.cur, fold.next, r, now).added);
      var stale := Transit(r);
      fold := Batch.Apply(fold, r, now);
      if stale {
        return;
      }
      cur := Some(cur.value.(lastSourceUpdatedAt := Greatest(cur.value.lastSourceUpdatedAt, r.sourceUpdatedAt),
                             lastReceivedAt := Max(cur.value.lastReceivedAt, r.receivedAt)));
      touched := true;
    }

    // Writes the identity's final state: an insert, the guarded updates, or nothing.
    method Emit()
      requires Valid() && cur.Some?
      requires start.None? || versioned ==> cur.value.storedVersion.Some?
      modifies plan
      ensures plan.Value() == Append(base, Batch.Emit(start, fold, identity, now))
    {
      ghost var b := Batch.Emit(start, fold, identity, now);
      NothingAppended(base);
      if start.None? {
        EmitInsert();
      } else if versioned {
        EmitVersionUpdate();
      } else if touched {
        if cur.value.currentFingerprint != start.value.currentFingerprint {
          plan.fingerprints := plan.fingerprints +
            [FingerprintMove(cur.value.productId, start.value.currentVersionId, cur.value.currentFingerprint, now)];
        }
        plan.watermarks := plan.watermarks +
          [Watermark(cur.value.productSourceId, cur.value.lastSourceUpdatedAt, cur.value.lastReceivedAt)];
      }
    }

    method EmitInsert()
      requires cur.Some? && cur.value.storedVersion.Some?
      modifies plan`products, plan`sources
      ensures plan.products == old(plan.products) + [InsertedProduct(cur.value, cur.value.storedVersion.value, now)]
      ensures plan.sources == old(plan.sources) + [InsertedSource(cur.value, identity, now)]
    {
      var c := cur.value;
      var v := c.storedVersion.value;
      plan.products := plan.products
        + [ProductRow(c.productId, DisplayOf(v.content), c.currentVersionId, c.currentFingerprint, now, now)];
      plan.sources := plan.sources +
        [SourceRow(c.productSourceId, c.productId, identity, now, now, c.lastSourceUpdatedAt, c.lastReceivedAt)];
    }

    method EmitVersionUpdate()
      requires start.Some? && cur.Some? && cur.value.storedVersion.Some?
      modifies plan`moves, plan`sourceChanges
      ensures plan.moves == old(plan.moves) + [MoveTo(start.value, cur.value, cur.value.storedVersion.value, now)]
      ensures plan.sourceChanges == old(plan.sourceChanges)
              + [SourceChanged(cur.value.productSourceId, now, cur.value.lastSourceUpdatedAt, cur.value.lastReceivedAt)]
    {
      var c := cur.value;
      var v := c.storedVersion.value;
      plan.moves := plan.moves +
        [ProductMove(c.productId, start.value.currentVersionId, v.id, c.currentFingerprint, DisplayOf(v.content), now)];
      plan.sourceChanges := plan.sourceChanges
        + [SourceChanged(c.productSourceId, now, c.lastSourceUpdatedAt, c.lastReceivedAt)];
    }
  }

  lemma NothingAppended(p: Plan)
    ensures p.products + [] == p.products && p.sources + [] == p.sources && p.moves + [] == p.moves
    ensures p.fingerprints + [] == p.fingerprints && p.watermarks + [] == p.watermarks
            && p.sourceChanges + [] == p.sourceChanges
  {}

  // ---------------------------------------------------------------- grouping

  datatype IdentityGroup = IdentityGroup(identity: Identity, records: seq<Record>)

  // The groups after the first n records: one per identity in first-seen order, found through the index.
  ghost predicate Grouped(page: seq<Record>, n: nat, groups: seq<IdentityGroup>, index: map<Identity, nat>)
    requires n <= |page|
  {
    && |groups| == |Identities(page[..n])|
    && (forall i | 0 <= i < |groups| ::
          groups[i].identity == Identities(page[..n])[i] && groups[i].records == Select(page[..n], groups[i].identity))
    && (forall k :: k in index <==> k in Identities(page[..n]))
    && (forall k | k in index :: index[k] < |groups| && groups[index[k]].identity == k)
  }

  lemma GroupOneMore(page: seq<Record>, n: nat, groups: seq<IdentityGroup>, index: map<Identity, nat>, i: nat)
    requires n < |page| && Grouped(page, n, groups, index)
    requires var k := page[n].identity; if k in index then i == index[k] else i == |groups|
    ensures var k := page[n].identity;
            var gs := if k in index then groups else groups + [IdentityGroup(k, [])];
            && i < |gs|
            && Grouped(page, n + 1, gs[i := gs[i].(records := gs[i].records + [page[n]])], index[k := i])
  {
    assert page[..n+1][..n] == page[..n] && page[..n+1][n] == page[n];
    IdentitiesDistinct(page[..n]);
    var k := page[n].identity;
    if k !in index { Marks.NotInPage(page[..n], k); }
  }

  method GroupByIdentity(records: seq<Record>) returns (groups: seq<IdentityGroup>)
    ensures |groups| == |Identities(records)|
    ensures forall i | 0 <= i < |groups| ::
              groups[i] == IdentityGroup(Identities(records)[i], Group(records, Identities(records)[i]))
  {
    var index: map<Identity, nat> := map[];
    groups := [];
    for n := 0 to |records|
      invariant Grouped(records, n, groups, index)
    {
      var r := records[n];
      GroupOneMore(records, n, groups, index, if r.identity in index then index[r.identity] else |groups|);
      var i: nat;
      if r.identity in index {
        i := index[r.identity];
      } else {
        i := |groups|;
        groups := groups + [IdentityGroup(r.identity, [])];
      }
      index := index[r.identity := i];
      groups := groups[i := groups[i].(records := groups[i].records + [r])];
    }
    assert records[..|records|] == records;
    for i := 0 to |groups|
      invariant |groups| == |Identities(records)|
      invariant forall j | 0 <= j < |groups| :: groups[j].identity == Identities(records)[j]
      invariant forall j | i <= j < |groups| :: groups[j].records == Select(records, groups[j].identity)
      invariant forall j | 0 <= j < i :: groups[j].records == Group(records, groups[j].identity)
    {
      groups := groups[i := groups[i].(records := Sorting.StableSort(groups[i].records, NotAfter))];
    }
  }

  // ---------------------------------------------------------------- deciding

  // Folds one group's records and writes what they come to.
  method FoldGroup(plan: BatchPlan, ids: IdSupply, group: IdentityGroup, start: Option<Snapshot>, now: Time)
    requires group.records != []
    modifies plan, ids
    ensures var (p, n) := DecideGroup(start, group.identity, group.records, now, old(ids.next));
            plan.Value() == Append(old(plan.Value()), p) && ids.next == n
  {
    var fold := new IdentityFold(plan, ids, group.identity, start, now);
    ghost var first, rs := ids.next, group.records;
    for i := 0 to |group.records|
      invariant fold.Valid() && fold.fold == ApplyAll(Begin(start, first), rs[..i], now)
    {
      assert rs[..i+1][..i] == rs[..i];
      fold.Apply(group.records[i]);
    }
    assert rs[..|rs|] == rs;
    FoldAll(start, first, rs, now);
    fold.Emit();
  }

  lemma DecideNext(snaps: map<Identity, Snapshot>, page: seq<Record>, m: nat, now: Time, first: Id)
    requires m < |Identities(page)|
    ensures var ids, k := Identities(page), Identities(page)[m];
            var (plan, n) := DecideGroups(snaps, page, ids[..m], now, first);
            var (p, n') := DecideGroup(StartOf(snaps, k), k, Group(page, k), now, n);
            DecideGroups(snaps, page, ids[..m+1], now, first) == (Append(plan, p), n')
    ensures Group(page, Identities(page)[m]) != []
  {
    var ids := Identities(page);
    assert ids[..m+1][..m] == ids[..m];
    GroupOfIdentity(page, ids[m]);
  }

  // No plan when `now` is not set; otherwise the plan that the page's snapshots and records determine.
  method DecideBatch(ids: IdSupply, snapshots: map<Identity, Snapshot>, incoming: seq<Record>, now: Time)
    returns (plan: BatchPlan?)
    modifies ids
    ensures plan == null <==> now == ZERO_TIME
    ensures plan == null ==> ids.next == old(ids.next)
    ensures plan != null ==>
      && fresh(plan) && plan.seen == |incoming|
      && (plan.Value(), ids.next) == Batch.DecideBatch(snapshots, incoming, now, old(ids.next))
  {
    if now == ZERO_TIME {
      return null;
    }
    plan := new BatchPlan(|incoming|);
    var groups := GroupByIdentity(incoming);
    ghost var first := ids.next;
    for i := 0 to |groups|
      invariant fresh(plan) && plan.seen == |incoming|
      invariant (plan.Value(), ids.next) == DecideGroups(snapshots, incoming, Identities(incoming)[..i], now, first)
    {
      DecideNext(snapshots, incoming, i, now, first);
      var start := if groups[i].identity in snapshots then Some(snapshots[groups[i].identity]) else None;
      FoldGroup(plan, ids, groups[i], start, now);
    }
    assert Identities(incoming)[..|groups|] == Identities(incoming);
  }
}
