// What holds of one identity's running state after any of its records.
module FoldInvariant {
  import opened Prelude
  import opened Transition
  import opened Batch

  function BaseNumber(start: Option<Snapshot>): nat {
    if start.Some? && start.value.storedVersion.Some? then start.value.storedVersion.value.number else 0
  }

  // The version, change and event rows a fold has added: one of each per version, with fresh
  // identifiers and consecutive numbers.
  ghost predicate Rows(base: nat, product: Id, a: Added, first: Id, next: Id) {
    && |a.versions| == |a.changes| == |a.events|
    && (forall i | 0 <= i < |a.versions| ::
          && first <= a.versions[i].id && a.versions[i].id + 3 <= next
          && a.versions[i].productId == product
          && a.versions[i].number == base + 1 + i
          && a.changes[i].id == a.versions[i].id + 1 && a.changes[i].toVersionId == a.versions[i].id
          && a.events[i].id == a.versions[i].id + 2)
    && (forall i, j | 0 <= i < j < |a.versions| :: a.versions[i].id + 3 <= a.versions[j].id)
  }

  // The snapshot points at the last version added.
  ghost predicate AtLastVersion(f: Fold) {
    f.added.versions != [] && f.cur.Some? && f.touched
    && f.cur.value.storedVersion == Some(f.added.versions[|f.added.versions|-1])
    && f.cur.value.currentVersionId == Some(f.added.versions[|f.added.versions|-1].id)
  }

  // Identifiers stay, watermarks only rise.
  ghost predicate Advances(start: Snapshot, cur: Snapshot) {
    && cur.productId == start.productId
    && cur.productSourceId == start.productSourceId
    && Greatest(start.lastSourceUpdatedAt, cur.lastSourceUpdatedAt) == cur.lastSourceUpdatedAt
    && start.lastReceivedAt <= cur.lastReceivedAt
  }

  // Without a new version, only a fingerprint of an older algorithm may have been replaced.
  ghost predicate SameVersion(start: Snapshot, cur: Snapshot) {
    && cur.storedVersion == start.storedVersion
    && cur.currentVersionId == start.currentVersionId
    && (cur.currentFingerprint == start.currentFingerprint
        || (start.currentFingerprint.Legacy? && cur.currentFingerprint.V1?))
  }

  ghost predicate StateInv(start: Option<Snapshot>, f: Fold, first: Id) {
    && first <= f.next
    && (f.added.versions != [] ==> AtLastVersion(f))
    && (f.cur.None? ==> start.None? && f.added.versions == [] && !f.touched && f.next == first)
    && (start.None? && f.cur.Some? ==>
          && f.added.versions != []
          && first <= f.cur.value.productId && f.cur.value.productSourceId == f.cur.value.productId + 1
          && f.cur.value.productSourceId < f.added.versions[0].id)
    && (start.Some? ==> f.cur.Some? && Advances(start.value, f.cur.value))
    && (start.Some? && f.added.versions == [] ==> f.next == first && SameVersion(start.value, f.cur.value))
    && (start.Some? && !f.touched ==> f.cur == start)
  }

  ghost predicate FoldInv(start: Option<Snapshot>, f: Fold, first: Id) {
    && StateInv(start, f, first)
    && Rows(BaseNumber(start), if f.cur.Some? then f.cur.value.productId else 0, f.added, first, f.next)
  }

  lemma BeginFold(start: Option<Snapshot>, first: Id)
    ensures FoldInv(start, Begin(start, first), first)
  {}

  lemma AddVersionRows(f: Fold, base: nat, first: Id, cur: Snapshot, id: Id, r: Record, kind: ChangeType,
                       fields: seq<Field>, now: Time)
    requires Rows(base, cur.productId, f.added, first, f.next) && first <= f.next <= id
    requires NextNumber(cur) == base + 1 + |f.added.versions|
    ensures var g := AddVersion(cur, id, r, kind, fields, now);
            Rows(base, cur.productId, Both(f.added, g.added), first, g.next)
  {
    var g := AddVersion(cur, id, r, kind, fields, now);
    var a, n := Both(f.added, g.added), |f.added.versions|;
    assert a.versions[n] == g.added.versions[0] && a.changes[n] == g.added.changes[0]
           && a.events[n] == g.added.events[0];
    assert forall i | 0 <= i < n ::
        a.versions[i] == f.added.versions[i] && a.changes[i] == f.added.changes[i] && a.events[i] == f.added.events[i];
  }

  lemma VersionStep(start: Option<Snapshot>, f: Fold, first: Id, r: Record, kind: ChangeType, fields: seq<Field>,
                    now: Time)
    requires FoldInv(start, f, first)
    ensures FoldInv(start, Then(f, AddVersion(Known(f.cur, r, f.next), VersionId(f.cur, f.next), r, kind, fields, now)),
                    first)
  {
    var cur, id := Known(f.cur, r, f.next), VersionId(f.cur, f.next);
    AddVersionRows(f, BaseNumber(start), first, cur, id, r, kind, fields, now);
    var g := AddVersion(cur, id, r, kind, fields, now);
    var f' := Then(f, g);
    var vs := f'.added.versions;
    assert vs[|vs|-1] == g.added.versions[0];
    assert f.added.versions != [] ==> vs[0] == f.added.versions[0];
  }

  lemma BothCounted(a: Added, m: Metrics)
    ensures Both(a, Added([], [], [], m)) == Added(a.versions, a.changes, a.events, AddMetrics(a.metrics, m))
  {
    assert a.versions + [] == a.versions;
    assert a.changes + [] == a.changes;
    assert a.events + [] == a.events;
  }

  lemma NothingFirst(a: Added)
    ensures Both(NothingAdded, a) == a
  {
    assert [] + a.versions == a.versions;
    assert [] + a.changes == a.changes;
    assert [] + a.events == a.events;
  }

  lemma AdvancesTransitive(a: Snapshot, b: Snapshot, c: Snapshot)
    requires Advances(a, b) && Advances(b, c)
    ensures Advances(a, c)
  {}

  lemma KeptStep(start: Option<Snapshot>, f: Fold, first: Id, cur: Option<Snapshot>, touched: bool)
    requires FoldInv(start, f, first)
    requires cur.Some? == f.cur.Some? && (touched ==> cur.Some?)
    requires cur.Some? ==>
      && cur.value.storedVersion == f.cur.value.storedVersion
      && cur.value.currentVersionId == f.cur.value.currentVersionId
      && Advances(f.cur.value, cur.value)
      && (cur.value.currentFingerprint == f.cur.value.currentFingerprint
          || (f.cur.value.currentFingerprint.Legacy? && cur.value.currentFingerprint.V1?))
    requires !touched ==> cur == f.cur
    ensures FoldInv(start, Then(f, Kept(cur, touched, f.next)), first)
  {
    BothCounted(f.added, Metrics(0, 0, 1));
    if start.Some? {
      AdvancesTransitive(start.value, f.cur.value, cur.value);
    }
  }

  lemma MismatchStep(start: Option<Snapshot>, f: Fold, first: Id, r: Record, now: Time)
    requires FoldInv(start, f, first) && DecideTransition(f.cur, r).VersionMismatch?
    ensures FoldInv(start, Apply(f, r, now), first)
  {
    KeptStep(start, f, first, Some(Touched(f.cur.value.(currentFingerprint := r.fingerprint), r)), true);
  }

  lemma UnchangedStep(start: Option<Snapshot>, f: Fold, first: Id, r: Record, now: Time)
    requires FoldInv(start, f, first) && DecideTransition(f.cur, r).Unchanged?
    ensures FoldInv(start, Apply(f, r, now), first)
  {
    KeptStep(start, f, first, Some(Touched(f.cur.value, r)), true);
  }

  lemma AddsStep(start: Option<Snapshot>, f: Fold, first: Id, r: Record, now: Time)
    requires FoldInv(start, f, first) && (DecideTransition(f.cur, r).New? || DecideTransition(f.cur, r).Changed?)
    ensures FoldInv(start, Apply(f, r, now), first)
  {
    match DecideTransition(f.cur, r)
    case New => VersionStep(start, f, first, r, ChangeNew, [], now);
    case Changed(fields) => VersionStep(start, f, first, r, ChangeChanged, fields, now);
  }

  lemma FoldStep(start: Option<Snapshot>, f: Fold, first: Id, r: Record, now: Time)
    requires FoldInv(start, f, first)
    ensures FoldInv(start, Apply(f, r, now), first)
    ensures Apply(f, r, now).cur.Some?
  {
    match DecideTransition(f.cur, r)
    case New => AddsStep(start, f, first, r, now);
    case Changed(_) => AddsStep(start, f, first, r, now);
    case Stale => KeptStep(start, f, first, f.cur, false);
    case VersionMismatch => MismatchStep(start, f, first, r, now);
    case Unchanged => UnchangedStep(start, f, first, r, now);
  }

  lemma {:induction false} FoldAll(start: Option<Snapshot>, first: Id, rs: seq<Record>, now: Time)
    ensures FoldInv(start, ApplyAll(Begin(start, first), rs, now), first)
    ensures rs != [] ==> ApplyAll(Begin(start, first), rs, now).cur.Some?
  {
    if rs == [] {
      BeginFold(start, first);
    } else {
      FoldAll(start, first, rs[..|rs|-1], now);
      FoldStep(start, ApplyAll(Begin(start, first), rs[..|rs|-1], now), first, rs[|rs|-1], now);
    }
  }

  lemma OneApplied(f: Fold, r: Record, now: Time)
    ensures ApplyAll(f, [r], now) == Apply(f, r, now)
  {
    var rs := [r];
    assert rs[..|rs|-1] == [] && rs[|rs|-1] == r;
    NoneApplied(f, now);
  }

  lemma NoneApplied(f: Fold, now: Time)
    ensures ApplyAll(f, [], now) == f
  {}

  // One record folded alone, from any state.
  lemma StepAlone(start: Option<Snapshot>, next: Id, r: Record, now: Time)
    ensures ApplyAll(Begin(start, next), [r], now) == Step(start, next, r, now)
    ensures FoldInv(start, Step(start, next, r, now), next)
  {
    OneApplied(Begin(start, next), r, now);
    BeginIsNothing(start, next, r, now);
    BeginFold(start, next);
    FoldStep(start, Begin(start, next), next, r, now);
  }

  lemma BeginIsNothing(start: Option<Snapshot>, next: Id, r: Record, now: Time)
    ensures Apply(Begin(start, next), r, now) == Step(start, next, r, now)
  {
    NothingFirst(Step(start, next, r, now).added);
  }
}
