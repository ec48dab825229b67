// That a version stands for a change of content: which records write one, and that no CHANGED row of any
// reachable state lists nothing.
module RealChanges {
  import opened Prelude
  import opened Transition
  import opened Batch
  import opened ProductStore
  import opened FoldInvariant
  import opened GroupWrite
  import opened PageRefinement
  import opened VersionChain
  import opened ConcurrentPages
  import opened Marks
  import opened StalePages
  import opened ChangeRecords

  // The fingerprint stands for the content's canonical form, or an older algorithm wrote it.
  predicate Matches(fp: Fingerprint, c: Content) {
    fp.V1? ==> fp == V1(c.canonical)
  }

  predicate Genuine(r: Record) {
    Matches(r.fingerprint, r.content)
  }

  predicate SnapMatches(start: Option<Snapshot>) {
    start.Some? ==>
      && start.value.storedVersion.Some?
      && Matches(start.value.currentFingerprint, start.value.storedVersion.value.content)
  }

  // ---------------------------------------------------------------- one record

  // The source dates the record before the last one it dated, or cannot tell them apart and it was received
  // before the last one.
  predicate Overtaken(c: Snapshot, r: Record) {
    if r.sourceUpdatedAt.Some? && c.lastSourceUpdatedAt.Some? && r.sourceUpdatedAt != c.lastSourceUpdatedAt
    then r.sourceUpdatedAt.value < c.lastSourceUpdatedAt.value
    else r.receivedAt < c.lastReceivedAt
  }

  // A record of the current algorithm writes a version exactly when it is not overtaken and its canonical
  // content is not the stored one, whatever algorithm wrote the stored fingerprint; every record is counted
  // once, and none but overtaken ones leaves the snapshot without its fingerprint.
  lemma VersionIffContentChanged(c: Snapshot, next: Id, r: Record, now: Time)
    requires SnapMatches(Some(c)) && r.fingerprint == V1(r.content.canonical)
    ensures var g := Step(Some(c), next, r, now);
            var writes := !Overtaken(c, r) && r.content.canonical != c.storedVersion.value.content.canonical;
            && |g.added.versions| == (if writes then 1 else 0)
            && g.added.metrics == (if writes then Metrics(0, 1, 0) else Metrics(0, 0, 1))
            && g.touched == !Overtaken(c, r)
            && (Overtaken(c, r) ==> g.cur == Some(c))
            && (!Overtaken(c, r) ==> g.cur.Some? && g.cur.value.currentFingerprint == r.fingerprint)
  {}

  // The change row of a version of the current algorithm lists a field.
  predicate RealRow(v: Version, c: Change) {
    c.kind.ChangeChanged? && v.fingerprint.V1? ==> c.fields != []
  }

  ghost predicate RealRows(a: Added) {
    |a.versions| == |a.changes| && forall i | 0 <= i < |a.versions| :: RealRow(a.versions[i], a.changes[i])
  }

  lemma StepIsReal(cur: Option<Snapshot>, next: Id, r: Record, now: Time)
    requires SnapMatches(cur) && Genuine(r)
    ensures var g := Step(cur, next, r, now); g.cur.Some? && SnapMatches(g.cur) && RealRows(g.added)
  {
    if cur.Some? {
      NoFieldChangesIffSameFingerprint(cur.value.storedVersion.value.content.canonical, r.content.canonical);
    }
  }

  lemma RealSnoc(a: Added, b: Added)
    requires RealRows(a) && RealRows(b)
    ensures RealRows(Both(a, b))
  {
    var c, n := Both(a, b), |a.versions|;
    forall i | 0 <= i < |c.versions| ensures RealRow(c.versions[i], c.changes[i]) {
      if i < n {
        assert RealRow(a.versions[i], a.changes[i]);
      } else {
        assert RealRow(b.versions[i-n], b.changes[i-n]);
      }
    }
  }

  lemma {:induction false} FoldIsReal(start: Option<Snapshot>, first: Id, rs: seq<Record>, now: Time)
    requires SnapMatches(start) && forall r | r in rs :: Genuine(r)
    ensures var f := ApplyAll(Begin(start, first), rs, now); SnapMatches(f.cur) && RealRows(f.added)
  {
    if rs != [] {
      var init, r := rs[..|rs|-1], rs[|rs|-1];
      FoldIsReal(start, first, init, now);
      var f := ApplyAll(Begin(start, first), init, now);
      StepIsReal(f.cur, f.next, r, now);
      RealSnoc(f.added, Step(f.cur, f.next, r, now).added);
    }
  }

  // ---------------------------------------------------------------- the tables

  // The product's fingerprint stands for the content of its current version.
  predicate MatchedAt(s: Store, p: Id)
    requires p in s.products
  {
    var c := s.products[p].currentVersionId;
    c.Some? && c.value in s.versions ==> Matches(s.products[p].currentFingerprint, s.versions[c.value].content)
  }

  predicate RealAt(s: Store, v: Id)
    requires v in s.versions
  {
    v + 1 in s.changes && RealRow(s.versions[v], s.changes[v+1])
  }

  ghost predicate AllMatched(s: Store) {
    forall p | p in s.products :: MatchedAt(s, p)
  }

  ghost predicate AllReal(s: Store) {
    forall v | v in s.versions :: RealAt(s, v)
  }

  ghost predicate Sound(s: Store) {
    AllMatched(s) && AllReal(s)
  }

  lemma GrownIsReal(s: Store, t: Store, a: Added, base: nat, pid: Id, first: Id, next: Id)
    requires AllReal(s) && AllGrown(s, t, a) && Rows(base, pid, a, first, next) && RealRows(a)
    ensures AllReal(t)
  {
    forall v | v in t.versions ensures RealAt(t, v) {
      if v in s.versions {
        assert RealAt(s, v);
        GrownOld(s.versions, t.versions, a.versions, VersionKey, v);
        GrownOld(s.changes, t.changes, a.changes, ChangeKey, v + 1);
      } else {
        var i := GrownNew(s.versions, t.versions, a.versions, VersionKey, v);
        GrownAt(s.changes, t.changes, a.changes, ChangeKey, i);
        assert RealRow(a.versions[i], a.changes[i]);
      }
    }
  }

  lemma OthersMatched(s: Store, t: Store, a: Added, pid: Id, next: Id)
    requires AllMatched(s) && Chain(s, next) && AllGrown(s, t, a)
    requires forall p | p in t.products && p != pid ::
               p in s.products && t.products[p].currentVersionId == s.products[p].currentVersionId
               && t.products[p].currentFingerprint == s.products[p].currentFingerprint
    ensures forall p | p in t.products && p != pid :: MatchedAt(t, p)
  {
    forall p | p in t.products && p != pid ensures MatchedAt(t, p) {
      assert MatchedAt(s, p);
      var c := s.products[p].currentVersionId.value;
      assert c in s.versions;
      GrownOld(s.versions, t.versions, a.versions, VersionKey, c);
    }
  }

  // Product pid at the last version added.
  lemma RowMatched(s: Store, t: Store, a: Added, pid: Id, row: ProductRow, next: Id)
    requires AllMatched(s) && Chain(s, next) && AllGrown(s, t, a) && t.products == s.products[pid := row]
    requires a.versions != [] && row.currentVersionId == Some(a.versions[|a.versions|-1].id)
    requires Matches(row.currentFingerprint, a.versions[|a.versions|-1].content)
    ensures AllMatched(t)
  {
    GrownAt(s.versions, t.versions, a.versions, VersionKey, |a.versions| - 1);
    OthersMatched(s, t, a, pid, next);
  }

  lemma NewMatched(s: Store, k: Identity, start: Option<Snapshot>, f: Fold, first: Id, next: Id, now: Time)
    requires AllMatched(s) && Chain(s, next) && Accepted(s, k, start, f, first, next, now) && start.None?
    requires AllGrown(s, Written(s, Emit(start, f, k, now)), f.added) && SnapMatches(f.cur)
    ensures AllMatched(Written(s, Emit(start, f, k, now)))
  {
    NewProductsAre(s, k, start, f, first, next, now);
    RowMatched(s, Written(s, Emit(start, f, k, now)), f.added, f.cur.value.productId,
               InsertedProduct(f.cur.value, f.added.versions[|f.added.versions|-1], now), next);
  }

  lemma MovedMatched(s: Store, k: Identity, start: Option<Snapshot>, f: Fold, first: Id, next: Id, now: Time)
    requires AllMatched(s) && Chain(s, next) && Accepted(s, k, start, f, first, next, now) && start.Some?
    requires f.added.versions != [] && AllGrown(s, Written(s, Emit(start, f, k, now)), f.added) && SnapMatches(f.cur)
    ensures AllMatched(Written(s, Emit(start, f, k, now)))
  {
    var cur := f.cur.value;
    KnownGuard(s, k, start, f, now);
    MovedProducts(s, k, start, f, first, now);
    RowMatched(s, Written(s, Emit(start, f, k, now)), f.added, cur.productId,
               MovedRow(s.products[cur.productId], MoveTo(start.value, cur, cur.storedVersion.value, now)), next);
  }

  // Without a new version the snapshot still has the version it started with.
  lemma {:induction false} SameVersion(start: Option<Snapshot>, first: Id, rs: seq<Record>, now: Time)
    requires start.Some?
    ensures var f := ApplyAll(Begin(start, first), rs, now);
            f.cur.Some? && f.cur.value.productId == start.value.productId
            && (f.added.versions == [] ==> f.cur.value.storedVersion == start.value.storedVersion)
  {
    if rs != [] { SameVersion(start, first, rs[..|rs|-1], now); }
  }

  // Without a new version only fingerprints are written.
  lemma StayingProducts(s: Store, k: Identity, start: Option<Snapshot>, f: Fold, now: Time)
    requires start.Some? && f.cur.Some? && f.added.versions == [] && ApplyPlan(s, Emit(start, f, k, now)).Applied?
    ensures var moves := Emit(start, f, k, now).fingerprints;
            && FingerprintsMatch(s.products, moves)
            && Written(s, Emit(start, f, k, now)).products == Fingerprinted(s.products, Index(moves, FingerprintKey))
            && forall m | m in moves ::
                 m.expected == CurrentOf(start) && m.fingerprint == f.cur.value.currentFingerprint
  {
    var p := Emit(start, f, k, now);
    assert p.products == [] && p.moves == [];
    AddNothing(s.products);
    ByNone(s.products, s.sources);
  }

  // A fingerprint is only replaced on a product that is still at the version the snapshot had.
  lemma StayingMatched(s: Store, t: Store, next: Id, start: Snapshot, cur: Snapshot, moves: seq<FingerprintMove>)
    requires AllMatched(s) && Chain(s, next) && FingerprintsMatch(s.products, moves)
    requires t.products == Fingerprinted(s.products, Index(moves, FingerprintKey))
    requires forall v | v in s.versions :: v in t.versions && t.versions[v] == s.versions[v]
    requires forall m | m in moves :: m.expected == start.currentVersionId && m.fingerprint == cur.currentFingerprint
    requires start.currentVersionId.Some? && start.currentVersionId.value in s.versions
             && Some(s.versions[start.currentVersionId.value]) == cur.storedVersion && SnapMatches(Some(cur))
    ensures AllMatched(t)
  {
    forall q | q in t.products ensures MatchedAt(t, q) {
      assert MatchedAt(s, q);
      ReplacedMatches(s, start, cur, moves, q);
      var c := s.products[q].currentVersionId.value;
      assert t.products[q].currentVersionId == Some(c) && c in s.versions && t.versions[c] == s.versions[c];
      assert Matches(t.products[q].currentFingerprint, s.versions[c].content);
    }
  }

  lemma ReplacedMatches(s: Store, start: Snapshot, cur: Snapshot, moves: seq<FingerprintMove>, q: Id)
    requires q in s.products && MatchedAt(s, q) && FingerprintsMatch(s.products, moves)
    requires forall m | m in moves :: m.expected == start.currentVersionId && m.fingerprint == cur.currentFingerprint
    requires start.currentVersionId.Some? && start.currentVersionId.value in s.versions
             && Some(s.versions[start.currentVersionId.value]) == cur.storedVersion && SnapMatches(Some(cur))
    ensures var row := Fingerprinted(s.products, Index(moves, FingerprintKey))[q];
            && row.currentVersionId == s.products[q].currentVersionId
            && (row.currentVersionId.Some? && row.currentVersionId.value in s.versions ==>
                  Matches(row.currentFingerprint, s.versions[row.currentVersionId.value].content))
  {
    IndexKeys(moves, FingerprintKey);
    var updates := Index(moves, FingerprintKey);
    if q in updates {
      var i :| 0 <= i < |moves| && moves[i] == updates[q];
      assert moves[i].productId == q;
    }
  }

  // An accepted group of genuine records keeps the tables sound.
  lemma GroupIsSound(s: Store, k: Identity, start: Option<Snapshot>, first: Id, rs: seq<Record>, next: Id, now: Time)
    requires Chain(s, next) && Sound(s) && SnapMatches(start) && forall r | r in rs :: Genuine(r)
    requires Accepted(s, k, start, ApplyAll(Begin(start, first), rs, now), first, next, now)
    ensures Sound(Written(s, Emit(start, ApplyAll(Begin(start, first), rs, now), k, now)))
  {
    var f := ApplyAll(Begin(start, first), rs, now);
    var t := Written(s, Emit(start, f, k, now));
    FoldIsReal(start, first, rs, now);
    GroupGrows(s, k, start, f, first, next, now);
    GrownIsReal(s, t, f.added, BaseNumber(start), f.cur.value.productId, first, next);
    if start.None? {
      NewMatched(s, k, start, f, first, next, now);
    } else if f.added.versions != [] {
      MovedMatched(s, k, start, f, first, next, now);
    } else {
      SameVersion(start, first, rs, now);
      StayingProducts(s, k, start, f, now);
      StayingMatched(s, t, next, start.value, f.cur.value, Emit(start, f, k, now).fingerprints);
    }
  }

  // ---------------------------------------------------------------- pages and runs

  ghost predicate AllSnapsMatch(snaps: map<Identity, Snapshot>) {
    forall k | k in snaps :: SnapMatches(Some(snaps[k]))
  }

  ghost predicate AllGenuine(page: seq<Record>) {
    forall r | r in page :: Genuine(r)
  }

  // The last group of a page, on what the groups before it left.
  lemma LastGroupIsSound(s: Store, mid: Store, snaps: map<Identity, Snapshot>, page: seq<Record>, k: Identity,
                         now: Time, n: Id, next: Id)
    requires k in Identities(page) && AllPast(s, snaps) && Keeps(s, mid) && Chain(mid, next) && Sound(mid)
    requires AllSnapsMatch(snaps) && AllGenuine(page) && FoldOf(snaps, page, k, n, now).next <= next
    requires ApplyPlan(mid, Emit(StartOf(snaps, k), FoldOf(snaps, page, k, n, now), k, now)).Applied?
    ensures Sound(Written(mid, Emit(StartOf(snaps, k), FoldOf(snaps, page, k, n, now), k, now)))
  {
    AllStayPast(s, mid, snaps);
    PastIsNamed(mid, snaps, k);
    FoldOfGroup(snaps, page, k, n, now);
    GroupedRecords(page, k);
    GroupIsSound(mid, k, StartOf(snaps, k), n, Group(page, k), next, now);
  }

  // An accepted page of genuine records, decided on snapshots of any age that match, keeps the tables sound.
  lemma {:induction false} PageIsSound(s: Store, snaps: map<Identity, Snapshot>, page: seq<Record>,
                                       ids: seq<Identity>, now: Time, first: Id, next: Id)
    requires Chain(s, next) && AllPast(s, snaps) && Listed(page, ids) && Sound(s)
    requires AllSnapsMatch(snaps) && AllGenuine(page)
    requires var (plan, n) := DecideGroups(snaps, page, ids, now, first); n <= next && ApplyPlan(s, plan).Applied?
    ensures Sound(ApplyPlan(s, DecideGroups(snaps, page, ids, now, first).0).store)
  {
    if ids == [] {
      EmptyPlanApplies(s);
    } else {
      var n, mid := PageSplits(s, snaps, page, ids, now, first, next);
      var j := ids[|ids|-1];
      ListedInit(page, ids);
      DecideLast(snaps, page, ids, now, first);
      PageIsSound(s, snaps, page, ids[..|ids|-1], now, first, next);
      LastGroupIsSound(s, mid, snaps, page, j, now, n, next);
    }
  }

  // The pages the workers decide hold genuine records.
  ghost predicate AllDecideGenuine(actions: seq<Action>) {
    forall i | 0 <= i < |actions| && actions[i].Decide? :: AllGenuine(actions[i].page)
  }

  ghost predicate WorkMatches(y: System) {
    forall w | w in y.work :: AllSnapsMatch(y.work[w].snapshots) && AllGenuine(y.work[w].page)
  }

  // A snapshot read from sound tables matches.
  lemma ReadMatches(s: Store, next: Id, ids: seq<Identity>)
    requires Chain(s, next) && AllMatched(s)
    ensures AllSnapsMatch(Snapshots(s, ids))
  {
    forall k | k in Snapshots(s, ids) ensures SnapMatches(Some(Snapshots(s, ids)[k])) {
      ReadIsPast(s, next, k);
      assert MatchedAt(s, s.sources[s.byIdentity[k]].productId);
    }
  }

  lemma CommitIsSound(y: System, w: WorkerId)
    requires Inv(y) && Sound(y.store) && WorkMatches(y)
    requires w in y.work && ApplyPlan(y.store, DecidedPlan(y.work[w]).0).Applied?
    ensures Sound(Next(y, Commit(w)).store)
  {
    var work := y.work[w];
    assert Held(y, work);
    AllListed(work.page);
    PageIsSound(y.store, work.snapshots, work.page, Identities(work.page), work.now, work.first, y.next);
  }

  lemma StepIsSound(y: System, a: Action)
    requires Inv(y) && Sound(y.store) && WorkMatches(y) && (a.Decide? ==> AllGenuine(a.page))
    ensures Sound(Next(y, a).store) && WorkMatches(Next(y, a))
  {
    match a
    case Decide(w, page, now) => ReadMatches(y.store, y.next, Identities(page));
    case Commit(w) =>
      if w in y.work && ApplyPlan(y.store, DecidedPlan(y.work[w]).0).Applied? { CommitIsSound(y, w); }
    case Crash(w) =>
  }

  lemma {:induction false} RunIsSound(actions: seq<Action>)
    requires AllDecideGenuine(actions)
    ensures Sound(Run(actions).store) && WorkMatches(Run(actions))
  {
    if actions != [] {
      var init, a := actions[..|actions|-1], actions[|actions|-1];
      forall i | 0 <= i < |init| && init[i].Decide? ensures AllGenuine(init[i].page) {
        assert init[i] == actions[i];
      }
      RunIsSound(init);
      RunHolds(init);
      var y := RunSnoc(actions);
      StepIsSound(y, a);
    }
  }

  // For every interleaving of reads, commits and crashes over genuine records: a product's fingerprint is that
  // of its current version's content, unless an older algorithm wrote it; and a CHANGED row never lists
  // nothing, unless an older algorithm wrote its version.
  lemma EveryChangeIsReal(actions: seq<Action>)
    requires AllDecideGenuine(actions)
    ensures var s := Run(actions).store;
            && (forall v | v in s.versions :: RealAt(s, v))
            && (forall p | p in s.products :: MatchedAt(s, p))
  {
    RunIsSound(actions);
  }
}
