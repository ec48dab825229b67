// What a page decided from old snapshots makes of the tables it meets, identity by identity, and when two
// pages decided side by side end where one of their two orders ends.
module StalePages {
  import opened Prelude
  import opened Transition
  import opened Batch
  import opened ProductStore
  import opened FoldInvariant
  import opened PageRefinement
  import opened PlanAppend
  import opened VersionChain
  import opened ConcurrentPages
  import opened Marks
  import opened StaleCommit
  import Replay

  // ---------------------------------------------------------------- one group

  // A record of the group is not late when its turn comes, from mark m.
  predicate Touches(m: Mark, rs: seq<Record>) {
    rs != [] && (Touches(m, rs[..|rs|-1]) || !Late(AbsorbAll(Some(m), rs[..|rs|-1]).value, rs[|rs|-1]))
  }

  // And brings other content than what is current then.
  predicate Replaces(m: Mark, rs: seq<Record>) {
    rs != []
    && (Replaces(m, rs[..|rs|-1])
        || (!Late(AbsorbAll(Some(m), rs[..|rs|-1]).value, rs[|rs|-1])
            && rs[|rs|-1].fingerprint != AbsorbAll(Some(m), rs[..|rs|-1]).value.fingerprint))
  }

  // What a group decided at mark m makes of the mark n it meets.
  function OverlayAll(m: Mark, rs: seq<Record>, n: Mark): Mark {
    Laid(m, AbsorbAll(Some(m), rs).value, Touches(m, rs), Replaces(m, rs), n)
  }

  // How a group's fold stands to the marks.
  ghost predicate Follows(cur: Snapshot, f: Fold, rs: seq<Record>) {
    var m := MarkOf(Some(cur)).value;
    && f.cur.Some? && f.cur.value.productId == cur.productId && f.cur.value.productSourceId == cur.productSourceId
    && MarkOf(f.cur) == AbsorbAll(Some(m), rs) && f.touched == Touches(m, rs)
    && (f.added.versions != [] ==> f.touched && f.cur.value.storedVersion.Some?)
    && (!f.touched ==> f.cur.value.currentFingerprint == cur.currentFingerprint)
    && (Replaces(m, rs) <==> f.added.versions != [] || f.cur.value.currentFingerprint != cur.currentFingerprint)
    && (f.added.versions == [] && f.cur.value.currentFingerprint != cur.currentFingerprint ==>
          cur.currentFingerprint.Legacy? && f.cur.value.currentFingerprint.V1?)
  }

  // One more record: what its step does to the running snapshot.
  lemma RecordFollows(cur: Snapshot, next: Id, r: Record, now: Time)
    requires r.fingerprint.V1?
    ensures var m, g := MarkOf(Some(cur)).value, Step(Some(cur), next, r, now);
            && g.cur.Some? && g.cur.value.productId == cur.productId
            && g.cur.value.productSourceId == cur.productSourceId
            && MarkOf(g.cur) == Some(Absorb(Some(m), r)) && g.touched == !Late(m, r)
            && (g.added.versions != [] ==> g.touched && g.cur.value.storedVersion.Some?)
            && (g.added.versions != [] ==> r.fingerprint != cur.currentFingerprint)
            && (g.added.versions == [] && g.cur.value.currentFingerprint != cur.currentFingerprint ==>
                  cur.currentFingerprint.Legacy?)
            && (!g.touched ==> g.cur == Some(cur))
            && (g.added.versions == [] ==> g.cur.value.storedVersion == cur.storedVersion)
  {}

  lemma {:induction false} GroupFollows(cur: Snapshot, first: Id, rs: seq<Record>, now: Time)
    requires forall r | r in rs :: r.fingerprint.V1?
    ensures Follows(cur, ApplyAll(Begin(Some(cur), first), rs, now), rs)
  {
    if rs != [] {
      var init, r := rs[..|rs|-1], rs[|rs|-1];
      GroupFollows(cur, first, init, now);
      var f := ApplyAll(Begin(Some(cur), first), init, now);
      RecordFollows(f.cur.value, f.next, r, now);
    }
  }

  // ---------------------------------------------------------------- identities beside the group

  // Rows of an identity no group of the plan is about.
  lemma OthersKeepMark(s: Store, ids: seq<Identity>, p: Plan, k: Identity, first: Id, n: Id, next: Id)
    requires Consistent(s, next) && HasRow(s, k) && k !in ids && Within(s, ids, p, first, n)
    requires ApplyPlan(s, p).Applied?
    ensures SameRows(s, Written(s, p), k) && MarkOf(SnapshotOf(Written(s, p), k)) == MarkOf(SnapshotOf(s, k))
  {
    var i := s.byIdentity[k];
    var pid := s.sources[i].productId;
    OwnersDiffer(s, ids, k, next);
    assert OwnsProduct(s, [k], pid) && OwnsSource(s, [k], i);
    ProductUnwritten(s, p, pid);
    SourceUnwritten(s, p, i);
    IdentityUnwritten(s, p, k);
    RowsMark(s, k);
    RowsMark(Written(s, p), k);
  }

  lemma ProductUnwritten(s: Store, p: Plan, x: Id)
    requires x in s.products && Absent(s.products, p.products, ProductKey)
    requires x !in Keys(p.moves, MoveKey) && x !in Keys(p.fingerprints, FingerprintKey)
    ensures x in Written(s, p).products && Written(s, p).products[x] == s.products[x]
  {
    IndexKeys(p.products, ProductKey);
  }

  lemma SourceUnwritten(s: Store, p: Plan, x: Id)
    requires x in s.sources && Absent(s.sources, p.sources, SourceKey)
    requires x !in Keys(p.sourceChanges, SourceChangedKey) && x !in Keys(p.watermarks, WatermarkKey)
    ensures x in Written(s, p).sources && Written(s, p).sources[x] == s.sources[x]
  {
    IndexKeys(p.sources, SourceKey);
  }

  lemma IdentityUnwritten(s: Store, p: Plan, k: Identity)
    requires k in s.byIdentity && Absent(s.byIdentity, p.sources, IdentityOf)
    ensures k in Written(s, p).byIdentity && Written(s, p).byIdentity[k] == s.byIdentity[k]
  {
    IndexKeys(p.sources, IdentityOf);
  }

  // ---------------------------------------------------------------- the page

  // The mark a page decided on these snapshots leaves of an identity it knew.
  function After(snaps: map<Identity, Snapshot>, page: seq<Record>, ids: seq<Identity>, k: Identity, n: Mark): Mark
    requires k in snaps
  {
    if k in ids then OverlayAll(MarkOf(Some(snaps[k])).value, Group(page, k), n) else n
  }

  lemma LastGroupLands(s: Store, snaps: map<Identity, Snapshot>, page: seq<Record>, k: Identity, now: Time, n: Id)
    requires AllPast(s, snaps) && k in snaps && k in Identities(page) && forall r | r in page :: r.fingerprint.V1?
    requires ApplyPlan(s, Emit(StartOf(snaps, k), FoldOf(snaps, page, k, n, now), k, now)).Applied?
    ensures var end := ApplyPlan(s, Emit(StartOf(snaps, k), FoldOf(snaps, page, k, n, now), k, now)).store;
            && SameRows(s, end, k)
            && MarkOf(SnapshotOf(end, k)) ==
                 Some(OverlayAll(MarkOf(Some(snaps[k])).value, Group(page, k), MarkOf(SnapshotOf(s, k)).value))
  {
    PastIsNamed(s, snaps, k);
    GroupedRecords(page, k);
    GroupFollows(snaps[k], n, Group(page, k), now);
    EmitLands(s, snaps[k], FoldOf(snaps, page, k, n, now), k, now);
  }

  // The store `end` is `s` with the page's groups for `ids` written, as far as k goes.
  ghost predicate Lands(s: Store, snaps: map<Identity, Snapshot>, page: seq<Record>, ids: seq<Identity>, k: Identity,
                        end: Store) {
    && k in snaps && SameRows(s, end, k)
    && MarkOf(SnapshotOf(end, k)) == Some(After(snaps, page, ids, k, MarkOf(SnapshotOf(s, k)).value))
  }

  lemma LandsMore(s: Store, mid: Store, end: Store, snaps: map<Identity, Snapshot>, page: seq<Record>,
                  ids: seq<Identity>, k: Identity)
    requires ids != [] && ids[|ids|-1] !in ids[..|ids|-1]
    requires Lands(s, snaps, page, ids[..|ids|-1], k, mid) && Lands(mid, snaps, page, [ids[|ids|-1]], k, end)
    ensures Lands(s, snaps, page, ids, k, end)
  {
    assert ids == ids[..|ids|-1] + [ids[|ids|-1]];
  }

  // The last group, on what the groups before it left.
  lemma LastLands(s: Store, mid: Store, snaps: map<Identity, Snapshot>, page: seq<Record>, j: Identity, now: Time,
                  n: Id, next: Id, k: Identity)
    requires AllPast(s, snaps) && Keeps(s, mid) && Chain(mid, next) && k in snaps && j in Identities(page)
    requires forall r | r in page :: r.fingerprint.V1?
    requires ApplyPlan(mid, Emit(StartOf(snaps, j), FoldOf(snaps, page, j, n, now), j, now)).Applied?
    ensures Lands(mid, snaps, page, [j], k,
                  ApplyPlan(mid, Emit(StartOf(snaps, j), FoldOf(snaps, page, j, n, now), j, now)).store)
  {
    AllStayPast(s, mid, snaps);
    PastIsNamed(mid, snaps, k);
    if k == j {
      LastGroupLands(mid, snaps, page, k, now, n);
    } else {
      BesideGroup(mid, snaps, page, j, now, n, next, k);
    }
  }

  lemma BesideGroup(s: Store, snaps: map<Identity, Snapshot>, page: seq<Record>, j: Identity, now: Time, n: Id,
                    next: Id, k: Identity)
    requires AllPast(s, snaps) && Consistent(s, next) && HasRow(s, k) && j in Identities(page) && k != j
    requires ApplyPlan(s, Emit(StartOf(snaps, j), FoldOf(snaps, page, j, n, now), j, now)).Applied?
    ensures var end := ApplyPlan(s, Emit(StartOf(snaps, j), FoldOf(snaps, page, j, n, now), j, now)).store;
            SameRows(s, end, k) && MarkOf(SnapshotOf(end, k)) == MarkOf(SnapshotOf(s, k))
  {
    var f := FoldOf(snaps, page, j, n, now);
    GroupWithin(s, snaps, page, j, now, n);
    OthersKeepMark(s, [j], Emit(StartOf(snaps, j), f, j, now), k, n, f.next, next);
  }

  // An accepted page's groups but the last are accepted too, and then the last on what they left.
  lemma PageSplits(s: Store, snaps: map<Identity, Snapshot>, page: seq<Record>, ids: seq<Identity>, now: Time,
                   first: Id, next: Id) returns (n: Id, mid: Store)
    requires Chain(s, next) && AllPast(s, snaps) && Listed(page, ids) && ids != []
    requires var (plan, n) := DecideGroups(snaps, page, ids, now, first); n <= next && ApplyPlan(s, plan).Applied?
    ensures var init, j := ids[..|ids|-1], ids[|ids|-1];
            && DecideGroups(snaps, page, init, now, first).1 == n <= next
            && ApplyPlan(s, DecideGroups(snaps, page, init, now, first).0) == Applied(mid)
            && ApplyPlan(mid, Emit(StartOf(snaps, j), FoldOf(snaps, page, j, n, now), j, now)) ==
                 ApplyPlan(s, DecideGroups(snaps, page, ids, now, first).0)
    ensures Chain(mid, next) && Keeps(s, mid)
  {
    var init, j := ids[..|ids|-1], ids[|ids|-1];
    ListedInit(page, ids);
    DecideLast(snaps, page, ids, now, first);
    var plan := DecideGroups(snaps, page, init, now, first).0;
    n := DecideGroups(snaps, page, init, now, first).1;
    mid := Written(s, plan);
    PageWithin(s, snaps, page, init, now, first);
    LastGroupSplits(s, snaps, page, init, j, plan, now, first, n, next);
    PageKeepsChain(s, snaps, page, init, now, first, next);
  }

  // For every chained store and page decided on snapshots read from it at any time, if the page is
  // accepted: what it makes of each identity that was known when its snapshots were read.
  lemma {:induction false} StalePageLands(s: Store, snaps: map<Identity, Snapshot>, page: seq<Record>,
                                          ids: seq<Identity>, now: Time, first: Id, next: Id, k: Identity)
    requires Chain(s, next) && AllPast(s, snaps) && Listed(page, ids) && forall r | r in page :: r.fingerprint.V1?
    requires var (plan, n) := DecideGroups(snaps, page, ids, now, first); n <= next && ApplyPlan(s, plan).Applied?
    requires k in snaps
    ensures Lands(s, snaps, page, ids, k, ApplyPlan(s, DecideGroups(snaps, page, ids, now, first).0).store)
  {
    if ids == [] {
      PastIsNamed(s, snaps, k);
      EmptyPlanApplies(s);
    } else {
      var n, mid := PageSplits(s, snaps, page, ids, now, first, next);
      ListedInit(page, ids);
      StalePageLands(s, snaps, page, ids[..|ids|-1], now, first, next, k);
      LastLands(s, mid, snaps, page, ids[|ids|-1], now, n, next, k);
      LandsMore(s, mid, ApplyPlan(s, DecideGroups(snaps, page, ids, now, first).0).store, snaps, page, ids, k);
    }
  }

  // Over every interleaving of reads, commits and crashes: whatever was committed since a worker read its
  // snapshots, if its page is accepted this is what it makes of each identity it knew.
  lemma CommitLands(actions: seq<Action>, w: WorkerId, k: Identity)
    requires w in Run(actions).work && k in Run(actions).work[w].snapshots
    requires forall r | r in Run(actions).work[w].page :: r.fingerprint.V1?
    requires ApplyPlan(Run(actions).store, DecidedPlan(Run(actions).work[w]).0).Applied?
    ensures var y := Run(actions);
            var work := y.work[w];
            Lands(y.store, work.snapshots, work.page, Identities(work.page), k, Next(y, Commit(w)).store)
  {
    RunHolds(actions);
    var y := Run(actions);
    var work := y.work[w];
    assert Held(y, work);
    AllListed(work.page);
    StalePageLands(y.store, work.snapshots, work.page, Identities(work.page), work.now, work.first, y.next, k);
  }

  // ---------------------------------------------------------------- two pages side by side

  // The plan a worker decides for the page, from what it reads in s.
  function Decided(s: Store, page: seq<Record>, now: Time, first: Id): (Plan, Id) {
    DecideBatch(Snapshots(s, Identities(page)), page, now, first)
  }

  // Every identity of the page is known, and the page brings no content but what is current.
  ghost predicate PageConfirms(s: Store, page: seq<Record>) {
    forall k | k in Identities(page) ::
      SnapshotOf(s, k).Some? && !Replaces(MarkOf(SnapshotOf(s, k)).value, Group(page, k))
  }

  lemma OnlyWatermarksAppend(a: Plan, b: Plan)
    requires OnlyWatermarks(a) && OnlyWatermarks(b)
    ensures OnlyWatermarks(Append(a, b))
  {}

  lemma GroupOnlyRaises(cur: Snapshot, first: Id, rs: seq<Record>, k: Identity, now: Time)
    requires forall r | r in rs :: r.fingerprint.V1?
    requires !Replaces(MarkOf(Some(cur)).value, rs)
    ensures OnlyWatermarks(Emit(Some(cur), ApplyAll(Begin(Some(cur), first), rs, now), k, now))
  {
    GroupFollows(cur, first, rs, now);
    FoldAll(Some(cur), first, rs, now);
  }

  lemma {:induction false} PageOnlyRaises(snaps: map<Identity, Snapshot>, page: seq<Record>, ids: seq<Identity>,
                                          now: Time, first: Id)
    requires forall r | r in page :: r.fingerprint.V1?
    requires forall k | k in ids :: k in snaps && !Replaces(MarkOf(Some(snaps[k])).value, Group(page, k))
    ensures OnlyWatermarks(DecideGroups(snaps, page, ids, now, first).0)
  {
    if ids != [] {
      var init, k := ids[..|ids|-1], ids[|ids|-1];
      assert forall j | j in init :: j in ids;
      assert k in ids;
      PageOnlyRaises(snaps, page, init, now, first);
      DecideLast(snaps, page, ids, now, first);
      var (plan, n) := DecideGroups(snaps, page, init, now, first);
      GroupedRecords(page, k);
      GroupOnlyRaises(snaps[k], n, Group(page, k), k, now);
      OnlyWatermarksAppend(plan, Emit(StartOf(snaps, k), FoldOf(snaps, page, k, n, now), k, now));
    }
  }

  lemma ConfirmingPageOnlyRaises(s: Store, page: seq<Record>, now: Time, first: Id)
    requires PageConfirms(s, page) && forall r | r in page :: r.fingerprint.V1?
    ensures OnlyWatermarks(Decided(s, page, now, first).0)
  {
    PageOnlyRaises(Snapshots(s, Identities(page)), page, Identities(page), now, first);
  }

  // The plan decided in s, committed on t, identity by identity.
  lemma DecidedLands(s: Store, t: Store, page: seq<Record>, now: Time, first: Id, next: Id, end: Store, k: Identity)
    requires Chain(s, first) && Keeps(s, t) && Chain(t, next) && Decided(s, page, now, first).1 <= next
    requires ApplyPlan(t, Decided(s, page, now, first).0) == Applied(end)
    requires SnapshotOf(s, k).Some? && SnapshotOf(t, k).Some? && forall r | r in page :: r.fingerprint.V1?
    ensures MarkOf(SnapshotOf(end, k)) ==
              Some(OverlayAll(MarkOf(SnapshotOf(s, k)).value, Group(page, k), MarkOf(SnapshotOf(t, k)).value))
  {
    var ids := Identities(page);
    var snaps := Snapshots(s, ids);
    SnapshotsStayPast(s, t, ids, first);
    AllListed(page);
    if k in ids {
      StalePageLands(t, snaps, page, ids, now, first, next, k);
    } else {
      NotInPage(page, k);
      BesidePage(t, snaps, page, now, first, next, end, k);
    }
  }

  lemma BesidePage(t: Store, snaps: map<Identity, Snapshot>, page: seq<Record>, now: Time, first: Id, next: Id,
                   end: Store, k: Identity)
    requires Chain(t, next) && AllPast(t, snaps) && SnapshotOf(t, k).Some? && k !in Identities(page)
    requires ApplyPlan(t, DecideBatch(snaps, page, now, first).0) == Applied(end)
    ensures MarkOf(SnapshotOf(end, k)) == MarkOf(SnapshotOf(t, k))
  {
    var ids := Identities(page);
    var (plan, n) := DecideBatch(snaps, page, now, first);
    AllListed(page);
    PageWithin(t, snaps, page, ids, now, first);
    OthersKeepMark(t, ids, plan, k, first, n, next);
  }

  lemma SnapshotsStayPast(s: Store, t: Store, ids: seq<Identity>, first: Id)
    requires Chain(s, first) && Keeps(s, t)
    ensures AllPast(t, Snapshots(s, ids))
  {
    forall j | j in Snapshots(s, ids) ensures Past(s, j, Snapshots(s, ids)[j]) {
      ReadIsPast(s, first, j);
    }
    AllStayPast(s, t, Snapshots(s, ids));
  }

  lemma KnownStays(s: Store, t: Store, k: Identity, next: Id)
    requires Keeps(s, t) && SnapshotOf(s, k).Some? && Chain(t, next)
    ensures SnapshotOf(t, k).Some?
  {}

  // One page decided in s and committed on t, which may have moved on.
  lemma DecidedKeepsChain(s: Store, t: Store, page: seq<Record>, now: Time, first: Id, next: Id, end: Store)
    requires Chain(s, first) && Keeps(s, t) && Chain(t, next) && Decided(s, page, now, first).1 <= next
    requires ApplyPlan(t, Decided(s, page, now, first).0) == Applied(end)
    ensures Chain(end, next) && Keeps(t, end) && Keeps(s, end)
  {
    SnapshotsStayPast(s, t, Identities(page), first);
    AllListed(page);
    PageKeepsChain(t, Snapshots(s, Identities(page)), page, Identities(page), now, first, next);
    KeepsTransitive(s, t, end);
  }

  lemma DecidedAlone(s: Store, page: seq<Record>, now: Time, first: Id)
    requires Chain(s, first)
    ensures ApplyPlan(s, Decided(s, page, now, first).0).Applied? && first <= Decided(s, page, now, first).1
  {
    PageEqualsRecordsAlone(s, page, now, first);
    KeepsSelf(s);
    SnapshotsStayPast(s, s, Identities(page), first);
    AllListed(page);
    PageWithin(s, Snapshots(s, Identities(page)), page, Identities(page), now, first);
  }

  // Two workers read the same tables; one's page confirms what is current, the other's is any page.
  datatype Race = Race(confirmed: Store, written: Store, both: Store, same: Store)

  // Both plans are accepted, whichever is committed first: `both` is confirmed first, `same` written first.
  lemma RaceIsAccepted(s: Store, a: seq<Record>, b: seq<Record>, now: Time, first: Id)
    returns (race: Race, mid: Id, next: Id)
    requires Chain(s, first) && PageConfirms(s, a) && forall r | r in a + b :: r.fingerprint.V1?
    ensures mid == Decided(s, a, now, first).1 && next == Decided(s, b, now, mid).1 && first <= mid <= next
    ensures ApplyPlan(s, Decided(s, a, now, first).0) == Applied(race.confirmed)
    ensures ApplyPlan(s, Decided(s, b, now, mid).0) == Applied(race.written)
    ensures ApplyPlan(race.confirmed, Decided(s, b, now, mid).0) == Applied(race.both)
    ensures ApplyPlan(race.written, Decided(s, a, now, first).0) == Applied(race.same)
  {
    mid := Decided(s, a, now, first).1;
    next := Decided(s, b, now, mid).1;
    var p, o := Decided(s, a, now, first).0, Decided(s, b, now, mid).0;
    assert forall r | r in a :: r in a + b;
    DecidedAlone(s, a, now, first);
    ChainWithMoreIds(s, first, mid);
    DecidedAlone(s, b, now, mid);
    ConfirmingPageOnlyRaises(s, a, now, first);
    var confirmed, written := ApplyPlan(s, p).store, ApplyPlan(s, o).store;
    WatermarksAreAccepted(s, p);
    WatermarksAreAccepted(written, p);
    GuardsIgnoreWatermarks(s, confirmed, o);
    race := Race(confirmed, written, ApplyPlan(confirmed, o).store, ApplyPlan(written, p).store);
  }

  // What both together leave of an identity.
  function Together(m: Mark, a: seq<Record>, b: seq<Record>): Mark {
    OverlayAll(m, b, AbsorbAll(Some(m), a).value)
  }

  lemma {:induction false} UnreplacedStays(m: Mark, rs: seq<Record>)
    ensures AbsorbAll(Some(m), rs).Some?
    ensures !Replaces(m, rs) ==> AbsorbAll(Some(m), rs).value.fingerprint == m.fingerprint
    ensures !Touches(m, rs) ==> AbsorbAll(Some(m), rs) == Some(m) && !Replaces(m, rs)
  {
    if rs != [] { UnreplacedStays(m, rs[..|rs|-1]); }
  }

  // Both orders of commit end alike.
  lemma OrdersMeet(m: Mark, a: seq<Record>, b: seq<Record>)
    requires !Replaces(m, a)
    ensures OverlayAll(m, a, m) == AbsorbAll(Some(m), a).value
    ensures OverlayAll(m, a, OverlayAll(m, b, m)) == Together(m, a, b)
  {
    UnreplacedStays(m, a);
    UnreplacedStays(m, b);
    Replay.WatermarksRise(m, a);
    Replay.WatermarksRise(m, b);
  }

  lemma RaceEnds(s: Store, a: seq<Record>, b: seq<Record>, now: Time, first: Id, race: Race, mid: Id, next: Id,
                 k: Identity)
    requires Chain(s, first) && PageConfirms(s, a) && forall r | r in a + b :: r.fingerprint.V1?
    requires mid == Decided(s, a, now, first).1 && next == Decided(s, b, now, mid).1 && first <= mid <= next
    requires ApplyPlan(s, Decided(s, a, now, first).0) == Applied(race.confirmed)
    requires ApplyPlan(s, Decided(s, b, now, mid).0) == Applied(race.written)
    requires ApplyPlan(race.confirmed, Decided(s, b, now, mid).0) == Applied(race.both)
    requires ApplyPlan(race.written, Decided(s, a, now, first).0) == Applied(race.same)
    requires SnapshotOf(s, k).Some?
    ensures var m := MarkOf(SnapshotOf(s, k)).value;
            var end := Some(Together(m, Group(a, k), Group(b, k)));
            MarkOf(SnapshotOf(race.both, k)) == end && MarkOf(SnapshotOf(race.same, k)) == end
  {
    var m := MarkOf(SnapshotOf(s, k)).value;
    assert (forall r | r in a :: r in a + b) && forall r | r in b :: r in a + b;
    KeepsSelf(s);
    ChainWithMoreIds(s, first, mid);
    ChainWithMoreIds(s, first, next);
    CommittedNext(s, s, a, now, first, next, race.confirmed, k);
    CommittedNext(s, s, b, now, mid, next, race.written, k);
    CommittedNext(s, race.confirmed, b, now, mid, next, race.both, k);
    CommittedNext(s, race.written, a, now, first, next, race.same, k);
    ConfirmsHere(s, a, k);
    OrdersMeet(m, Group(a, k), Group(b, k));
  }

  lemma CommittedNext(s: Store, t: Store, page: seq<Record>, now: Time, first: Id, next: Id, end: Store, k: Identity)
    requires Chain(s, first) && Keeps(s, t) && Chain(t, next) && Decided(s, page, now, first).1 <= next
    requires ApplyPlan(t, Decided(s, page, now, first).0) == Applied(end)
    requires SnapshotOf(s, k).Some? && forall r | r in page :: r.fingerprint.V1?
    ensures Chain(end, next) && Keeps(s, end) && SnapshotOf(t, k).Some? && SnapshotOf(end, k).Some?
    ensures MarkOf(SnapshotOf(end, k)) ==
              Some(OverlayAll(MarkOf(SnapshotOf(s, k)).value, Group(page, k), MarkOf(SnapshotOf(t, k)).value))
  {
    KnownStays(s, t, k, next);
    DecidedKeepsChain(s, t, page, now, first, next, end);
    DecidedLands(s, t, page, now, first, next, end, k);
  }

  lemma ConfirmsHere(s: Store, a: seq<Record>, k: Identity)
    requires PageConfirms(s, a) && SnapshotOf(s, k).Some?
    ensures !Replaces(MarkOf(SnapshotOf(s, k)).value, Group(a, k))
  {
    if k !in Identities(a) { NotInPage(a, k); }
  }

  // The identities known to s stand in `end` as the two pages, one after the other, leave them.
  ghost predicate EndsAs(s: Store, end: Store, a: seq<Record>, b: seq<Record>, now: Time, first: Id) {
    var p := RunPages(s, [Turn(a, now), Turn(b, now)], first);
    p.Some? && forall k | SnapshotOf(s, k).Some? ::
      MarkOf(SnapshotOf(end, k)) == MarkOf(SnapshotOf(p.value.store, k))
  }

  // For one identity: the second group, decided as if the first had not been there, comes out as it does
  // after the first.
  predicate Undisturbed(m: Mark, a: seq<Record>, b: seq<Record>, x: seq<Record>, y: seq<Record>) {
    Some(Together(m, a, b)) == AbsorbAll(AbsorbAll(Some(m), x), y)
  }

  lemma PagesInTurn(s: Store, a: seq<Record>, b: seq<Record>, now: Time, first: Id, k: Identity)
    requires Consistent(s, first)
    ensures var p := RunPages(s, [Turn(a, now), Turn(b, now)], first);
            p.Some? && MarkOf(SnapshotOf(p.value.store, k)) ==
              AbsorbAll(AbsorbAll(MarkOf(SnapshotOf(s, k)), Group(a, k)), Group(b, k))
  {
    var t, u, m := Turn(a, now), Turn(b, now), MarkOf(SnapshotOf(s, k));
    PagesMark(s, [t, u], first, k);
    assert [t, u][..1] == [t] && [t][..0] == [];
    assert Arrivals([], k) == [] && Arrivals([t], k) == [] + Group(a, k) == Group(a, k);
    assert Arrivals([t, u], k) == Group(a, k) + Group(b, k);
    AbsorbAppend(m, Group(a, k), Group(b, k));
  }

  // For every chained store, a page that confirms what is current and any other page, of any records of
  // any identities, decided side by side: both are accepted in either order, both orders leave the same of
  // every identity known before, and that is what the pages one after the other leave, in the one order or
  // in the other, if and only if no known identity's group is disturbed by the other page's.
  lemma PagesRaceIsSerialIff(s: Store, a: seq<Record>, b: seq<Record>, now: Time, first: Id) returns (race: Race)
    requires Chain(s, first) && PageConfirms(s, a) && forall r | r in a + b :: r.fingerprint.V1?
    ensures var mid := Decided(s, a, now, first).1;
            && ApplyPlan(s, Decided(s, a, now, first).0) == Applied(race.confirmed)
            && ApplyPlan(s, Decided(s, b, now, mid).0) == Applied(race.written)
            && ApplyPlan(race.confirmed, Decided(s, b, now, mid).0) == Applied(race.both)
            && ApplyPlan(race.written, Decided(s, a, now, first).0) == Applied(race.same)
    ensures forall k | SnapshotOf(s, k).Some? ::
              MarkOf(SnapshotOf(race.both, k)) == MarkOf(SnapshotOf(race.same, k))
    ensures EndsAs(s, race.both, a, b, now, first) <==>
              forall k | SnapshotOf(s, k).Some? ::
                Undisturbed(MarkOf(SnapshotOf(s, k)).value, Group(a, k), Group(b, k), Group(a, k), Group(b, k))
    ensures EndsAs(s, race.both, b, a, now, first) <==>
              forall k | SnapshotOf(s, k).Some? ::
                Undisturbed(MarkOf(SnapshotOf(s, k)).value, Group(a, k), Group(b, k), Group(b, k), Group(a, k))
  {
    var mid, next;
    race, mid, next := RaceIsAccepted(s, a, b, now, first);
    PagesInTurn(s, a, b, now, first, Identity("", ""));
    PagesInTurn(s, b, a, now, first, Identity("", ""));
    forall k | SnapshotOf(s, k).Some?
      ensures var end := Some(Together(MarkOf(SnapshotOf(s, k)).value, Group(a, k), Group(b, k)));
              MarkOf(SnapshotOf(race.both, k)) == end && MarkOf(SnapshotOf(race.same, k)) == end
    {
      RaceEnds(s, a, b, now, first, race, mid, next, k);
    }
    forall k | SnapshotOf(s, k).Some?
      ensures MarkOf(SnapshotOf(RunPages(s, [Turn(a, now), Turn(b, now)], first).value.store, k)) ==
                AbsorbAll(AbsorbAll(MarkOf(SnapshotOf(s, k)), Group(a, k)), Group(b, k))
      ensures MarkOf(SnapshotOf(RunPages(s, [Turn(b, now), Turn(a, now)], first).value.store, k)) ==
                AbsorbAll(AbsorbAll(MarkOf(SnapshotOf(s, k)), Group(b, k)), Group(a, k))
    {
      PagesInTurn(s, a, b, now, first, k);
      PagesInTurn(s, b, a, now, first, k);
    }
  }

  // For groups of one record each that is StaleCommit's condition.
  lemma UndisturbedOne(m: Mark, q: Record, w: Record)
    requires Confirms(m, q) && StaleCommit.Replaces(m, w)
    ensures Undisturbed(m, [q], [w], [q], [w]) || Undisturbed(m, [q], [w], [w], [q]) <==> Orderly(m, q, w)
  {
    OneAbsorbed(m, q);
    OneAbsorbed(m, w);
    OneAbsorbed(Absorb(Some(m), q), w);
    OneAbsorbed(Absorb(Some(m), w), q);
    JoinedIsInTurnIff(m, q, w);
  }

  lemma OneAbsorbed(m: Mark, r: Record)
    ensures AbsorbAll(Some(m), [r]) == Some(Absorb(Some(m), r))
    ensures Touches(m, [r]) == !Late(m, r) && Replaces(m, [r]) == StaleCommit.Replaces(m, r)
  {
    assert [r][..0] == [] && AbsorbAll(Some(m), []) == Some(m);
    assert !Touches(m, []) && !Replaces(m, []);
  }
}
