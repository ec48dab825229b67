// What the rows of a version say: that its change row and its event tell what changed from the version
// before it, that it carries the content of one record that arrived, and that the product row shows it.
module ChangeRecords {
  import opened Prelude
  import opened Transition
  import opened Batch
  import opened ProductStore
  import opened FoldInvariant
  import opened GroupWrite
  import opened PageRefinement
  import opened VersionChain
  import opened ConcurrentPages
  import opened Marks
  import opened StalePages

  // ---------------------------------------------------------------- what rows tell

  // Fields in alphabetical order.
  function Rank(f: Field): nat {
    match f
    case Attributes => 0
    case Brand => 1
    case CanonicalName => 2
    case Description => 3
    case OriginCountry => 4
  }

  // The fields are those in which the payloads differ, each once, in alphabetical order.
  predicate Lists(fields: seq<Field>, a: Payload, b: Payload) {
    && (Attributes in fields <==> a.attributes != b.attributes)
    && (Brand in fields <==> a.brand != b.brand)
    && (CanonicalName in fields <==> a.canonicalName != b.canonicalName)
    && (Description in fields <==> a.description != b.description)
    && (OriginCountry in fields <==> a.originCountry != b.originCountry)
    && Alphabetical(fields)
  }

  predicate Alphabetical(fields: seq<Field>) {
    forall i, j | 0 <= i < j < |fields| :: Rank(fields[i]) < Rank(fields[j])
  }

  lemma OneFieldMore(fields: seq<Field>, f: Field, a: Payload, b: Payload)
    requires Alphabetical(fields) && forall g | g in fields :: Rank(g) < Rank(f)
    ensures Alphabetical(fields + Only(f, a, b)) && forall g | g in fields + Only(f, a, b) :: Rank(g) <= Rank(f)
  {
    forall i | 0 <= i < |fields| ensures Rank(fields[i]) < Rank(f) {
      assert fields[i] in fields;
    }
  }

  lemma FieldChangesOrdered(a: Payload, b: Payload)
    ensures Alphabetical(FieldChanges(a, b))
  {
    OneFieldMore([], Attributes, a, b);
    assert [] + Only(Attributes, a, b) == Only(Attributes, a, b);
    OneFieldMore(Only(Attributes, a, b), Brand, a, b);
    OneFieldMore(Only(Attributes, a, b) + Only(Brand, a, b), CanonicalName, a, b);
    var three := Only(Attributes, a, b) + Only(Brand, a, b) + Only(CanonicalName, a, b);
    OneFieldMore(three, Description, a, b);
    OneFieldMore(three + Only(Description, a, b), OriginCountry, a, b);
  }

  lemma FieldChangesList(a: Payload, b: Payload)
    ensures Lists(FieldChanges(a, b), a, b)
  {
    FieldChangesOrdered(a, b);
    var fields := FieldChanges(a, b);
    assert Attributes in fields <==> Differs(Attributes, a, b);
    assert Brand in fields <==> Differs(Brand, a, b);
    assert CanonicalName in fields <==> Differs(CanonicalName, a, b);
    assert Description in fields <==> Differs(Description, a, b);
    assert OriginCountry in fields <==> Differs(OriginCountry, a, b);
  }

  // The change row and the event of version v, which follows `from`.
  predicate Tells(from: Option<Version>, v: Version, c: Change, e: Event) {
    && e.kind == c.kind && e.fields == c.fields && e.fingerprint == v.fingerprint
    && c.runId == v.runId && c.detectedAt == v.createdAt
    && match from
       case None => c.kind.ChangeNew? && c.fields == []
       case Some(u) => c.kind.ChangeChanged? && Lists(c.fields, u.content.canonical, v.content.canonical)
  }

  // The version and its change row carry the record.
  predicate Carries(r: Record, v: Version, c: Change) {
    && v.content == r.content && v.fingerprint == r.fingerprint && v.runId == r.runId
    && c.rawId == r.rawId && c.runId == r.runId
  }

  predicate CarriesOne(rs: seq<Record>, v: Version, c: Change) {
    exists r :: r in rs && Carries(r, v, c)
  }

  // ---------------------------------------------------------------- a fold's rows

  function SeenBy(start: Option<Snapshot>): Option<Version> {
    if start.Some? then start.value.storedVersion else None
  }

  function VersionBefore(seen: Option<Version>, vs: seq<Version>, i: nat): Option<Version>
    requires i <= |vs|
  {
    if i == 0 then seen else Some(vs[i-1])
  }

  predicate TellsAt(seen: Option<Version>, rs: seq<Record>, a: Added, i: nat)
    requires i < |a.versions| == |a.changes| == |a.events|
  {
    && Tells(VersionBefore(seen, a.versions, i), a.versions[i], a.changes[i], a.events[i])
    && CarriesOne(rs, a.versions[i], a.changes[i])
  }

  ghost predicate Telling(seen: Option<Version>, rs: seq<Record>, a: Added) {
    && |a.versions| == |a.changes| == |a.events|
    && forall i | 0 <= i < |a.versions| :: TellsAt(seen, rs, a, i)
  }

  // What one record's step adds.
  lemma StepTells(cur: Option<Snapshot>, next: Id, r: Record, now: Time)
    requires cur.Some? ==> cur.value.storedVersion.Some?
    ensures var g := Step(cur, next, r, now);
            && g.cur.Some? && |g.added.versions| == |g.added.changes| == |g.added.events| <= 1
            && SeenBy(g.cur) == (if g.added.versions == [] then SeenBy(cur) else Some(g.added.versions[0]))
            && (g.added.versions != [] ==>
                  && Tells(SeenBy(cur), g.added.versions[0], g.added.changes[0], g.added.events[0])
                  && Carries(r, g.added.versions[0], g.added.changes[0]))
  {
    if cur.Some? {
      FieldChangesList(cur.value.storedVersion.value.content.canonical, r.content.canonical);
    }
  }

  lemma TellsEarlier(seen: Option<Version>, rs: seq<Record>, r: Record, a: Added, b: Added, i: nat)
    requires |a.versions| == |a.changes| == |a.events| && |b.versions| == |b.changes| == |b.events|
    requires i < |a.versions| && TellsAt(seen, rs, a, i)
    ensures TellsAt(seen, rs + [r], Both(a, b), i)
  {
    var c := Both(a, b);
    assert c.versions[i] == a.versions[i] && c.changes[i] == a.changes[i] && c.events[i] == a.events[i];
    assert 0 < i ==> c.versions[i-1] == a.versions[i-1];
    var x :| x in rs && Carries(x, a.versions[i], a.changes[i]);
    assert x in rs + [r];
  }

  lemma TellsLast(seen: Option<Version>, rs: seq<Record>, r: Record, a: Added, b: Added)
    requires |a.versions| == |a.changes| == |a.events| && |b.versions| == |b.changes| == |b.events| == 1
    requires Tells(VersionBefore(seen, a.versions, |a.versions|), b.versions[0], b.changes[0], b.events[0])
    requires Carries(r, b.versions[0], b.changes[0])
    ensures TellsAt(seen, rs + [r], Both(a, b), |a.versions|)
  {
    var n, c := |a.versions|, Both(a, b);
    assert c.versions[n] == b.versions[0] && c.changes[n] == b.changes[0] && c.events[n] == b.events[0];
    assert 0 < n ==> c.versions[n-1] == a.versions[n-1];
    assert r in rs + [r];
  }

  lemma TellingSnoc(seen: Option<Version>, rs: seq<Record>, r: Record, a: Added, b: Added)
    requires Telling(seen, rs, a) && |b.versions| == |b.changes| == |b.events| <= 1
    requires b.versions != [] ==>
      && Tells(VersionBefore(seen, a.versions, |a.versions|), b.versions[0], b.changes[0], b.events[0])
      && Carries(r, b.versions[0], b.changes[0])
    ensures Telling(seen, rs + [r], Both(a, b))
  {
    var c := Both(a, b);
    forall i | 0 <= i < |c.versions| ensures TellsAt(seen, rs + [r], c, i) {
      if i < |a.versions| { TellsEarlier(seen, rs, r, a, b, i); } else { TellsLast(seen, rs, r, a, b); }
    }
  }

  // For every snapshot with its version and every group: each version the fold adds has a change row and an
  // event that tell what changed since the version before it, and carries one record of the group.
  lemma {:induction false} FoldTells(start: Option<Snapshot>, first: Id, rs: seq<Record>, now: Time)
    requires start.Some? ==> start.value.storedVersion.Some?
    ensures var f := ApplyAll(Begin(start, first), rs, now);
            && Telling(SeenBy(start), rs, f.added)
            && SeenBy(f.cur) == VersionBefore(SeenBy(start), f.added.versions, |f.added.versions|)
            && (f.cur.Some? ==> f.cur.value.storedVersion.Some?)
  {
    if rs != [] {
      var init, r := rs[..|rs|-1], rs[|rs|-1];
      FoldTells(start, first, init, now);
      var f := ApplyAll(Begin(start, first), init, now);
      StepTells(f.cur, f.next, r, now);
      TellingSnoc(SeenBy(start), init, r, f.added, Step(f.cur, f.next, r, now).added);
      assert rs == init + [r];
    }
  }

  // ---------------------------------------------------------------- the tables

  // Version v has a change row and an event that tell what changed since the version before it.
  predicate ToldAt(s: Store, v: Id)
    requires v in s.versions
  {
    && v + 1 in s.changes && v + 2 in s.events
    && var from := s.changes[v+1].fromVersionId;
       && (from.Some? ==> from.value in s.versions)
       && Tells(if from.None? then None else Some(s.versions[from.value]), s.versions[v], s.changes[v+1], s.events[v+2])
  }

  ghost predicate AllTold(s: Store) {
    forall v | v in s.versions :: ToldAt(s, v)
  }

  predicate Shows(d: Display, c: Content) {
    && d.canonicalName == c.canonicalName && d.description == c.description
    && d.brand == c.brand && d.originCountry == c.originCountry
  }

  // The product row shows its current version.
  predicate ShownAt(s: Store, p: Id)
    requires p in s.products
  {
    var c := s.products[p].currentVersionId;
    c.Some? && c.value in s.versions ==> Shows(s.products[p].display, s.versions[c.value].content)
  }

  ghost predicate AllShown(s: Store) {
    forall p | p in s.products :: ShownAt(s, p)
  }

  ghost predicate Faithful(s: Store) {
    AllTold(s) && AllShown(s)
  }

  lemma OldStaysTold(s: Store, t: Store, a: Added, v: Id)
    requires AllGrown(s, t, a) && v in s.versions && ToldAt(s, v)
    ensures v in t.versions && ToldAt(t, v)
  {
    GrownOld(s.versions, t.versions, a.versions, VersionKey, v);
    GrownOld(s.changes, t.changes, a.changes, ChangeKey, v + 1);
    GrownOld(s.events, t.events, a.events, EventKey, v + 2);
    var from := s.changes[v+1].fromVersionId;
    if from.Some? { GrownOld(s.versions, t.versions, a.versions, VersionKey, from.value); }
  }

  lemma NewIsTold(s: Store, t: Store, start: Option<Snapshot>, pid: Id, rs: seq<Record>, a: Added, base: nat, first: Id,
                  next: Id, i: nat)
    requires AllGrown(s, t, a) && Rows(base, pid, a, first, next) && Linked(CurrentOf(start), pid, a)
    requires Telling(SeenBy(start), rs, a) && i < |a.versions|
    requires SeenIn(s, start)
    ensures a.versions[i].id in t.versions && ToldAt(t, a.versions[i].id)
    ensures t.versions[a.versions[i].id] == a.versions[i]
    ensures CarriesOne(rs, a.versions[i], t.changes[a.versions[i].id + 1])
  {
    GrownAt(s.versions, t.versions, a.versions, VersionKey, i);
    GrownAt(s.changes, t.changes, a.changes, ChangeKey, i);
    GrownAt(s.events, t.events, a.events, EventKey, i);
    assert LinkedAt(CurrentOf(start), pid, a, i) && TellsAt(SeenBy(start), rs, a, i);
    if i > 0 {
      GrownAt(s.versions, t.versions, a.versions, VersionKey, i - 1);
    } else if start.Some? {
      GrownOld(s.versions, t.versions, a.versions, VersionKey, CurrentOf(start).value);
    }
  }

  // Each version that is new in t carries a record of the group.
  ghost predicate NewCarry(s: Store, t: Store, rs: seq<Record>) {
    forall v | v in t.versions && v !in s.versions ::
      v + 1 in t.changes && CarriesOne(rs, t.versions[v], t.changes[v+1])
  }

  // The snapshot's version is the one the tables have under its identifier.
  ghost predicate SeenIn(s: Store, start: Option<Snapshot>) {
    start.Some? ==>
      CurrentOf(start).Some? && CurrentOf(start).value in s.versions
      && SeenBy(start) == Some(s.versions[CurrentOf(start).value])
  }

  lemma GrownNew<T>(old': map<Id, T>, t: map<Id, T>, rows: seq<T>, key: T -> Id, k: Id) returns (i: nat)
    requires Grown(old', t, rows, key) && k in t && k !in old'
    ensures i < |rows| && rows[i] == t[k] && key(t[k]) == k
  {
    i :| 0 <= i < |rows| && rows[i] == t[k];
  }

  // t is s with the rows of a fold of rs from start.
  ghost predicate Extended(s: Store, t: Store, start: Option<Snapshot>, pid: Id, rs: seq<Record>, a: Added, base: nat,
                           first: Id, next: Id) {
    && AllGrown(s, t, a) && Rows(base, pid, a, first, next) && Linked(CurrentOf(start), pid, a)
    && Telling(SeenBy(start), rs, a) && SeenIn(s, start)
  }

  lemma AddedIsTold(s: Store, t: Store, start: Option<Snapshot>, pid: Id, rs: seq<Record>, a: Added, base: nat,
                    first: Id, next: Id, v: Id)
    requires Extended(s, t, start, pid, rs, a, base, first, next) && v in t.versions && v !in s.versions
    ensures ToldAt(t, v) && CarriesOne(rs, t.versions[v], t.changes[v+1])
  {
    var i := GrownNew(s.versions, t.versions, a.versions, VersionKey, v);
    NewIsTold(s, t, start, pid, rs, a, base, first, next, i);
  }

  lemma VersionIsTold(s: Store, t: Store, start: Option<Snapshot>, pid: Id, rs: seq<Record>, a: Added, base: nat,
                      first: Id, next: Id, v: Id)
    requires AllTold(s) && Extended(s, t, start, pid, rs, a, base, first, next) && v in t.versions
    ensures ToldAt(t, v) && (v !in s.versions ==> CarriesOne(rs, t.versions[v], t.changes[v+1]))
  {
    if v in s.versions {
      OldStaysTold(s, t, a, v);
    } else {
      AddedIsTold(s, t, start, pid, rs, a, base, first, next, v);
    }
  }

  lemma GrownIsTold(s: Store, t: Store, start: Option<Snapshot>, pid: Id, rs: seq<Record>, a: Added, base: nat,
                    first: Id, next: Id)
    requires AllTold(s) && Extended(s, t, start, pid, rs, a, base, first, next)
    ensures AllTold(t) && NewCarry(s, t, rs)
  {
    forall v | v in t.versions
      ensures ToldAt(t, v) && (v !in s.versions ==> CarriesOne(rs, t.versions[v], t.changes[v+1])) {
      VersionIsTold(s, t, start, pid, rs, a, base, first, next, v);
    }
  }

  // ---------------------------------------------------------------- what the product shows

  // Products other than pid.
  lemma OthersShown(s: Store, t: Store, a: Added, pid: Id, next: Id)
    requires AllShown(s) && Chain(s, next) && AllGrown(s, t, a)
    requires forall p | p in t.products && p != pid ::
               p in s.products && t.products[p].currentVersionId == s.products[p].currentVersionId
               && t.products[p].display == s.products[p].display
    ensures forall p | p in t.products && p != pid :: ShownAt(t, p)
  {
    forall p | p in t.products && p != pid ensures ShownAt(t, p) {
      assert ShownAt(s, p);
      var c := s.products[p].currentVersionId.value;
      assert c in s.versions;
      GrownOld(s.versions, t.versions, a.versions, VersionKey, c);
    }
  }

  // Product pid at the last version added.
  lemma RowShown(s: Store, t: Store, a: Added, pid: Id, row: ProductRow, next: Id)
    requires AllShown(s) && Chain(s, next) && AllGrown(s, t, a) && t.products == s.products[pid := row]
    requires a.versions != [] && row.currentVersionId == Some(a.versions[|a.versions|-1].id)
    requires Shows(row.display, a.versions[|a.versions|-1].content)
    ensures AllShown(t)
  {
    GrownAt(s.versions, t.versions, a.versions, VersionKey, |a.versions| - 1);
    OthersShown(s, t, a, pid, next);
  }

  lemma NewProductsAre(s: Store, k: Identity, start: Option<Snapshot>, f: Fold, first: Id, next: Id, now: Time)
    requires Accepted(s, k, start, f, first, next, now) && start.None?
    ensures f.added.versions != [] && f.cur.value.storedVersion == Some(f.added.versions[|f.added.versions|-1])
    ensures Written(s, Emit(start, f, k, now)).products ==
              s.products[f.cur.value.productId :=
                InsertedProduct(f.cur.value, f.added.versions[|f.added.versions|-1], now)]
    ensures f.cur.value.currentVersionId == Some(f.added.versions[|f.added.versions|-1].id)
  {
    NewPlaced(s, k, start, f, first, next, now);
  }

  lemma NewShown(s: Store, k: Identity, start: Option<Snapshot>, f: Fold, first: Id, next: Id, now: Time)
    requires AllShown(s) && Chain(s, next) && Accepted(s, k, start, f, first, next, now) && start.None?
    requires AllGrown(s, Written(s, Emit(start, f, k, now)), f.added)
    ensures AllShown(Written(s, Emit(start, f, k, now)))
  {
    NewProductsAre(s, k, start, f, first, next, now);
    RowShown(s, Written(s, Emit(start, f, k, now)), f.added, f.cur.value.productId,
             InsertedProduct(f.cur.value, f.added.versions[|f.added.versions|-1], now), next);
  }

  // The guarded move of a known product.
  lemma MovedProducts(s: Store, k: Identity, start: Option<Snapshot>, f: Fold, first: Id, now: Time)
    requires start.Some? && StateInv(start, f, first) && f.cur.Some? && f.added.versions != []
    requires MovesMatch(s.products, Emit(start, f, k, now).moves)
    ensures var cur := f.cur.value;
            && cur.productId in s.products
            && Written(s, Emit(start, f, k, now)).products ==
                 s.products[cur.productId :=
                   MovedRow(s.products[cur.productId], MoveTo(start.value, cur, cur.storedVersion.value, now))]
  {
    var p, cur := Emit(start, f, k, now), f.cur.value;
    assert p.products == [] && p.fingerprints == [] && p.moves == [p.moves[0]];
    AddNothing(s.products);
    IndexOne(p.moves[0], MoveKey);
    assert p.moves[0].productId == cur.productId;
    MovedByOne(s.products, cur.productId, p.moves[0]);
    ByNone(Moved(s.products, Index(p.moves, MoveKey)), s.sources);
  }

  lemma MovedShown(s: Store, k: Identity, start: Option<Snapshot>, f: Fold, first: Id, next: Id, now: Time)
    requires AllShown(s) && Chain(s, next) && Accepted(s, k, start, f, first, next, now) && start.Some?
    requires f.added.versions != [] && AllGrown(s, Written(s, Emit(start, f, k, now)), f.added)
    ensures AllShown(Written(s, Emit(start, f, k, now)))
  {
    var cur := f.cur.value;
    KnownGuard(s, k, start, f, now);
    MovedProducts(s, k, start, f, first, now);
    RowShown(s, Written(s, Emit(start, f, k, now)), f.added, cur.productId,
             MovedRow(s.products[cur.productId], MoveTo(start.value, cur, cur.storedVersion.value, now)), next);
  }

  lemma StayingShown(s: Store, k: Identity, start: Option<Snapshot>, f: Fold, now: Time, next: Id)
    requires AllShown(s) && Chain(s, next) && start.Some? && f.added.versions == []
    requires AllGrown(s, Written(s, Emit(start, f, k, now)), f.added)
    ensures AllShown(Written(s, Emit(start, f, k, now)))
  {
    var t, p := Written(s, Emit(start, f, k, now)), Emit(start, f, k, now);
    assert p.products == [] && p.moves == [];
    AddNothing(s.products);
    ByNone(s.products, s.sources);
    assert t.products == Fingerprinted(s.products, Index(p.fingerprints, FingerprintKey));
    forall q | q in t.products ensures ShownAt(t, q) {
      assert ShownAt(s, q);
      GrownOld(s.versions, t.versions, f.added.versions, VersionKey, s.products[q].currentVersionId.value);
    }
  }

  // ---------------------------------------------------------------- pages and runs

  lemma PastIsSeen(s: Store, k: Identity, start: Option<Snapshot>)
    requires PastStart(s, k, start)
    ensures SeenIn(s, start) && (start.Some? ==> start.value.storedVersion.Some?)
  {}

  lemma GroupGrows(s: Store, k: Identity, start: Option<Snapshot>, f: Fold, first: Id, next: Id, now: Time)
    requires Accepted(s, k, start, f, first, next, now)
    ensures AllGrown(s, Written(s, Emit(start, f, k, now)), f.added)
    ensures Rows(BaseNumber(start), f.cur.value.productId, f.added, first, next)
  {
    AcceptedRows(s, k, start, f, first, next, now);
    TablesAllGrown(s, Written(s, Emit(start, f, k, now)), f.cur.value.productId, BaseNumber(start), f.added, first,
                   next);
  }

  // Identity k has the product.
  predicate Belongs(s: Store, k: Identity, pid: Id) {
    k in s.byIdentity && s.byIdentity[k] in s.sources && s.sources[s.byIdentity[k]].productId == pid
  }

  // Version v carries one of the records, of the identity whose product it is a version of.
  predicate CarriesOwn(s: Store, rs: seq<Record>, v: Id) {
    v in s.versions && v + 1 in s.changes
    && exists r :: r in rs && Carries(r, s.versions[v], s.changes[v+1])
                   && Belongs(s, r.identity, s.versions[v].productId)
  }

  // So does each version that t has and s has not; and t keeps the rows of s.
  ghost predicate Continues(s: Store, t: Store, rs: seq<Record>) {
    && Keeps(s, t) && (forall c | c in s.changes :: c in t.changes && t.changes[c] == s.changes[c])
    && forall v | v in t.versions && v !in s.versions :: CarriesOwn(t, rs, v)
  }

  lemma GroupBelongs(s: Store, k: Identity, start: Option<Snapshot>, f: Fold, first: Id, next: Id, now: Time)
    requires Accepted(s, k, start, f, first, next, now)
    ensures Belongs(Written(s, Emit(start, f, k, now)), k, f.cur.value.productId)
  {
    if start.None? {
      NewPlaced(s, k, start, f, first, next, now);
    } else {
      KnownSources(s, k, start, f, now);
    }
  }

  lemma GroupContinues(s: Store, k: Identity, start: Option<Snapshot>, f: Fold, rs: seq<Record>, first: Id, next: Id,
                       now: Time)
    requires Chain(s, next) && Accepted(s, k, start, f, first, next, now) && forall r | r in rs :: r.identity == k
    requires NewCarry(s, Written(s, Emit(start, f, k, now)), rs)
    ensures Continues(s, Written(s, Emit(start, f, k, now)), rs)
  {
    var t := Written(s, Emit(start, f, k, now));
    GroupKeepsChain(s, k, start, f, first, next, now);
    GroupGrows(s, k, start, f, first, next, now);
    GroupBelongs(s, k, start, f, first, next, now);
    GrownCarries(s, t, k, f.cur.value.productId, rs, f.added, BaseNumber(start), first, next);
  }

  lemma GrownCarries(s: Store, t: Store, k: Identity, pid: Id, rs: seq<Record>, a: Added, base: nat, first: Id,
                     next: Id)
    requires AllGrown(s, t, a) && Rows(base, pid, a, first, next) && Belongs(t, k, pid) && NewCarry(s, t, rs)
    requires forall r | r in rs :: r.identity == k
    ensures forall v | v in t.versions && v !in s.versions :: CarriesOwn(t, rs, v)
    ensures forall c | c in s.changes :: c in t.changes && t.changes[c] == s.changes[c]
  {
    forall v | v in t.versions && v !in s.versions ensures CarriesOwn(t, rs, v) {
      var i := GrownNew(s.versions, t.versions, a.versions, VersionKey, v);
      assert CarriesOne(rs, t.versions[v], t.changes[v+1]);
    }
  }

  // An accepted group keeps the tables faithful.
  lemma GroupIsFaithful(s: Store, k: Identity, start: Option<Snapshot>, first: Id, rs: seq<Record>, next: Id, now: Time)
    requires Chain(s, next) && Faithful(s) && forall r | r in rs :: r.identity == k
    requires Accepted(s, k, start, ApplyAll(Begin(start, first), rs, now), first, next, now)
    ensures var t := Written(s, Emit(start, ApplyAll(Begin(start, first), rs, now), k, now));
            Faithful(t) && Continues(s, t, rs)
  {
    var f := ApplyAll(Begin(start, first), rs, now);
    var t := Written(s, Emit(start, f, k, now));
    PastIsSeen(s, k, start);
    FoldTells(start, first, rs, now);
    GroupGrows(s, k, start, f, first, next, now);
    GrownIsTold(s, t, start, f.cur.value.productId, rs, f.added, BaseNumber(start), first, next);
    GroupContinues(s, k, start, f, rs, first, next, now);
    if start.None? {
      NewShown(s, k, start, f, first, next, now);
    } else if f.added.versions != [] {
      MovedShown(s, k, start, f, first, next, now);
    } else {
      StayingShown(s, k, start, f, now, next);
    }
  }

  lemma CarriedStays(s: Store, t: Store, a: seq<Record>, b: seq<Record>, v: Id)
    requires CarriesOwn(s, a, v) && Keeps(s, t)
    requires forall c | c in s.changes :: c in t.changes && t.changes[c] == s.changes[c]
    requires forall r | r in a :: r in b
    ensures CarriesOwn(t, b, v)
  {
    var r :| r in a && Carries(r, s.versions[v], s.changes[v+1]) && Belongs(s, r.identity, s.versions[v].productId);
    assert r in b;
  }

  lemma ContinuesFurther(s: Store, mid: Store, t: Store, rs: seq<Record>, page: seq<Record>)
    requires Continues(s, mid, page) && Continues(mid, t, rs) && forall r | r in rs :: r in page
    ensures Continues(s, t, page)
  {
    KeepsTransitive(s, mid, t);
    forall v | v in t.versions && v !in s.versions ensures CarriesOwn(t, page, v) {
      if v in mid.versions {
        CarriedStays(mid, t, page, page, v);
      } else {
        CarriedStays(t, t, rs, page, v);
      }
    }
  }

  // The last group of a page, on what the groups before it left.
  lemma LastGroupIsFaithful(s: Store, mid: Store, snaps: map<Identity, Snapshot>, page: seq<Record>, k: Identity,
                            now: Time, n: Id, next: Id)
    requires k in Identities(page) && AllPast(s, snaps) && Keeps(s, mid) && Chain(mid, next) && Faithful(mid)
    requires FoldOf(snaps, page, k, n, now).next <= next
    requires ApplyPlan(mid, Emit(StartOf(snaps, k), FoldOf(snaps, page, k, n, now), k, now)).Applied?
    ensures var end := Written(mid, Emit(StartOf(snaps, k), FoldOf(snaps, page, k, n, now), k, now));
            Faithful(end) && Continues(mid, end, Group(page, k))
  {
    AllStayPast(s, mid, snaps);
    PastIsNamed(mid, snaps, k);
    FoldOfGroup(snaps, page, k, n, now);
    GroupedRecords(page, k);
    GroupIsFaithful(mid, k, StartOf(snaps, k), n, Group(page, k), next, now);
  }

  // For every chained store and page decided on snapshots read from it at any time: an accepted page keeps
  // the tables faithful, and each version it adds carries one record of the page.
  lemma {:induction false} PageIsFaithful(s: Store, snaps: map<Identity, Snapshot>, page: seq<Record>,
                                          ids: seq<Identity>, now: Time, first: Id, next: Id)
    requires Chain(s, next) && AllPast(s, snaps) && Listed(page, ids) && Faithful(s)
    requires var (plan, n) := DecideGroups(snaps, page, ids, now, first); n <= next && ApplyPlan(s, plan).Applied?
    ensures var end := ApplyPlan(s, DecideGroups(snaps, page, ids, now, first).0).store;
            Faithful(end) && Continues(s, end, page)
  {
    if ids == [] {
      EmptyPlanApplies(s);
      KeepsSelf(s);
    } else {
      var n, mid := PageSplits(s, snaps, page, ids, now, first, next);
      var j := ids[|ids|-1];
      ListedInit(page, ids);
      DecideLast(snaps, page, ids, now, first);
      PageIsFaithful(s, snaps, page, ids[..|ids|-1], now, first, next);
      LastGroupIsFaithful(s, mid, snaps, page, j, now, n, next);
      GroupedRecords(page, j);
      ContinuesFurther(s, mid, Written(mid, Emit(StartOf(snaps, j), FoldOf(snaps, page, j, n, now), j, now)),
                       Group(page, j), page);
    }
  }

  // The record is on a page some worker decided.
  ghost predicate Arrived(actions: seq<Action>, r: Record) {
    exists i :: 0 <= i < |actions| && actions[i].Decide? && r in actions[i].page
  }

  // Version v carries a record that arrived, of the identity whose product it is a version of.
  ghost predicate CarriesArrived(actions: seq<Action>, s: Store, v: Id) {
    exists rs :: CarriesOwn(s, rs, v) && forall r | r in rs :: Arrived(actions, r)
  }

  ghost predicate AllCarry(actions: seq<Action>, y: System) {
    && (forall v | v in y.store.versions :: CarriesArrived(actions, y.store, v))
    && (forall w, r | w in y.work && r in y.work[w].page :: Arrived(actions, r))
  }

  lemma ArrivedStays(actions: seq<Action>, r: Record)
    requires actions != [] && Arrived(actions[..|actions|-1], r)
    ensures Arrived(actions, r)
  {
    var i :| 0 <= i < |actions| - 1 && actions[..|actions|-1][i].Decide? && r in actions[..|actions|-1][i].page;
    assert actions[i] == actions[..|actions|-1][i];
  }

  lemma CarriesArrivedStays(actions: seq<Action>, s: Store, t: Store, v: Id)
    requires actions != [] && CarriesArrived(actions[..|actions|-1], s, v) && Keeps(s, t)
    requires forall c | c in s.changes :: c in t.changes && t.changes[c] == s.changes[c]
    ensures CarriesArrived(actions, t, v)
  {
    var init := actions[..|actions|-1];
    var rs :| CarriesOwn(s, rs, v) && forall r | r in rs :: Arrived(init, r);
    CarriedStays(s, t, rs, rs, v);
    forall r | r in rs ensures Arrived(actions, r) { ArrivedStays(actions, r); }
  }

  lemma WorkStays(actions: seq<Action>, y: System, z: System)
    requires actions != [] && AllCarry(actions[..|actions|-1], y)
    requires forall w | w in z.work :: w in y.work && z.work[w] == y.work[w]
    ensures forall w, r | w in z.work && r in z.work[w].page :: Arrived(actions, r)
  {
    forall w, r | w in z.work && r in z.work[w].page ensures Arrived(actions, r) {
      ArrivedStays(actions, r);
    }
  }

  lemma VersionsStay(actions: seq<Action>, y: System)
    requires actions != [] && AllCarry(actions[..|actions|-1], y)
    ensures forall v | v in y.store.versions :: CarriesArrived(actions, y.store, v)
  {
    KeepsSelf(y.store);
    forall v | v in y.store.versions ensures CarriesArrived(actions, y.store, v) {
      CarriesArrivedStays(actions, y.store, y.store, v);
    }
  }

  lemma DecideCarries(actions: seq<Action>, y: System, w: WorkerId, page: seq<Record>, now: Time)
    requires actions != [] && AllCarry(actions[..|actions|-1], y) && actions[|actions|-1] == Decide(w, page, now)
    ensures AllCarry(actions, Next(y, Decide(w, page, now)))
  {
    VersionsStay(actions, y);
    var z := Next(y, Decide(w, page, now));
    forall x, r | x in z.work && r in z.work[x].page ensures Arrived(actions, r) {
      if x == w {
        assert actions[|actions|-1].Decide? && r in actions[|actions|-1].page;
      } else {
        ArrivedStays(actions, r);
      }
    }
  }

  lemma CommitIsFaithful(y: System, w: WorkerId)
    requires Inv(y) && Faithful(y.store) && w in y.work && ApplyPlan(y.store, DecidedPlan(y.work[w]).0).Applied?
    ensures Faithful(Next(y, Commit(w)).store) && Continues(y.store, Next(y, Commit(w)).store, y.work[w].page)
  {
    var work := y.work[w];
    assert Held(y, work);
    AllListed(work.page);
    PageIsFaithful(y.store, work.snapshots, work.page, Identities(work.page), work.now, work.first, y.next);
  }

  lemma CommitCarries(actions: seq<Action>, y: System, w: WorkerId)
    requires actions != [] && AllCarry(actions[..|actions|-1], y)
    requires w in y.work && Continues(y.store, Next(y, Commit(w)).store, y.work[w].page)
    requires ApplyPlan(y.store, DecidedPlan(y.work[w]).0).Applied?
    ensures AllCarry(actions, Next(y, Commit(w)))
  {
    var z := Next(y, Commit(w));
    WorkStays(actions, y, z);
    forall v | v in z.store.versions ensures CarriesArrived(actions, z.store, v) {
      if v in y.store.versions {
        CarriesArrivedStays(actions, y.store, z.store, v);
      } else {
        assert CarriesOwn(z.store, y.work[w].page, v);
        forall r | r in y.work[w].page ensures Arrived(actions, r) { ArrivedStays(actions, r); }
      }
    }
  }

  lemma StepIsFaithful(actions: seq<Action>, y: System, a: Action)
    requires actions != [] && AllCarry(actions[..|actions|-1], y) && actions[|actions|-1] == a
    requires Inv(y) && Faithful(y.store)
    ensures Faithful(Next(y, a).store) && AllCarry(actions, Next(y, a))
  {
    match a
    case Decide(w, page, now) => DecideCarries(actions, y, w, page, now);
    case Commit(w) =>
      if w in y.work && ApplyPlan(y.store, DecidedPlan(y.work[w]).0).Applied? {
        CommitIsFaithful(y, w);
        CommitCarries(actions, y, w);
      } else {
        VersionsStay(actions, y);
        WorkStays(actions, y, Next(y, a));
      }
    case Crash(w) =>
      VersionsStay(actions, y);
      WorkStays(actions, y, Next(y, a));
  }

  lemma InitialIsFaithful()
    ensures Faithful(Initial.store) && AllCarry([], Initial)
  {}

  lemma RunSnoc(actions: seq<Action>) returns (y: System)
    requires actions != []
    ensures y == Run(actions[..|actions|-1]) && Run(actions) == Next(y, actions[|actions|-1])
  {
    y := Run(actions[..|actions|-1]);
  }

  lemma {:induction false} RunIsFaithful(actions: seq<Action>)
    ensures Faithful(Run(actions).store) && AllCarry(actions, Run(actions))
  {
    if actions == [] {
      InitialIsFaithful();
    } else {
      RunIsFaithful(actions[..|actions|-1]);
      RunHolds(actions[..|actions|-1]);
      var y := RunSnoc(actions);
      StepIsFaithful(actions, y, actions[|actions|-1]);
    }
  }

  // For every interleaving of reads, commits and crashes: the change row and the event of each version say
  // NEW with no field for a first version, and otherwise CHANGED with exactly the fields in which the
  // contents of this and the version before it differ; the version carries a record of its product's
  // identity that arrived, its change row names that record and its run; and each product row shows its
  // current version.
  lemma EveryVersionTells(actions: seq<Action>)
    ensures var s := Run(actions).store;
            && (forall v | v in s.versions :: ToldAt(s, v) && CarriesArrived(actions, s, v))
            && (forall p | p in s.products :: ShownAt(s, p))
  {
    RunIsFaithful(actions);
  }
}
