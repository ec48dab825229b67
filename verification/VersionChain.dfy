// Many workers read snapshots and later commit pages decided on them. Whatever the interleaving, every
// product keeps one chain of versions numbered 1..n, with one change row and one event per version.
module VersionChain {
  import opened Prelude
  import opened Transition
  import opened Batch
  import opened ProductStore
  import opened FoldInvariant

  // ---------------------------------------------------------------- the chain

  // u is the version of the same product numbered one below v.
  predicate Precedes(s: Store, u: Id, v: Version) {
    u in s.versions && s.versions[u].productId == v.productId && s.versions[u].number + 1 == v.number
  }

  // Version v has its change row, linked to the version before it, and its event.
  predicate Recorded(s: Store, v: Version) {
    && v.id + 1 in s.changes && s.changes[v.id + 1].toVersionId == v.id && s.changes[v.id + 1].productId == v.productId
    && v.id + 2 in s.events && s.events[v.id + 2].versionId == v.id
    && s.events[v.id + 2].productId == v.productId && s.events[v.id + 2].versionNumber == v.number
    && match s.changes[v.id + 1].fromVersionId
       case None => v.number == 1
       case Some(u) => Precedes(s, u, v)
  }

  // Within one product, a number identifies a version.
  ghost predicate NumbersUnique(s: Store) {
    forall v, w | v in s.versions && w in s.versions && s.versions[v].productId == s.versions[w].productId
                  && s.versions[v].number == s.versions[w].number :: v == w
  }

  ghost predicate AllCurrent(s: Store) {
    forall p | p in s.products :: s.products[p].currentVersionId.Some?
  }

  ghost predicate AllRecorded(s: Store) {
    forall v | v in s.versions :: Recorded(s, s.versions[v])
  }

  // Change rows and events belong to versions.
  ghost predicate LogsPoint(s: Store) {
    && (forall c | c in s.changes :: s.changes[c].toVersionId in s.versions && s.changes[c].toVersionId + 1 == c)
    && (forall e | e in s.events :: s.events[e].versionId in s.versions && s.events[e].versionId + 2 == e)
  }

  ghost predicate Chain(s: Store, next: Id) {
    && Consistent(s, next)
    && NumbersUnique(s)
    && AllCurrent(s)
    && AllRecorded(s)
    && LogsPoint(s)
  }

  // ---------------------------------------------------------------- what a chain means

  lemma {:induction false} NumberExists(s: Store, next: Id, v: Id, m: nat) returns (w: Id)
    requires Chain(s, next) && v in s.versions && 1 <= m <= s.versions[v].number
    ensures w in s.versions && s.versions[w].productId == s.versions[v].productId && s.versions[w].number == m
    decreases s.versions[v].number
  {
    if m == s.versions[v].number {
      w := v;
    } else {
      assert Recorded(s, s.versions[v]) && s.versions[v].id == v;
      var u := s.changes[v + 1].fromVersionId.value;
      assert Precedes(s, u, s.versions[v]);
      w := NumberExists(s, next, u, m);
    }
  }

  ghost predicate HasNumber(s: Store, p: Id, m: nat) {
    exists v :: v in s.versions && s.versions[v].productId == p && s.versions[v].number == m
  }

  // Every product's version numbers are exactly 1..n, each once, and the product row points at n.
  lemma VersionsAreNumberedOneToN(s: Store, next: Id, p: Id)
    requires Chain(s, next) && p in s.products
    ensures s.products[p].currentVersionId.Some? && s.products[p].currentVersionId.value in s.versions
    ensures var n := s.versions[s.products[p].currentVersionId.value].number;
            forall m: nat :: HasNumber(s, p, m) <==> 1 <= m <= n
  {
    var c := s.products[p].currentVersionId.value;
    var n := s.versions[c].number;
    forall m: nat ensures HasNumber(s, p, m) <==> 1 <= m <= n {
      if 1 <= m <= n {
        var w := NumberExists(s, next, c, m);
      }
      forall v | v in s.versions && s.versions[v].productId == p ensures 1 <= s.versions[v].number <= n {
        assert Recorded(s, s.versions[v]) && Bounded(s, s.versions[v]);
      }
    }
  }

  function Shifted(d: int): Id -> Id { x => x + d }

  lemma NoFewerChanges(s: Store, next: Id)
    requires AllRecorded(s) && VersionsOk(s, next)
    ensures |s.versions.Keys| <= |s.changes.Keys|
  {
    forall v | v in s.versions ensures Shifted(1)(v) in s.changes {
      assert Recorded(s, s.versions[v]) && s.versions[v].id == v;
    }
    NoMore(s.versions.Keys, s.changes.Keys, Shifted(1));
  }

  lemma NoFewerEvents(s: Store, next: Id)
    requires AllRecorded(s) && VersionsOk(s, next)
    ensures |s.versions.Keys| <= |s.events.Keys|
  {
    forall v | v in s.versions ensures Shifted(2)(v) in s.events {
      assert Recorded(s, s.versions[v]) && s.versions[v].id == v;
    }
    NoMore(s.versions.Keys, s.events.Keys, Shifted(2));
  }

  lemma NoMoreLogs(s: Store)
    requires LogsPoint(s)
    ensures |s.changes.Keys| <= |s.versions.Keys| && |s.events.Keys| <= |s.versions.Keys|
  {
    assert forall c | c in s.changes :: Shifted(-1)(c) == s.changes[c].toVersionId;
    NoMore(s.changes.Keys, s.versions.Keys, Shifted(-1));
    assert forall e | e in s.events :: Shifted(-2)(e) == s.events[e].versionId;
    NoMore(s.events.Keys, s.versions.Keys, Shifted(-2));
  }

  // Every version is recorded by exactly one change row and exactly one event, and there are no others.
  lemma OneChangeAndOneEventPerVersion(s: Store, next: Id)
    requires Chain(s, next)
    ensures forall c, d | c in s.changes && d in s.changes && s.changes[c].toVersionId == s.changes[d].toVersionId ::
              c == d
    ensures forall d, e | d in s.events && e in s.events && s.events[d].versionId == s.events[e].versionId :: d == e
    ensures |s.events| == |s.versions| == |s.changes|
  {
    NoFewerChanges(s, next);
    NoFewerEvents(s, next);
    NoMoreLogs(s);
    assert |s.events| == |s.events.Keys| && |s.versions| == |s.versions.Keys| && |s.changes| == |s.changes.Keys|;
  }

  // A set that maps into another without collisions is no larger.
  lemma {:induction false} NoMore<T>(a: set<T>, b: set<T>, f: T -> T)
    requires forall x | x in a :: f(x) in b
    requires forall x, y | x in a && y in a && f(x) == f(y) :: x == y
    ensures |a| <= |b|
    decreases a
  {
    if a != {} {
      var x :| x in a;
      NoMore(a - {x}, b - {f(x)}, f);
    }
  }

  // ---------------------------------------------------------------- a fold's rows are linked

  // The version before the i-th.
  function Before(prev: Option<Id>, vs: seq<Version>, i: nat): Option<Id>
    requires i <= |vs|
  {
    if i == 0 then prev else Some(vs[i-1].id)
  }

  // Consecutive versions, the first one after `prev`, with the numbers and products the events carry.
  ghost predicate Linked(prev: Option<Id>, product: Id, a: Added) {
    && |a.versions| == |a.changes| == |a.events|
    && forall i | 0 <= i < |a.versions| :: LinkedAt(prev, product, a, i)
  }

  function CurrentOf(start: Option<Snapshot>): Option<Id> {
    if start.Some? then start.value.currentVersionId else None
  }

  function ProductOf(f: Fold): Id {
    if f.cur.Some? then f.cur.value.productId else 0
  }

  // The i-th version, with its change and its event.
  ghost predicate LinkedAt(prev: Option<Id>, product: Id, a: Added, i: nat)
    requires i < |a.versions| == |a.changes| == |a.events|
  {
    && a.changes[i].productId == product
    && a.changes[i].fromVersionId == Before(prev, a.versions, i)
    && a.events[i].versionId == a.versions[i].id && a.events[i].productId == product
    && a.events[i].versionNumber == a.versions[i].number
  }

  lemma LinkedEarlier(prev: Option<Id>, product: Id, a: Added, b: Added, i: nat)
    requires |a.versions| == |a.changes| == |a.events| && |b.versions| == |b.changes| == |b.events|
    requires i < |a.versions| && LinkedAt(prev, product, a, i)
    ensures LinkedAt(prev, product, Both(a, b), i)
  {
    var c := Both(a, b);
    assert c.versions[i] == a.versions[i] && c.changes[i] == a.changes[i] && c.events[i] == a.events[i];
    assert 0 < i ==> c.versions[i-1] == a.versions[i-1];
  }

  lemma LinkedLast(prev: Option<Id>, product: Id, a: Added, b: Added)
    requires |a.versions| == |a.changes| == |a.events| && |b.versions| == |b.changes| == |b.events| == 1
    requires b.changes[0].productId == product == b.events[0].productId
    requires b.changes[0].fromVersionId == Before(prev, a.versions, |a.versions|)
    requires b.events[0].versionId == b.versions[0].id && b.events[0].versionNumber == b.versions[0].number
    ensures LinkedAt(prev, product, Both(a, b), |a.versions|)
  {
    var n, c := |a.versions|, Both(a, b);
    assert c.versions[n] == b.versions[0] && c.changes[n] == b.changes[0] && c.events[n] == b.events[0];
    assert 0 < n ==> c.versions[n-1] == a.versions[n-1];
  }

  lemma LinkedSnoc(prev: Option<Id>, product: Id, a: Added, b: Added)
    requires Linked(prev, product, a) && |b.versions| == |b.changes| == |b.events| <= 1
    requires b.versions != [] ==>
      && b.changes[0].productId == product == b.events[0].productId
      && b.changes[0].fromVersionId == Before(prev, a.versions, |a.versions|)
      && b.events[0].versionId == b.versions[0].id && b.events[0].versionNumber == b.versions[0].number
    ensures Linked(prev, product, Both(a, b))
  {
    var c := Both(a, b);
    forall i | 0 <= i < |c.versions| ensures LinkedAt(prev, product, c, i) {
      if i < |a.versions| { LinkedEarlier(prev, product, a, b, i); } else { LinkedLast(prev, product, a, b); }
    }
  }

  // One record adds at most one version, linked to the snapshot it started from.
  lemma StepLinks(f: Fold, r: Record, now: Time)
    ensures var g := Step(f.cur, f.next, r, now);
            && |g.added.versions| == |g.added.changes| == |g.added.events| <= 1
            && (f.cur.Some? ==> ProductOf(g) == ProductOf(f))
            && (g.added.versions != [] ==>
                  && g.added.changes[0].productId == ProductOf(g) == g.added.events[0].productId
                  && g.added.changes[0].fromVersionId == CurrentOf(f.cur)
                  && g.added.events[0].versionId == g.added.versions[0].id
                  && g.added.events[0].versionNumber == g.added.versions[0].number)
  {}

  lemma LinkedStep(start: Option<Snapshot>, f: Fold, first: Id, r: Record, now: Time)
    requires FoldInv(start, f, first) && Linked(CurrentOf(start), ProductOf(f), f.added)
    ensures Linked(CurrentOf(start), ProductOf(Apply(f, r, now)), Apply(f, r, now).added)
  {
    var g := Step(f.cur, f.next, r, now);
    StepLinks(f, r, now);
    assert Linked(CurrentOf(start), ProductOf(g), f.added);
    LinkedSnoc(CurrentOf(start), ProductOf(g), f.added, g.added);
  }

  lemma {:induction false} LinkedAll(start: Option<Snapshot>, first: Id, rs: seq<Record>, now: Time)
    ensures var f := ApplyAll(Begin(start, first), rs, now); Linked(CurrentOf(start), ProductOf(f), f.added)
  {
    if rs != [] {
      LinkedAll(start, first, rs[..|rs|-1], now);
      FoldAll(start, first, rs[..|rs|-1], now);
      LinkedStep(start, ApplyAll(Begin(start, first), rs[..|rs|-1], now), first, rs[|rs|-1], now);
    }
  }

  // ---------------------------------------------------------------- one more product move keeps the chain

  // t has the rows of s and the rows `a`.
  ghost predicate TablesGrow(s: Store, t: Store, a: Added) {
    && t.versions == s.versions + Index(a.versions, VersionKey)
    && t.changes == s.changes + Index(a.changes, ChangeKey)
    && t.events == s.events + Index(a.events, EventKey)
  }

  // Product `pid` moves from version `prev` to the last of the versions; other products stay.
  ghost predicate ProductMoves(s: Store, t: Store, pid: Id, prev: Option<Id>, vs: seq<Version>) {
    && t.products.Keys == s.products.Keys + {pid}
    && (forall p | p in t.products :: t.products[p].id == p)
    && (forall p | p in s.products && p != pid :: t.products[p].currentVersionId == s.products[p].currentVersionId)
    && t.products[pid].currentVersionId == (if vs == [] then prev else Some(vs[|vs|-1].id))
    && (pid in s.products ==> s.products[pid].currentVersionId == prev)
    && (pid !in s.products ==> prev == None && vs != [])
  }

  function NumberOf(s: Store, prev: Option<Id>): nat {
    if prev.Some? && prev.value in s.versions then s.versions[prev.value].number else 0
  }

  ghost predicate NewRows(s: Store, a: Added) {
    Absent(s.versions, a.versions, VersionKey) && Absent(s.changes, a.changes, ChangeKey)
      && Absent(s.events, a.events, EventKey)
  }

  lemma AddedRow<T>(table: map<Id, T>, rows: seq<T>, key: T -> Id, i: nat)
    requires i < |rows| && Distinct(rows, key)
    ensures var t := table + Index(rows, key); key(rows[i]) in t && t[key(rows[i])] == rows[i]
  {
    IndexKeys(rows, key);
    var k := key(rows[i]);
    var j :| 0 <= j < |rows| && rows[j] == Index(rows, key)[k];
  }

  // The rows of `old` are still there, the added rows are there, and there are no others.
  ghost predicate Grown<T>(old': map<Id, T>, t: map<Id, T>, rows: seq<T>, key: T -> Id) {
    && (forall k | k in old' :: k in t && t[k] == old'[k])
    && (forall i | 0 <= i < |rows| :: key(rows[i]) in t && t[key(rows[i])] == rows[i])
    && (forall k | k in t && k !in old' :: t[k] in rows && key(t[k]) == k)
  }

  lemma GrownAt<T>(old': map<Id, T>, t: map<Id, T>, rows: seq<T>, key: T -> Id, i: nat)
    requires Grown(old', t, rows, key) && i < |rows|
    ensures key(rows[i]) in t && t[key(rows[i])] == rows[i]
  {}

  lemma GrownOld<T>(old': map<Id, T>, t: map<Id, T>, rows: seq<T>, key: T -> Id, k: Id)
    requires Grown(old', t, rows, key) && k in old'
    ensures k in t && t[k] == old'[k]
  {}

  lemma AddedTable<T>(table: map<Id, T>, rows: seq<T>, key: T -> Id)
    requires Distinct(rows, key) && Absent(table, rows, key)
    ensures Grown(table, table + Index(rows, key), rows, key)
  {
    IndexKeys(rows, key);
    forall i | 0 <= i < |rows|
      ensures var t := table + Index(rows, key); key(rows[i]) in t && t[key(rows[i])] == rows[i] {
      AddedRow(table, rows, key, i);
    }
  }

  lemma RowsDistinct(base: nat, product: Id, a: Added, first: Id, next: Id)
    requires Rows(base, product, a, first, next)
    ensures Distinct(a.versions, VersionKey) && Distinct(a.changes, ChangeKey) && Distinct(a.events, EventKey)
  {}

  ghost predicate AllGrown(s: Store, t: Store, a: Added) {
    && Grown(s.versions, t.versions, a.versions, VersionKey)
    && Grown(s.changes, t.changes, a.changes, ChangeKey)
    && Grown(s.events, t.events, a.events, EventKey)
  }

  // Versions of the moved product that were there before are numbered no higher than its last one.
  lemma OldNumbersBelow(s: Store, next: Id, pid: Id, prev: Option<Id>, v: Id)
    requires VersionsOk(s, next) && v in s.versions && s.versions[v].productId == pid
    requires pid in s.products ==> s.products[pid].currentVersionId == prev
    ensures pid in s.products && s.versions[v].number <= NumberOf(s, prev)
  {
    assert Bounded(s, s.versions[v]);
  }

  lemma GrownProducts(s: Store, t: Store, pid: Id, prev: Option<Id>, vs: seq<Version>, next: Id)
    requires ProductsOk(s, next) && AllCurrent(s) && ProductMoves(s, t, pid, prev, vs) && pid < next
    requires Grown(s.versions, t.versions, vs, VersionKey) && forall i | 0 <= i < |vs| :: vs[i].productId == pid
    ensures ProductsOk(t, next) && AllCurrent(t)
  {
    forall p | p in t.products
      ensures t.products[p].currentVersionId.Some? && t.products[p].currentVersionId.value in t.versions
              && t.versions[t.products[p].currentVersionId.value].productId == p
    {
      if p == pid && vs != [] {
        GrownAt(s.versions, t.versions, vs, VersionKey, |vs| - 1);
      } else {
        assert p in s.products && t.products[p].currentVersionId == s.products[p].currentVersionId;
        var c := s.products[p].currentVersionId.value;
        assert c in s.versions && s.versions[c].productId == p;
        GrownOld(s.versions, t.versions, vs, VersionKey, c);
      }
    }
  }

  // The new versions are numbered above the old ones, in order.
  ghost predicate Numbered(base: nat, pid: Id, vs: seq<Version>, next: Id) {
    forall i | 0 <= i < |vs| :: vs[i].productId == pid && vs[i].number == base + 1 + i && vs[i].id < next
  }

  lemma GrownVersions(s: Store, t: Store, pid: Id, prev: Option<Id>, vs: seq<Version>, next: Id)
    requires VersionsOk(s, next) && ProductMoves(s, t, pid, prev, vs) && Numbered(NumberOf(s, prev), pid, vs, next)
    requires Grown(s.versions, t.versions, vs, VersionKey)
    ensures VersionsOk(t, next)
  {
    if vs != [] {
      GrownAt(s.versions, t.versions, vs, VersionKey, |vs| - 1);
    } else if prev.Some? && prev.value in s.versions {
      GrownOld(s.versions, t.versions, vs, VersionKey, prev.value);
    }
    forall v | v in t.versions ensures t.versions[v].id == v && v < next && Bounded(t, t.versions[v]) {
      if v in s.versions {
        assert Bounded(s, s.versions[v]);
        var q := s.versions[v].productId;
        if q == pid {
          OldNumbersBelow(s, next, pid, prev, v);
        } else {
          assert t.products[q].currentVersionId == s.products[q].currentVersionId;
          GrownOld(s.versions, t.versions, vs, VersionKey, s.products[q].currentVersionId.value);
        }
      } else {
        assert t.versions[v] in vs && VersionKey(t.versions[v]) == v;
      }
    }
  }

  lemma GrownNumbers(s: Store, t: Store, pid: Id, prev: Option<Id>, vs: seq<Version>, next: Id)
    requires VersionsOk(s, next) && ProductMoves(s, t, pid, prev, vs) && Numbered(NumberOf(s, prev), pid, vs, next)
    requires Grown(s.versions, t.versions, vs, VersionKey) && NumbersUnique(s)
    ensures NumbersUnique(t)
  {
    forall v, w | v in t.versions && w in t.versions && t.versions[v].productId == t.versions[w].productId
                  && t.versions[v].number == t.versions[w].number
      ensures v == w
    {
      if v in s.versions { assert s.versions[v].productId == pid ==> s.versions[v].number <= NumberOf(s, prev) by {
        if s.versions[v].productId == pid { OldNumbersBelow(s, next, pid, prev, v); } } }
      if w in s.versions { assert s.versions[w].productId == pid ==> s.versions[w].number <= NumberOf(s, prev) by {
        if s.versions[w].productId == pid { OldNumbersBelow(s, next, pid, prev, w); } } }
      assert v !in s.versions ==> VersionKey(t.versions[v]) == v;
      assert w !in s.versions ==> VersionKey(t.versions[w]) == w;
    }
  }

  lemma KeptRecord(s: Store, t: Store, a: Added, v: Id, next: Id)
    requires AllGrown(s, t, a) && v in s.versions && s.versions[v].id == v && Recorded(s, s.versions[v])
    ensures Recorded(t, t.versions[v])
  {}

  lemma NewRecord(s: Store, t: Store, pid: Id, prev: Option<Id>, a: Added, first: Id, next: Id, i: nat)
    requires AllGrown(s, t, a) && Linked(prev, pid, a) && Rows(NumberOf(s, prev), pid, a, first, next)
             && i < |a.versions|
    requires prev.Some? ==> prev.value in s.versions && s.versions[prev.value].productId == pid
    ensures Recorded(t, a.versions[i])
  {
    assert LinkedAt(prev, pid, a, i);
    assert ChangeKey(a.changes[i]) == a.versions[i].id + 1 && EventKey(a.events[i]) == a.versions[i].id + 2;
    assert t.changes[a.versions[i].id + 1] == a.changes[i] && t.events[a.versions[i].id + 2] == a.events[i];
    if i > 0 {
      assert VersionKey(a.versions[i-1]) in t.versions;
      assert Precedes(t, a.versions[i-1].id, a.versions[i]);
    } else if prev.Some? {
      assert Precedes(t, prev.value, a.versions[i]);
    }
  }

  // Change and event rows carry the identifiers after their version's.
  ghost predicate Numbering(a: Added, next: Id) {
    && |a.versions| == |a.changes| == |a.events|
    && forall i | 0 <= i < |a.versions| ::
         && a.versions[i].id + 3 <= next
         && a.changes[i].id == a.versions[i].id + 1 && a.changes[i].toVersionId == a.versions[i].id
         && a.events[i].id == a.versions[i].id + 2 && a.events[i].versionId == a.versions[i].id
  }

  lemma GrownChange(s: Store, t: Store, a: Added, next: Id, c: Id)
    requires AllGrown(s, t, a) && Numbering(a, next) && c in t.changes && c !in s.changes
    ensures t.changes[c].id == c && c < next && t.changes[c].toVersionId in t.versions
            && t.changes[c].toVersionId + 1 == c
  {
    var i :| 0 <= i < |a.changes| && a.changes[i] == t.changes[c];
    GrownAt(s.versions, t.versions, a.versions, VersionKey, i);
  }

  lemma GrownEvent(s: Store, t: Store, a: Added, next: Id, e: Id)
    requires AllGrown(s, t, a) && Numbering(a, next) && e in t.events && e !in s.events
    ensures t.events[e].id == e && e < next && t.events[e].versionId in t.versions && t.events[e].versionId + 2 == e
  {
    var i :| 0 <= i < |a.events| && a.events[i] == t.events[e];
    GrownAt(s.versions, t.versions, a.versions, VersionKey, i);
  }

  lemma GrownLogs(s: Store, t: Store, a: Added, next: Id)
    requires LogsOk(s, next) && LogsPoint(s) && AllGrown(s, t, a) && Numbering(a, next)
    ensures LogsOk(t, next) && LogsPoint(t)
  {
    forall c | c in t.changes
      ensures t.changes[c].id == c && c < next && t.changes[c].toVersionId in t.versions
              && t.changes[c].toVersionId + 1 == c
    {
      if c !in s.changes { GrownChange(s, t, a, next, c); } else { assert s.changes[c].toVersionId in s.versions; }
    }
    forall e | e in t.events
      ensures t.events[e].id == e && e < next && t.events[e].versionId in t.versions && t.events[e].versionId + 2 == e
    {
      if e !in s.events { GrownEvent(s, t, a, next, e); } else { assert s.events[e].versionId in s.versions; }
    }
  }

  lemma GrownRecords(s: Store, t: Store, pid: Id, prev: Option<Id>, a: Added, first: Id, next: Id)
    requires AllGrown(s, t, a) && Linked(prev, pid, a) && Rows(NumberOf(s, prev), pid, a, first, next)
    requires prev.Some? ==> prev.value in s.versions && s.versions[prev.value].productId == pid
    requires AllRecorded(s) && VersionsOk(s, next)
    ensures AllRecorded(t)
  {
    forall v | v in t.versions ensures Recorded(t, t.versions[v]) {
      if v in s.versions {
        KeptRecord(s, t, a, v, next);
      } else {
        var i :| 0 <= i < |a.versions| && a.versions[i] == t.versions[v];
        NewRecord(s, t, pid, prev, a, first, next, i);
      }
    }
  }

  lemma RowsNumbered(base: nat, pid: Id, prev: Option<Id>, a: Added, first: Id, next: Id)
    requires Rows(base, pid, a, first, next) && Linked(prev, pid, a)
    ensures Numbered(base, pid, a.versions, next) && Numbering(a, next)
  {
    forall i | 0 <= i < |a.versions|
      ensures a.events[i].versionId == a.versions[i].id { assert LinkedAt(prev, pid, a, i); }
  }

  lemma TablesAllGrown(s: Store, t: Store, pid: Id, base: nat, a: Added, first: Id, next: Id)
    requires TablesGrow(s, t, a) && Rows(base, pid, a, first, next) && NewRows(s, a)
    ensures AllGrown(s, t, a)
  {
    RowsDistinct(base, pid, a, first, next);
    AddedTable(s.versions, a.versions, VersionKey);
    AddedTable(s.changes, a.changes, ChangeKey);
    AddedTable(s.events, a.events, EventKey);
  }

  // The current version of a product exists and is its own.
  lemma PreviousIsOwn(s: Store, t: Store, pid: Id, prev: Option<Id>, vs: seq<Version>, next: Id)
    requires ProductsOk(s, next) && ProductMoves(s, t, pid, prev, vs)
    ensures prev.Some? ==> prev.value in s.versions && s.versions[prev.value].productId == pid
  {}

  lemma ChainGrows(s: Store, t: Store, pid: Id, prev: Option<Id>, a: Added, first: Id, next: Id)
    requires Chain(s, next) && TablesGrow(s, t, a) && ProductMoves(s, t, pid, prev, a.versions)
    requires Rows(NumberOf(s, prev), pid, a, first, next) && Linked(prev, pid, a) && NewRows(s, a)
    requires pid < next && SourcesOk(t, next)
    ensures Chain(t, next) && AllGrown(s, t, a)
  {
    TablesAllGrown(s, t, pid, NumberOf(s, prev), a, first, next);
    RowsNumbered(NumberOf(s, prev), pid, prev, a, first, next);
    PreviousIsOwn(s, t, pid, prev, a.versions, next);
    assert ProductsOk(t, next) && AllCurrent(t) by { GrownProducts(s, t, pid, prev, a.versions, next); }
    assert VersionsOk(t, next) by { GrownVersions(s, t, pid, prev, a.versions, next); }
    assert NumbersUnique(t) by { GrownNumbers(s, t, pid, prev, a.versions, next); }
    assert AllRecorded(t) by { GrownRecords(s, t, pid, prev, a, first, next); }
    assert LogsOk(t, next) && LogsPoint(t) by { GrownLogs(s, t, a, next); }
  }
}
