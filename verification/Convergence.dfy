// Where an identity ends up when its records come in any order, over any pages.
module Convergence {
  import opened Prelude
  import opened Transition
  import opened ProductStore
  import opened BatchRefinement
  import opened Marks

  // Every record says when its source last updated it, and w is the latest such instant.
  ghost predicate Latest(rs: seq<Record>, w: Time) {
    && (forall r | r in rs :: r.sourceUpdatedAt.Some? && r.sourceUpdatedAt.value <= w)
    && exists r :: r in rs && r.sourceUpdatedAt == Some(w)
  }

  // The records of that instant agree on the content.
  ghost predicate Agree(rs: seq<Record>, w: Time, fp: Fingerprint) {
    forall r | r in rs && r.sourceUpdatedAt == Some(w) :: r.fingerprint == fp
  }

  // The identity is new, or what is stored is older than w by its source's own clock.
  predicate Before(m: Option<Mark>, w: Time) {
    m.None? || (m.value.sourceUpdatedAt.Some? && m.value.sourceUpdatedAt.value < w)
  }

  lemma InitOf<T>(xs: seq<T>)
    requires xs != []
    ensures forall x | x in xs[..|xs|-1] :: x in xs
    ensures forall x | x in xs :: x in xs[..|xs|-1] || x == xs[|xs|-1]
    ensures xs[|xs|-1] in xs
  {
    assert xs == xs[..|xs|-1] + [xs[|xs|-1]];
  }

  lemma {:induction false} AbsorbsLatest(m: Option<Mark>, rs: seq<Record>, w: Time, fp: Fingerprint)
    requires Before(m, w) && Agree(rs, w, fp)
    requires forall r | r in rs :: r.sourceUpdatedAt.Some? && r.sourceUpdatedAt.value <= w
    ensures var e := AbsorbAll(m, rs);
            if exists r :: r in rs && r.sourceUpdatedAt == Some(w)
            then e.Some? && e.value.fingerprint == fp && e.value.sourceUpdatedAt == Some(w)
            else Before(e, w)
  {
    if rs != [] {
      InitOf(rs);
      AbsorbsLatest(m, rs[..|rs|-1], w, fp);
    }
  }

  // One identity first seen through records that carry source_updated_at (or stored with an older
  // one): when its latest records agree, every arrival order and every split into pages ends with their
  // fingerprint current and the watermark at the latest instant.
  lemma PagesConverge(s: Store, turns: seq<Turn>, next: Id, k: Identity, w: Time, fp: Fingerprint)
    requires Consistent(s, next) && Before(MarkOf(SnapshotOf(s, k)), w)
    requires forall r | Arrives(turns, r) && r.identity == k ::
               r.sourceUpdatedAt.Some? && r.sourceUpdatedAt.value <= w
                 && (r.sourceUpdatedAt.value == w ==> r.fingerprint == fp)
    requires exists r :: Arrives(turns, r) && r.identity == k && r.sourceUpdatedAt == Some(w)
    ensures RunPages(s, turns, next).Some?
    ensures var e := SnapshotOf(RunPages(s, turns, next).value.store, k);
            e.Some? && e.value.currentFingerprint == fp && e.value.lastSourceUpdatedAt == Some(w)
  {
    PagesMark(s, turns, next, k);
    ArrivalsAre(turns, k);
    AbsorbsLatest(MarkOf(SnapshotOf(s, k)), Arrivals(turns, k), w, fp);
  }

  // ---------------------------------------------------------------- exactly when the order does not matter

  // All orders in which the records of a new identity can arrive end with one fingerprint.
  ghost predicate OrderIndependent(rs: seq<Record>) {
    forall qs, ps | multiset(qs) == multiset(rs) && multiset(ps) == multiset(rs) ::
      AbsorbAll(None, qs).Some? && AbsorbAll(None, ps).Some?
      && AbsorbAll(None, qs).value.fingerprint == AbsorbAll(None, ps).value.fingerprint
  }

  predicate At(r: Record, w: Time) {
    r.sourceUpdatedAt == Some(w)
  }

  // Among the records of the latest instant, m is when the last was received.
  ghost predicate LastReceipt(rs: seq<Record>, w: Time, m: Time) {
    && (forall r | r in rs && At(r, w) :: r.receivedAt <= m)
    && exists r :: r in rs && At(r, w) && r.receivedAt == m
  }

  ghost predicate LatestAgree(rs: seq<Record>, w: Time) {
    forall a, b | a in rs && b in rs && At(a, w) && At(b, w) :: a.fingerprint == b.fingerprint
  }

  // The latest records that were also received last agree, and nothing was received after them.
  ghost predicate LastReceivedDecide(rs: seq<Record>, w: Time, m: Time) {
    && (forall a, b | a in rs && b in rs && At(a, w) && At(b, w) && a.receivedAt == m == b.receivedAt ::
        a.fingerprint == b.fingerprint)
    && (forall r | r in rs :: r.receivedAt <= m)
  }

  lemma SameElements(rs: seq<Record>, qs: seq<Record>)
    requires multiset(rs) == multiset(qs)
    ensures forall r :: r in rs <==> r in qs
  {
    forall r ensures r in rs <==> r in qs {
      assert r in rs <==> r in multiset(rs);
      assert r in qs <==> r in multiset(qs);
    }
  }

  lemma AgreeingConverge(rs: seq<Record>, w: Time, qs: seq<Record>, fp: Fingerprint)
    requires Latest(rs, w) && Agree(rs, w, fp) && multiset(qs) == multiset(rs)
    ensures AbsorbAll(None, qs).Some? && AbsorbAll(None, qs).value.fingerprint == fp
  {
    SameElements(rs, qs);
    AbsorbsLatest(None, qs, w, fp);
  }

  lemma {:induction false} AbsorbsLast(qs: seq<Record>, w: Time, m: Time, fp: Fingerprint)
    requires forall r | r in qs :: r.sourceUpdatedAt.Some? && r.sourceUpdatedAt.value <= w && r.receivedAt <= m
    requires forall r | r in qs && At(r, w) && r.receivedAt == m :: r.fingerprint == fp
    ensures var e := AbsorbAll(None, qs);
            if exists r :: r in qs && At(r, w) && r.receivedAt == m
            then e == Some(Mark(fp, Some(w), m))
            else e.Some? ==>
              e.value.sourceUpdatedAt.Some? && e.value.sourceUpdatedAt.value <= w && e.value.receivedAt <= m
  {
    if qs != [] {
      InitOf(qs);
      AbsorbsLast(qs[..|qs|-1], w, m, fp);
    }
  }

  lemma DecidingConverge(rs: seq<Record>, w: Time, m: Time, qs: seq<Record>, last: Record)
    requires Latest(rs, w) && LastReceivedDecide(rs, w, m) && multiset(qs) == multiset(rs)
    requires last in rs && At(last, w) && last.receivedAt == m
    ensures AbsorbAll(None, qs) == Some(Mark(last.fingerprint, Some(w), m))
  {
    SameElements(rs, qs);
    AbsorbsLast(qs, w, m, last.fingerprint);
  }

  // The records without one occurrence of r.
  function Without(rs: seq<Record>, r: Record): (qs: seq<Record>)
    requires r in rs
    ensures multiset(qs) == multiset(rs) - multiset{r}
  {
    if rs[|rs|-1] == r then
      assert rs == rs[..|rs|-1] + [r];
      rs[..|rs|-1]
    else
      assert rs == rs[..|rs|-1] + [rs[|rs|-1]];
      Without(rs[..|rs|-1], r) + [rs[|rs|-1]]
  }

  lemma {:induction false} AllLate(m: Mark, rs: seq<Record>)
    requires forall r | r in rs :: Late(m, r)
    ensures AbsorbAll(Some(m), rs) == Some(m)
  {
    if rs != [] {
      InitOf(rs);
      AllLate(m, rs[..|rs|-1]);
    }
  }

  lemma OldThenLatest(old': Record, a: Record, w: Time)
    requires old'.sourceUpdatedAt.Some? && old'.sourceUpdatedAt.value <= w && At(a, w) && a.receivedAt < old'.receivedAt
    requires old'.sourceUpdatedAt.value < w
    ensures AbsorbAll(None, [old', a]) == Some(Mark(a.fingerprint, Some(w), old'.receivedAt))
  {
    assert [old', a][..1] == [old'] && [old'][..0] == [];
    assert AbsorbAll(None, [old']) == Some(Absorb(None, old'));
  }

  lemma InWithout(rs: seq<Record>, r: Record)
    requires r in rs
    ensures forall x | x in Without(rs, r) :: x in rs
    ensures forall x | x in rs && x != r :: x in Without(rs, r)
  {
    var qs := Without(rs, r);
    forall x | x in qs ensures x in rs { assert x in multiset(qs) && x in multiset(rs); }
    forall x | x in rs && x != r ensures x in qs { assert x in multiset(rs) && x in multiset(qs); }
  }

  // An older record received later than all the latest ones makes the first of them win.
  lemma FirstAfterOldWins(rs: seq<Record>, w: Time, old': Record, a: Record) returns (qs: seq<Record>)
    requires forall r | r in rs :: r.sourceUpdatedAt.Some? && r.sourceUpdatedAt.value <= w
    requires forall r | r in rs && At(r, w) :: r.receivedAt < old'.receivedAt
    requires old' in rs && a in rs && At(a, w)
    ensures multiset(qs) == multiset(rs)
    ensures AbsorbAll(None, qs).Some? && AbsorbAll(None, qs).value.fingerprint == a.fingerprint
  {
    InWithout(rs, old');
    var rest := Without(rs, old');
    InWithout(rest, a);
    var tail := Without(rest, a);
    qs := [old', a] + tail;
    var mark := Mark(a.fingerprint, Some(w), old'.receivedAt);
    OldThenLatest(old', a, w);
    AllLate(mark, tail);
    AbsorbAppend(None, [old', a], tail);
    assert multiset(qs) == multiset{old', a} + multiset(tail);
  }

  // When nothing was received after it, a latest record received last wins by arriving last.
  lemma LastArrivalWins(rs: seq<Record>, w: Time, a: Record) returns (qs: seq<Record>)
    requires forall r | r in rs ::
               r.sourceUpdatedAt.Some? && r.sourceUpdatedAt.value <= w && r.receivedAt <= a.receivedAt
    requires a in rs && At(a, w)
    ensures multiset(qs) == multiset(rs)
    ensures AbsorbAll(None, qs).Some? && AbsorbAll(None, qs).value.fingerprint == a.fingerprint
  {
    InWithout(rs, a);
    var rest := Without(rs, a);
    qs := rest + [a];
    BoundedMark(rest, w, a.receivedAt);
    LatestLast(rest, a, w);
  }

  lemma LatestLast(rest: seq<Record>, a: Record, w: Time)
    requires At(a, w)
    requires var e := AbsorbAll(None, rest);
             e.Some? ==>
               e.value.sourceUpdatedAt.Some? && e.value.sourceUpdatedAt.value <= w && e.value.receivedAt <= a.receivedAt
    ensures AbsorbAll(None, rest + [a]).Some? && AbsorbAll(None, rest + [a]).value.fingerprint == a.fingerprint
  {
    assert (rest + [a])[..|rest|] == rest;
  }

  lemma {:induction false} BoundedMark(rs: seq<Record>, w: Time, m: Time)
    requires forall r | r in rs :: r.sourceUpdatedAt.Some? && r.sourceUpdatedAt.value <= w && r.receivedAt <= m
    ensures var e := AbsorbAll(None, rs);
            e.Some? ==> e.value.sourceUpdatedAt.Some? && e.value.sourceUpdatedAt.value <= w && e.value.receivedAt <= m
  {
    if rs != [] {
      InitOf(rs);
      BoundedMark(rs[..|rs|-1], w, m);
    }
  }

  // For every collection of records of a new identity that all carry source_updated_at: the order of
  // arrival does not matter exactly when the records with the latest source_updated_at agree, or those of
  // them received last agree and no record was received later.
  lemma OrderIndependentIff(rs: seq<Record>, w: Time, m: Time)
    requires Latest(rs, w) && LastReceipt(rs, w, m)
    ensures OrderIndependent(rs) <==> LatestAgree(rs, w) || LastReceivedDecide(rs, w, m)
  {
    var top :| top in rs && At(top, w) && top.receivedAt == m;
    if LatestAgree(rs, w) {
      forall qs | multiset(qs) == multiset(rs)
        ensures AbsorbAll(None, qs).Some? && AbsorbAll(None, qs).value.fingerprint == top.fingerprint
      {
        AgreeingConverge(rs, w, qs, top.fingerprint);
      }
    } else if LastReceivedDecide(rs, w, m) {
      forall qs | multiset(qs) == multiset(rs) ensures AbsorbAll(None, qs) == Some(Mark(top.fingerprint, Some(w), m)) {
        DecidingConverge(rs, w, m, qs, top);
      }
    } else if old' :| old' in rs && old'.receivedAt > m {
      var a, b :| a in rs && b in rs && At(a, w) && At(b, w) && a.fingerprint != b.fingerprint;
      var qs := FirstAfterOldWins(rs, w, old', a);
      var ps := FirstAfterOldWins(rs, w, old', b);
    } else {
      var a, b :| a in rs && b in rs && At(a, w) && At(b, w) && a.receivedAt == m == b.receivedAt
        && a.fingerprint != b.fingerprint;
      var qs := LastArrivalWins(rs, w, a);
      var ps := LastArrivalWins(rs, w, b);
    }
  }

  // ---------------------------------------------------------------- the same for stored pages

  // The fingerprint stored for k after the pages.
  function FingerprintAfter(s: Store, turns: seq<Turn>, next: Id, k: Identity): Option<Fingerprint> {
    match RunPages(s, turns, next)
    case None => None
    case Some(p) =>
      match SnapshotOf(p.store, k)
      case None => None
      case Some(cur) => Some(cur.currentFingerprint)
  }

  // However the records rs of k are ordered and split into pages, among whatever others, the stored
  // fingerprint ends the same.
  ghost predicate PagesAgree(s: Store, next: Id, k: Identity, rs: seq<Record>) {
    forall turns, more: seq<Turn>
      | multiset(Arrivals(turns, k)) == multiset(rs) && multiset(Arrivals(more, k)) == multiset(rs) ::
      FingerprintAfter(s, turns, next, k) == FingerprintAfter(s, more, next, k)
  }

  // A page for each record.
  function OneByOne(rs: seq<Record>): seq<Turn> {
    if rs == [] then [] else OneByOne(rs[..|rs|-1]) + [Turn([rs[|rs|-1]], 0)]
  }

  lemma OneMoreArrives(turns: seq<Turn>, r: Record)
    ensures Arrivals(turns + [Turn([r], 0)], r.identity) == Arrivals(turns, r.identity) + [r]
  {
    assert (turns + [Turn([r], 0)])[..|turns|] == turns;
    SingleGroup(r);
  }

  lemma {:induction false} OneByOneArrives(rs: seq<Record>, k: Identity)
    requires forall r | r in rs :: r.identity == k
    ensures Arrivals(OneByOne(rs), k) == rs
  {
    if rs != [] {
      InitOf(rs);
      OneByOneArrives(rs[..|rs|-1], k);
      OneMoreArrives(OneByOne(rs[..|rs|-1]), rs[|rs|-1]);
      assert rs == rs[..|rs|-1] + [rs[|rs|-1]];
    }
  }

  lemma MarkAfter(s: Store, turns: seq<Turn>, next: Id, k: Identity)
    requires Consistent(s, next) && SnapshotOf(s, k).None?
    ensures var m := AbsorbAll(None, Arrivals(turns, k));
            FingerprintAfter(s, turns, next, k) == if m.Some? then Some(m.value.fingerprint) else None
  {
    PagesMark(s, turns, next, k);
  }

  lemma AgreeIffIndependent(s: Store, next: Id, k: Identity, rs: seq<Record>)
    requires Consistent(s, next) && SnapshotOf(s, k).None? && rs != [] && forall r | r in rs :: r.identity == k
    ensures PagesAgree(s, next, k, rs) <==> OrderIndependent(rs)
  {
    if OrderIndependent(rs) {
      forall turns, more: seq<Turn>
        | multiset(Arrivals(turns, k)) == multiset(rs) && multiset(Arrivals(more, k)) == multiset(rs)
        ensures FingerprintAfter(s, turns, next, k) == FingerprintAfter(s, more, next, k)
      {
        MarkAfter(s, turns, next, k);
        MarkAfter(s, more, next, k);
      }
    }
    if PagesAgree(s, next, k, rs) {
      forall qs, ps | multiset(qs) == multiset(rs) && multiset(ps) == multiset(rs)
        ensures AbsorbAll(None, qs).Some? && AbsorbAll(None, ps).Some?
        ensures AbsorbAll(None, qs).value.fingerprint == AbsorbAll(None, ps).value.fingerprint
      {
        PermutationArrives(s, next, k, rs, qs);
        PermutationArrives(s, next, k, rs, ps);
        assert FingerprintAfter(s, OneByOne(qs), next, k) == FingerprintAfter(s, OneByOne(ps), next, k);
      }
    }
  }

  lemma PermutationArrives(s: Store, next: Id, k: Identity, rs: seq<Record>, qs: seq<Record>)
    requires Consistent(s, next) && SnapshotOf(s, k).None? && rs != [] && forall r | r in rs :: r.identity == k
    requires multiset(qs) == multiset(rs)
    ensures Arrivals(OneByOne(qs), k) == qs && AbsorbAll(None, qs).Some?
    ensures FingerprintAfter(s, OneByOne(qs), next, k) == Some(AbsorbAll(None, qs).value.fingerprint)
  {
    SameElements(rs, qs);
    assert rs[0] in qs;
    OneByOneArrives(qs, k);
    MarkAfter(s, OneByOne(qs), next, k);
  }

  // For every consistent store that does not know k and every collection of k's records that carry
  // source_updated_at: all orders of arrival and splits into pages store one fingerprint exactly when the
  // records with the latest source_updated_at agree, or those of them received last agree and no record
  // was received later.
  lemma PagesAgreeIff(s: Store, next: Id, k: Identity, rs: seq<Record>, w: Time, m: Time)
    requires Consistent(s, next) && SnapshotOf(s, k).None? && forall r | r in rs :: r.identity == k
    requires Latest(rs, w) && LastReceipt(rs, w, m)
    ensures PagesAgree(s, next, k, rs) <==> LatestAgree(rs, w) || LastReceivedDecide(rs, w, m)
  {
    OrderIndependentIff(rs, w, m);
    AgreeIffIndependent(s, next, k, rs);
  }
}
