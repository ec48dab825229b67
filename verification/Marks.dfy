// What staleness looks at, without identifiers: the fingerprint and the two watermarks of an identity.
// Runs of pages act on it record by record.
module Marks {
  import opened Prelude
  import opened Transition
  import opened Batch
  import opened ProductStore
  import opened FoldInvariant
  import opened GroupCommit
  import opened BatchRefinement
  import opened PageRefinement
  import Sorting

  datatype Mark = Mark(fingerprint: Fingerprint, sourceUpdatedAt: Option<Time>, receivedAt: Time)

  function MarkOf(cur: Option<Snapshot>): Option<Mark> {
    if cur.None? then None
    else Some(Mark(cur.value.currentFingerprint, cur.value.lastSourceUpdatedAt, cur.value.lastReceivedAt))
  }

  predicate Late(m: Mark, r: Record) {
    match (r.sourceUpdatedAt, m.sourceUpdatedAt)
    case (Some(t), Some(last)) => t < last || (t == last && r.receivedAt < m.receivedAt)
    case _ => r.receivedAt < m.receivedAt
  }

  // A record that is not late brings its fingerprint and raises the watermarks.
  function Absorb(m: Option<Mark>, r: Record): Mark {
    if m.None? then Mark(r.fingerprint, r.sourceUpdatedAt, r.receivedAt)
    else if Late(m.value, r) then m.value
    else Mark(r.fingerprint, Greatest(m.value.sourceUpdatedAt, r.sourceUpdatedAt),
              Max(m.value.receivedAt, r.receivedAt))
  }

  function AbsorbAll(m: Option<Mark>, rs: seq<Record>): Option<Mark> {
    if rs == [] then m else Some(Absorb(AbsorbAll(m, rs[..|rs|-1]), rs[|rs|-1]))
  }

  lemma {:induction false} AbsorbAppend(m: Option<Mark>, a: seq<Record>, b: seq<Record>)
    ensures AbsorbAll(m, a + b) == AbsorbAll(AbsorbAll(m, a), b)
  {
    if b == [] {
      assert a + b == a;
    } else {
      assert (a + b)[..|a + b|-1] == a + b[..|b|-1];
      AbsorbAppend(m, a, b[..|b|-1]);
    }
  }

  // Whatever the transition, a record that is not stale leaves its own fingerprint current.
  lemma StepAbsorbs(cur: Option<Snapshot>, next: Id, r: Record, now: Time)
    ensures MarkOf(Step(cur, next, r, now).cur) == Some(Absorb(MarkOf(cur), r))
  {}

  // The records of an identity, in the order they come.
  function Of(rs: seq<Record>, k: Identity): seq<Record> {
    if rs == [] then []
    else Of(rs[..|rs|-1], k) + if rs[|rs|-1].identity == k then [rs[|rs|-1]] else []
  }

  lemma {:induction false} OfAppend(a: seq<Record>, b: seq<Record>, k: Identity)
    ensures Of(a + b, k) == Of(a, k) + Of(b, k)
  {
    if b == [] {
      assert a + b == a;
    } else {
      assert (a + b)[..|a + b|-1] == a + b[..|b|-1];
      OfAppend(a, b[..|b|-1], k);
    }
  }

  lemma {:induction false} OfUniform(rs: seq<Record>, k: Identity, j: Identity)
    requires forall r | r in rs :: r.identity == j
    ensures Of(rs, k) == if k == j then rs else []
  {
    if rs != [] {
      OfUniform(rs[..|rs|-1], k, j);
      assert rs == rs[..|rs|-1] + [rs[|rs|-1]];
      assert rs[|rs|-1] in rs;
    }
  }

  lemma OfGroup(page: seq<Record>, ids: seq<Identity>, k: Identity)
    requires ids != []
    ensures var j := ids[|ids|-1];
            Of(ProcessingOrder(page, ids), k) == Of(ProcessingOrder(page, ids[..|ids|-1]), k)
              + if k == j then Group(page, j) else []
  {
    var j := ids[|ids|-1];
    GroupOfIdentity(page, j);
    OfUniform(Group(page, j), k, j);
    OfAppend(ProcessingOrder(page, ids[..|ids|-1]), Group(page, j), k);
  }

  lemma {:induction false} OfProcessingOrder(page: seq<Record>, ids: seq<Identity>, k: Identity)
    requires NoRepeats(ids)
    ensures Of(ProcessingOrder(page, ids), k) == if k in ids then Group(page, k) else []
  {
    if ids != [] {
      var init, j := ids[..|ids|-1], ids[|ids|-1];
      OfProcessingOrder(page, init, k);
      OfGroup(page, ids, k);
      assert ids == init + [j];
      assert k == j ==> k !in init;
    }
  }

  // ---------------------------------------------------------------- one record, one page, many pages

  lemma RecordMarks(s: Store, r: Record, now: Time, next: Id, k: Identity)
    requires Consistent(s, next)
    ensures RunPage(s, [r], now, next).Some?
    ensures var p := RunPage(s, [r], now, next).value;
            && Consistent(p.store, p.next)
            && MarkOf(SnapshotOf(p.store, k)) == AbsorbAll(MarkOf(SnapshotOf(s, k)), Of([r], k))
  {
    var start := SnapshotOf(s, r.identity);
    var g := Step(start, next, r, now);
    SingleRecordPage(s, r, now, next);
    StepAlone(start, next, r, now);
    GroupCommit.Keeps(s, r.identity, start, g, next, now);
    assert [r][..0] == [];
    if k == r.identity {
      Stores(s, k, start, g, next, now);
      StepAbsorbs(start, next, r, now);
      assert AbsorbAll(MarkOf(start), [r]) == Some(Absorb(MarkOf(start), r));
      assert Of([r], k) == [r];
    } else {
      OthersKeepSnapshot(s, r.identity, start, g, next, now, k);
      assert Of([r], k) == [];
    }
  }

  lemma MarkSnoc(m: Option<Mark>, rs: seq<Record>, k: Identity)
    requires rs != []
    ensures AbsorbAll(AbsorbAll(m, Of(rs[..|rs|-1], k)), Of([rs[|rs|-1]], k)) == AbsorbAll(m, Of(rs, k))
  {
    var init, last := rs[..|rs|-1], [rs[|rs|-1]];
    assert rs == init + last;
    OfAppend(init, last, k);
    AbsorbAppend(m, Of(init, k), Of(last, k));
  }

  lemma {:induction false} RecordsMark(s: Store, rs: seq<Record>, now: Time, next: Id, k: Identity)
    requires Consistent(s, next)
    ensures RunAlone(s, rs, now, next).Some?
    ensures var p := RunAlone(s, rs, now, next).value;
            && Consistent(p.store, p.next)
            && MarkOf(SnapshotOf(p.store, k)) == AbsorbAll(MarkOf(SnapshotOf(s, k)), Of(rs, k))
  {
    if rs != [] {
      RecordsMark(s, rs[..|rs|-1], now, next, k);
      var p := RunAlone(s, rs[..|rs|-1], now, next).value;
      AloneSnoc(s, rs, now, next, p);
      RecordMarks(p.store, rs[|rs|-1], now, p.next, k);
      MarkSnoc(MarkOf(SnapshotOf(s, k)), rs, k);
    }
  }

  // A page moves each identity's mark by the identity's records in processing order.
  lemma PageMarks(s: Store, page: seq<Record>, now: Time, next: Id, k: Identity)
    requires Consistent(s, next)
    ensures RunPage(s, page, now, next).Some?
    ensures var p := RunPage(s, page, now, next).value;
            && Consistent(p.store, p.next)
            && MarkOf(SnapshotOf(p.store, k)) == AbsorbAll(MarkOf(SnapshotOf(s, k)), Group(page, k))
  {
    var order := ProcessingOrder(page, Identities(page));
    PageEqualsRecordsAlone(s, page, now, next);
    RecordsMark(s, order, now, next, k);
    IdentitiesDistinct(page);
    OfProcessingOrder(page, Identities(page), k);
    if k !in Identities(page) { NotInPage(page, k); }
  }

  lemma {:induction false} NotInPage(page: seq<Record>, k: Identity)
    requires k !in Identities(page)
    ensures Select(page, k) == [] && Group(page, k) == []
  {
    if page != [] { NotInPage(page[..|page|-1], k); }
  }

  // A page and the instant it is processed at.
  datatype Turn = Turn(page: seq<Record>, now: Time)

  type TurnRunner = (Store, Turn, Id) -> Option<Progress>

  function RunTurns(run: TurnRunner, s: Store, turns: seq<Turn>, next: Id): Option<Progress> {
    if turns == [] then Some(Progress(s, NoMetrics, next))
    else
      var p := RunTurns(run, s, turns[..|turns|-1], next);
      if p.None? then None else Counted(p.value.metrics, run(p.value.store, turns[|turns|-1], p.value.next))
  }

  function RunTurn(s: Store, turn: Turn, next: Id): Option<Progress> {
    RunPage(s, turn.page, turn.now, next)
  }

  // Pages one after the other.
  function RunPages(s: Store, turns: seq<Turn>, next: Id): Option<Progress> {
    RunTurns(RunTurn, s, turns, next)
  }

  // The identity's records in the order all the pages process them.
  function Arrivals(turns: seq<Turn>, k: Identity): seq<Record> {
    if turns == [] then [] else Arrivals(turns[..|turns|-1], k) + Group(turns[|turns|-1].page, k)
  }

  lemma {:induction false} PagesMark(s: Store, turns: seq<Turn>, next: Id, k: Identity)
    requires Consistent(s, next)
    ensures RunPages(s, turns, next).Some?
    ensures var p := RunPages(s, turns, next).value;
            && Consistent(p.store, p.next)
            && MarkOf(SnapshotOf(p.store, k)) == AbsorbAll(MarkOf(SnapshotOf(s, k)), Arrivals(turns, k))
  {
    if turns != [] {
      var init, last := turns[..|turns|-1], turns[|turns|-1];
      PagesMark(s, init, next, k);
      var p := RunPages(s, init, next).value;
      PageMarks(p.store, last.page, last.now, p.next, k);
      AbsorbAppend(MarkOf(SnapshotOf(s, k)), Arrivals(init, k), Group(last.page, k));
    }
  }

  // ---------------------------------------------------------------- which records arrive

  lemma {:induction false} SelectedRecords(page: seq<Record>, k: Identity)
    ensures forall r :: r in Select(page, k) <==> r in page && r.identity == k
  {
    if page != [] {
      SelectedRecords(page[..|page|-1], k);
      assert page == page[..|page|-1] + [page[|page|-1]];
    }
  }

  lemma GroupedRecords(page: seq<Record>, k: Identity)
    ensures forall r :: r in Group(page, k) <==> r in page && r.identity == k
    ensures Sorting.Ordered(Group(page, k), NotAfter) && multiset(Group(page, k)) == multiset(Select(page, k))
  {
    ProcessingOrderIsTotal();
    Sorting.SortOrders(Select(page, k), NotAfter);
    SelectedRecords(page, k);
    forall r ensures r in Group(page, k) <==> r in Select(page, k) {
      assert r in Group(page, k) <==> r in multiset(Group(page, k));
      assert r in Select(page, k) <==> r in multiset(Select(page, k));
    }
  }

  ghost predicate Arrives(turns: seq<Turn>, r: Record) {
    exists i :: 0 <= i < |turns| && r in turns[i].page
  }

  lemma {:induction false} ArrivalsAre(turns: seq<Turn>, k: Identity)
    ensures forall r :: r in Arrivals(turns, k) <==> Arrives(turns, r) && r.identity == k
  {
    if turns != [] {
      var init, last := turns[..|turns|-1], turns[|turns|-1];
      ArrivalsAre(init, k);
      GroupedRecords(last.page, k);
      forall r ensures Arrives(turns, r) <==> Arrives(init, r) || r in last.page {
        if Arrives(init, r) {
          var i :| 0 <= i < |init| && r in init[i].page;
          assert r in turns[i].page;
        }
        if r in last.page { assert r in turns[|turns|-1].page; }
        if Arrives(turns, r) {
          var i :| 0 <= i < |turns| && r in turns[i].page;
          if i < |init| { assert r in init[i].page; }
        }
      }
    }
  }
}
