// Which version of a regulatory dataset was in force when, over every run of the lifecycle, on clocks
// that may go backwards.
module RegulatoryTimeline {
  import opened Prelude
  import opened Regulatory
  import opened Text

  // ---------------------------------------------------------------- runs

  datatype Action =
    | Load(id: Id, key: Key, loadedBy: string, requiresReview: bool)
    | RecordReview(id: Id, reviewer: string, note: string, at: Time)
    | Reject(id: Id, reason: string)
    | Activate(id: Id, now: Time, hidden: bool)

  // `history` lists, for each key, the versions activated so far in order.
  datatype System = System(rows: map<Id, Row>, history: map<Key, seq<Id>>)

  function HistoryOf(y: System, key: Key): seq<Id> {
    if key in y.history then y.history[key] else []
  }

  ghost function Step(y: System, a: Action): System {
    match a
    case Load(id, key, loadedBy, requiresReview) =>
      if id in y.rows then y
      else y.(rows := y.rows[id := Row(key, loadedBy, requiresReview, Loaded, None, None, None, "")])
    case RecordReview(id, reviewer, note, at) =>
      var who, text := TrimSpace(reviewer), TrimSpace(note);
      if id !in y.rows || y.rows[id].status != Loaded || y.rows[id].review.Some? || who == "" || text == ""
         || EqualFold(who, y.rows[id].loadedBy) then y
      else y.(rows := y.rows[id := y.rows[id].(review := Some(Review(who, text, at)))])
    case Reject(id, reason) =>
      if id !in y.rows || y.rows[id].status != Loaded || TrimSpace(reason) == "" then y
      else y.(rows := y.rows[id := y.rows[id].(status := Rejected, rejectedReason := TrimSpace(reason))])
    case Activate(id, now, hidden) =>
      var rows := Activation(y.rows, id, now, hidden);
      if rows == y.rows || id !in y.rows then y.(rows := rows)
      else y.(rows := rows, history := y.history[y.rows[id].key := HistoryOf(y, y.rows[id].key) + [id]])
  }

  ghost function Run(actions: seq<Action>): System {
    if actions == [] then System(map[], map[]) else Step(Run(actions[..|actions|-1]), actions[|actions|-1])
  }

  // ---------------------------------------------------------------- the chain of versions

  predicate ActivatedUnder(rows: map<Id, Row>, key: Key, i: Id) {
    i in rows && rows[i].key == key && rows[i].activatedAt.Some?
  }

  // Version i, superseded by version j at the instant j was activated.
  predicate Replaced(rows: map<Id, Row>, i: Id, j: Id)
    requires i in rows && j in rows && rows[i].activatedAt.Some?
  {
    rows[i].status == Superseded && rows[j].activatedAt.Some? && rows[i].supersededAt == rows[j].activatedAt
    && rows[i].activatedAt.value <= rows[j].activatedAt.value
  }

  ghost predicate Chain(rows: map<Id, Row>, key: Key, ids: seq<Id>) {
    && (forall n | 0 <= n < |ids| :: ActivatedUnder(rows, key, ids[n]))
    && (forall i | ActivatedUnder(rows, key, i) :: i in ids)
    && (forall n | 0 <= n < |ids| - 1 :: Replaced(rows, ids[n], ids[n+1]))
    && (ids != [] ==> rows[ids[|ids|-1]].status == Active && rows[ids[|ids|-1]].supersededAt.None?)
    && (forall m, n | 0 <= m < n < |ids| :: ids[m] != ids[n])
  }

  ghost predicate StatusOk(r: Row) {
    && (r.status == Loaded || r.status == Rejected <==> r.activatedAt.None?)
    && (r.supersededAt.Some? <==> r.status == Superseded)
  }

  ghost predicate Inv(y: System) {
    && (forall i | i in y.rows :: StatusOk(y.rows[i]))
    && (forall key :: Chain(y.rows, key, HistoryOf(y, key)))
  }

  // ---------------------------------------------------------------- every step keeps the chains

  // A row that was not activated and still is not.
  lemma UnactivatedChange(y: System, id: Id, r: Row)
    requires Inv(y) && StatusOk(r) && r.activatedAt.None? && (id in y.rows ==> y.rows[id].activatedAt.None?)
    ensures Inv(y.(rows := y.rows[id := r]))
  {
    var rows := y.rows[id := r];
    var z := y.(rows := rows);
    forall key ensures Chain(z.rows, key, HistoryOf(z, key)) {
      var ids := HistoryOf(y, key);
      assert HistoryOf(z, key) == ids;
      assert Chain(y.rows, key, ids);
      forall n | 0 <= n < |ids|
        ensures ids[n] != id && rows[ids[n]] == y.rows[ids[n]] && ActivatedUnder(rows, key, ids[n]) {
        assert ActivatedUnder(y.rows, key, ids[n]);
      }
      forall i | ActivatedUnder(rows, key, i) ensures i in ids {
        assert ActivatedUnder(y.rows, key, i);
      }
      forall n | 0 <= n < |ids| - 1 ensures Replaced(rows, ids[n], ids[n+1]) {
        assert Replaced(y.rows, ids[n], ids[n+1]);
      }
    }
  }

  // The one active version of a key is the last of its chain.
  lemma ActiveIsLast(y: System, key: Key, i: Id)
    requires Inv(y) && IsActive(y.rows, key, i)
    ensures var ids := HistoryOf(y, key); ids != [] && i == ids[|ids|-1]
  {
    var ids := HistoryOf(y, key);
    assert StatusOk(y.rows[i]) && ActivatedUnder(y.rows, key, i);
    forall n | 0 <= n < |ids| - 1 ensures ids[n] != i {
      assert Replaced(y.rows, ids[n], ids[n+1]);
    }
  }

  lemma LastIsActive(rows: map<Id, Row>, key: Key, ids: seq<Id>)
    requires Chain(rows, key, ids) && ids != []
    ensures IsActive(rows, key, ids[|ids|-1])
  {
    assert ActivatedUnder(rows, key, ids[|ids|-1]);
  }

  lemma FirstActivation(y: System, id: Id, now: Time)
    requires Inv(y) && id in y.rows && y.rows[id].status == Loaded
    requires forall i :: !IsActive(y.rows, y.rows[id].key, i)
    ensures var key := y.rows[id].key;
            Inv(System(y.rows[id := Activated(y.rows[id], now)], y.history[key := HistoryOf(y, key) + [id]]))
  {
    var key := y.rows[id].key;
    var z := System(y.rows[id := Activated(y.rows[id], now)], y.history[key := HistoryOf(y, key) + [id]]);
    assert StatusOk(y.rows[id]);
    var ids := HistoryOf(y, key);
    assert Chain(y.rows, key, ids);
    if ids != [] {
      LastIsActive(y.rows, key, ids);
      assert false;
    }
    forall k ensures Chain(z.rows, k, HistoryOf(z, k)) {
      assert Chain(y.rows, k, HistoryOf(y, k));
      if k != key { OtherKey(y, k, id, z.rows[id]); }
    }
  }

  // Writing a row of one key leaves the chains of the others.
  lemma OtherKey(y: System, k: Key, id: Id, r: Row)
    requires Inv(y) && id in y.rows && y.rows[id].key == r.key != k
    ensures Chain(y.rows[id := r], k, HistoryOf(y, k))
  {
    var ids, rows := HistoryOf(y, k), y.rows[id := r];
    assert Chain(y.rows, k, ids);
    forall n | 0 <= n < |ids| ensures ids[n] != id && ActivatedUnder(rows, k, ids[n]) {
      assert ActivatedUnder(y.rows, k, ids[n]);
    }
    forall i | ActivatedUnder(rows, k, i) ensures i in ids {
      assert ActivatedUnder(y.rows, k, i);
    }
  }

  lemma ChainTakesOver(rows: map<Id, Row>, key: Key, ids: seq<Id>, id: Id, now: Time)
    requires Chain(rows, key, ids) && ids != [] && id in rows && rows[id].key == key && rows[id].activatedAt.None?
             && rows[id].supersededAt.None?
    requires CanSupersede(rows[ids[|ids|-1]], now)
    ensures var p := ids[|ids|-1];
            Chain(rows[p := SupersededRow(rows[p], now)][id := Activated(rows[id], now)], key, ids + [id])
  {
    var p := ids[|ids|-1];
    var next, all := rows[p := SupersededRow(rows[p], now)][id := Activated(rows[id], now)], ids + [id];
    forall n | 0 <= n < |ids| ensures ids[n] != id && ActivatedUnder(next, key, ids[n]) {
      assert ActivatedUnder(rows, key, ids[n]);
    }
    assert ActivatedUnder(next, key, id);
    forall i | ActivatedUnder(next, key, i) ensures i in all {
      if i != id { assert ActivatedUnder(rows, key, i); }
    }
    forall n | 0 <= n < |all| - 1 ensures Replaced(next, all[n], all[n+1]) {
      if n < |ids| - 1 {
        assert Replaced(rows, ids[n], ids[n+1]) && ids[n] != p;
      } else {
        assert all[n] == p && all[n+1] == id;
      }
    }
    forall n | 0 <= n < |all| ensures ActivatedUnder(next, key, all[n]) {
      if n < |ids| { assert all[n] == ids[n]; }
    }
  }

  lemma TakeOver(y: System, id: Id, p: Id, now: Time)
    requires Inv(y) && id in y.rows && y.rows[id].status == Loaded && IsActive(y.rows, y.rows[id].key, p)
             && CanSupersede(y.rows[p], now)
    ensures var key := y.rows[id].key;
            Inv(System(y.rows[p := SupersededRow(y.rows[p], now)][id := Activated(y.rows[id], now)],
                       y.history[key := HistoryOf(y, key) + [id]]))
  {
    var key := y.rows[id].key;
    var mid := y.rows[p := SupersededRow(y.rows[p], now)];
    var z := System(mid[id := Activated(y.rows[id], now)], y.history[key := HistoryOf(y, key) + [id]]);
    assert StatusOk(y.rows[id]) && StatusOk(y.rows[p]);
    ActiveIsLast(y, key, p);
    ChainTakesOver(y.rows, key, HistoryOf(y, key), id, now);
    forall k ensures Chain(z.rows, k, HistoryOf(z, k)) {
      if k != key {
        var ids := HistoryOf(y, k);
        assert Chain(y.rows, k, ids);
        forall n | 0 <= n < |ids| ensures z.rows[ids[n]] == y.rows[ids[n]] && ActivatedUnder(z.rows, k, ids[n]) {
          assert ActivatedUnder(y.rows, k, ids[n]);
        }
        forall i | ActivatedUnder(z.rows, k, i) ensures i in ids {
          assert ActivatedUnder(y.rows, k, i);
        }
      }
    }
  }

  lemma ActivateHolds(y: System, id: Id, now: Time, hidden: bool)
    requires Inv(y)
    ensures Inv(Step(y, Activate(id, now, hidden)))
  {
    if id in y.rows && ActivateError(y.rows[id]).None? {
      var key := y.rows[id].key;
      if exists p :: IsActive(y.rows, key, p) {
        var p :| IsActive(y.rows, key, p);
        ActiveIsLast(y, key, p);
        forall q | IsActive(y.rows, key, q) ensures q == p { ActiveIsLast(y, key, q); }
        if !hidden && CanSupersede(y.rows[p], now) { TakeOver(y, id, p, now); }
      } else {
        FirstActivation(y, id, now);
      }
    }
  }

  lemma StepHolds(y: System, a: Action)
    requires Inv(y)
    ensures Inv(Step(y, a))
  {
    match a
    case Load(id, key, loadedBy, requiresReview) =>
      if id !in y.rows { UnactivatedChange(y, id, Row(key, loadedBy, requiresReview, Loaded, None, None, None, "")); }
    case RecordReview(id, reviewer, note, at) =>
      if id in y.rows && y.rows[id].status == Loaded {
        assert StatusOk(y.rows[id]);
        UnactivatedChange(y, id, y.rows[id].(review := Some(Review(TrimSpace(reviewer), TrimSpace(note), at))));
      }
    case Reject(id, reason) =>
      if id in y.rows && y.rows[id].status == Loaded {
        assert StatusOk(y.rows[id]);
        UnactivatedChange(y, id, y.rows[id].(status := Rejected, rejectedReason := TrimSpace(reason)));
      }
    case Activate(id, now, hidden) => ActivateHolds(y, id, now, hidden);
  }

  lemma {:induction false} RunHolds(actions: seq<Action>)
    ensures Inv(Run(actions))
  {
    if actions != [] {
      RunHolds(actions[..|actions|-1]);
      StepHolds(Run(actions[..|actions|-1]), actions[|actions|-1]);
    }
  }

  // ---------------------------------------------------------------- two people

  // Signed off, where that is required, by somebody other than the loader.
  ghost predicate SignedOff(r: Row) {
    && (r.review.Some? ==>
          r.review.value.reviewer != "" && r.review.value.note != "" && !SameName(r.review.value.reviewer, r.loadedBy))
    && (r.activatedAt.Some? && r.requiresReview ==> r.review.Some?)
  }

  lemma StepSignedOff(y: System, a: Action, i: Id)
    requires Inv(y) && i in Step(y, a).rows && (i in y.rows ==> SignedOff(y.rows[i]))
    ensures SignedOff(Step(y, a).rows[i])
  {
    if i in y.rows { assert StatusOk(y.rows[i]); }
    if a.RecordReview? && i == a.id && i in y.rows { FoldsCaseAlone(TrimSpace(a.reviewer), y.rows[i].loadedBy); }
  }

  // In every reachable state: a version that was ever activated and requires a review has one, and every review
  // was given with a note by someone whose name is not the loader's, whatever the case of its letters.
  lemma {:induction false} ActivatedIsReviewed(actions: seq<Action>)
    ensures forall i | i in Run(actions).rows :: SignedOff(Run(actions).rows[i])
  {
    if actions != [] {
      var n := |actions| - 1;
      ActivatedIsReviewed(actions[..n]);
      RunHolds(actions[..n]);
      forall i | i in Run(actions).rows ensures SignedOff(Run(actions).rows[i]) {
        StepSignedOff(Run(actions[..n]), actions[n], i);
      }
    }
  }

  // ---------------------------------------------------------------- the timeline

  // In force at t: from its activation until its supersession.
  predicate InForce(rows: map<Id, Row>, key: Key, t: Time, i: Id) {
    ActivatedUnder(rows, key, i) && rows[i].activatedAt.value <= t
    && (rows[i].supersededAt.None? || rows[i].supersededAt.value > t)
  }

  function ActivationTime(rows: map<Id, Row>, i: Id): Time
    requires i in rows && rows[i].activatedAt.Some?
  {
    rows[i].activatedAt.value
  }

  lemma {:induction false} TimesRise(rows: map<Id, Row>, key: Key, ids: seq<Id>, m: nat, n: nat)
    requires Chain(rows, key, ids) && m <= n < |ids|
    ensures ActivatedUnder(rows, key, ids[m]) && ActivatedUnder(rows, key, ids[n])
    ensures ActivationTime(rows, ids[m]) <= ActivationTime(rows, ids[n])
  {
    assert ActivatedUnder(rows, key, ids[m]) && ActivatedUnder(rows, key, ids[n]);
    if m < n {
      TimesRise(rows, key, ids, m, n - 1);
      assert Replaced(rows, ids[n-1], ids[n]);
    }
  }

  // The last version activated by t.
  lemma {:induction false} LastBy(rows: map<Id, Row>, key: Key, ids: seq<Id>, t: Time, k: nat) returns (n: nat)
    requires Chain(rows, key, ids) && k < |ids| && ActivatedUnder(rows, key, ids[0])
             && ActivationTime(rows, ids[0]) <= t
    ensures n <= k && ActivatedUnder(rows, key, ids[n]) && ActivationTime(rows, ids[n]) <= t
    ensures n < k ==> ActivatedUnder(rows, key, ids[n+1]) && ActivationTime(rows, ids[n+1]) > t
    decreases k
  {
    assert ActivatedUnder(rows, key, ids[k]);
    if ActivationTime(rows, ids[k]) <= t {
      n := k;
    } else {
      assert ActivatedUnder(rows, key, ids[k-1]);
      n := LastBy(rows, key, ids, t, k - 1);
    }
  }

  lemma OnlyLastInForce(rows: map<Id, Row>, key: Key, ids: seq<Id>, t: Time, n: nat, i: Id)
    requires Chain(rows, key, ids) && n < |ids| && ActivatedUnder(rows, key, ids[n])
             && ActivationTime(rows, ids[n]) <= t
    requires n < |ids| - 1 ==> ActivatedUnder(rows, key, ids[n+1]) && ActivationTime(rows, ids[n+1]) > t
    requires InForce(rows, key, t, i)
    ensures i == ids[n]
  {
    var m :| 0 <= m < |ids| && ids[m] == i;
    if m < n {
      assert Replaced(rows, ids[m], ids[m+1]);
      TimesRise(rows, key, ids, m + 1, n);
    } else if m > n {
      TimesRise(rows, key, ids, n + 1, m);
    }
  }

  lemma ChainCovers(rows: map<Id, Row>, key: Key, ids: seq<Id>, t: Time) returns (n: nat)
    requires Chain(rows, key, ids) && ids != [] && ActivatedUnder(rows, key, ids[0])
             && ActivationTime(rows, ids[0]) <= t
    ensures n < |ids| && InForce(rows, key, t, ids[n]) && forall i | InForce(rows, key, t, i) :: i == ids[n]
  {
    n := LastBy(rows, key, ids, t, |ids| - 1);
    if n < |ids| - 1 { assert Replaced(rows, ids[n], ids[n+1]); }
    forall i | InForce(rows, key, t, i) ensures i == ids[n] {
      OnlyLastInForce(rows, key, ids, t, n, i);
    }
  }

  // In every reachable state and for every key: at most one version is active; exactly one is in force at
  // each instant from the key's first activation on, and none before.
  lemma InForceIsPartition(actions: seq<Action>, key: Key, t: Time)
    ensures var rows := Run(actions).rows;
            && (forall i, j | IsActive(rows, key, i) && IsActive(rows, key, j) :: i == j)
            && (forall i, j | InForce(rows, key, t, i) && InForce(rows, key, t, j) :: i == j)
            && ((exists i :: InForce(rows, key, t, i))
                <==> exists i :: ActivatedUnder(rows, key, i) && ActivationTime(rows, i) <= t)
  {
    RunHolds(actions);
    var y := Run(actions);
    var ids := HistoryOf(y, key);
    assert Chain(y.rows, key, ids);
    forall i, j | IsActive(y.rows, key, i) && IsActive(y.rows, key, j) ensures i == j {
      ActiveIsLast(y, key, i);
      ActiveIsLast(y, key, j);
    }
    if ids != [] && ActivatedUnder(y.rows, key, ids[0]) && ActivationTime(y.rows, ids[0]) <= t {
      var n := ChainCovers(y.rows, key, ids, t);
    } else {
      forall i | ActivatedUnder(y.rows, key, i) ensures ActivationTime(y.rows, i) > t {
        var m :| 0 <= m < |ids| && ids[m] == i;
        TimesRise(y.rows, key, ids, 0, m);
      }
    }
  }

  // Whatever the clock says, an activation at `now` leaves untouched which version was in force at every
  // instant before `now`, for every key.
  lemma PastIsFixed(actions: seq<Action>, id: Id, now: Time, hidden: bool, key: Key, t: Time, i: Id)
    requires t < now
    ensures var y := Run(actions);
            InForce(y.rows, key, t, i) <==> InForce(Step(y, Activate(id, now, hidden)).rows, key, t, i)
  {
    RunHolds(actions);
    var y := Run(actions);
    if id in y.rows { assert StatusOk(y.rows[id]); }
    if i in y.rows { assert StatusOk(y.rows[i]); }
  }

  // Every other step leaves it untouched at all instants.
  lemma OnlyActivationMatters(actions: seq<Action>, a: Action, key: Key, t: Time, i: Id)
    requires !a.Activate?
    ensures var y := Run(actions); InForce(y.rows, key, t, i) <==> InForce(Step(y, a).rows, key, t, i)
  {
    RunHolds(actions);
    var y := Run(actions);
    if a.id in y.rows { assert StatusOk(y.rows[a.id]); }
  }
}
