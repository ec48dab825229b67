// The lifecycle of regulatory datasets: internal/domain/regulatory/dataset.go and the transactions of
// internal/application/regulatory/service.go.
module Regulatory {
  import opened Prelude
  import opened Text

  datatype Status = Loaded | Active | Superseded | Rejected

  datatype Key = Key(jurisdiction: string, category: string, source: string)

  datatype Review = Review(reviewer: string, note: string, at: Time)

  datatype Row = Row(
    key: Key, loadedBy: string, requiresReview: bool, status: Status, review: Option<Review>,
    activatedAt: Option<Time>, supersededAt: Option<Time>, rejectedReason: string)

  datatype Error =
    | InvalidTransition | InvalidReview | ReviewerIsLoader | ReviewRequired | InvalidDataset | NotFound | ActiveExists

  function Lower(c: char): char {
    if 'A' <= c <= 'Z' then c + (32 as char) else c
  }

  predicate EqualFold(a: string, b: string) {
    |a| == |b| && forall i | 0 <= i < |a| :: Lower(a[i]) == Lower(b[i])
  }

  // The same character, or the two cases of one letter.
  predicate SameLetter(c: char, d: char) {
    c == d || ('A' <= c <= 'Z' && d as int - c as int == 32) || ('A' <= d <= 'Z' && c as int - d as int == 32)
  }

  predicate SameName(a: string, b: string) {
    |a| == |b| && forall i | 0 <= i < |a| :: SameLetter(a[i], b[i])
  }

  // Folding identifies exactly the names that differ in case alone.
  lemma FoldsCaseAlone(a: string, b: string)
    ensures EqualFold(a, b) <==> SameName(a, b)
  {
    if |a| == |b| {
      forall i | 0 <= i < |a| ensures Lower(a[i]) == Lower(b[i]) <==> SameLetter(a[i], b[i]) {
      }
    }
  }

  // A dataset as the service holds it in memory.
  class Dataset {
    const id: Id
    const key: Key
    const loadedBy: string
    const requiresReview: bool
    var status: Status
    var review: Option<Review>
    var activatedAt: Option<Time>
    var supersededAt: Option<Time>
    var rejectedReason: string

    constructor (id: Id, r: Row)
      ensures State() == r && this.id == id
    {
      this.id, key, loadedBy, requiresReview := id, r.key, r.loadedBy, r.requiresReview;
      status, review, activatedAt, supersededAt, rejectedReason :=
        r.status, r.review, r.activatedAt, r.supersededAt, r.rejectedReason;
    }

    function State(): Row
      reads this
    {
      Row(key, loadedBy, requiresReview, status, review, activatedAt, supersededAt, rejectedReason)
    }

    // Signs off a loaded dataset, once, by someone other than its loader.
    method RecordReview(reviewer: string, note: string, now: Time) returns (error: Option<Error>)
      modifies this
      ensures State() == if error.None?
              then old(State()).(review := Some(Review(TrimSpace(reviewer), TrimSpace(note), now)))
                         else old(State())
      ensures error.None? <==>
        old(status) == Loaded && old(review).None? && TrimSpace(reviewer) != "" && TrimSpace(note) != ""
        && !SameName(TrimSpace(reviewer), loadedBy)
      ensures error == Some(InvalidTransition) <==> old(status) != Loaded || old(review).Some?
      ensures error == Some(ReviewerIsLoader) ==> SameName(TrimSpace(reviewer), loadedBy)
    {
      if status != Loaded || review.Some? {
        return Some(InvalidTransition);
      }
      var who, text := TrimSpace(reviewer), TrimSpace(note);
      FoldsCaseAlone(who, loadedBy);
      if who == "" || text == "" {
        return Some(InvalidReview);
      }
      if EqualFold(who, loadedBy) {
        return Some(ReviewerIsLoader);
      }
      review := Some(Review(who, text, now));
      return None;
    }

    method Activate(now: Time) returns (error: Option<Error>)
      modifies this
      ensures error == ActivateError(old(State()))
      ensures error == Some(InvalidTransition) <==> old(status) != Loaded
      ensures error == Some(ReviewRequired) <==> old(status) == Loaded && requiresReview && old(review).None?
      ensures error.None? <==> old(status) == Loaded && (requiresReview ==> old(review).Some?)
      ensures State() == if error.None? then old(State()).(status := Active, activatedAt := Some(now))
                         else old(State())
    {
      if status != Loaded {
        return Some(InvalidTransition);
      }
      if requiresReview && review.None? {
        return Some(ReviewRequired);
      }
      status := Active;
      activatedAt := Some(now);
      return None;
    }

    method Supersede(now: Time) returns (error: Option<Error>)
      requires status == Active ==> activatedAt.Some?
      modifies this
      ensures error.None? <==> old(status) == Active && old(activatedAt).value <= now
      ensures error.Some? ==> error == Some(InvalidTransition)
      ensures State() == if error.None? then old(State()).(status := Superseded, supersededAt := Some(now))
                         else old(State())
    {
      if status != Active {
        return Some(InvalidTransition);
      }
      if now < activatedAt.value {
        return Some(InvalidTransition);
      }
      status := Superseded;
      supersededAt := Some(now);
      return None;
    }

    method Reject(reason: string) returns (error: Option<Error>)
      modifies this
      ensures error.None? <==> old(status) == Loaded && TrimSpace(reason) != ""
      ensures State() == if error.None? then old(State()).(status := Rejected, rejectedReason := TrimSpace(reason))
              else old(State())
    {
      if status != Loaded {
        return Some(InvalidTransition);
      }
      if TrimSpace(reason) == "" {
        return Some(InvalidDataset);
      }
      status := Rejected;
      rejectedReason := TrimSpace(reason);
      return None;
    }
  }

  function ActivateError(r: Row): Option<Error> {
    if r.status != Loaded then Some(InvalidTransition)
    else if r.requiresReview && r.review.None? then Some(ReviewRequired)
    else None
  }

  function Activated(r: Row, now: Time): Row {
    r.(status := Active, activatedAt := Some(now))
  }

  predicate CanSupersede(r: Row, now: Time) {
    r.status == Active && r.activatedAt.Some? && r.activatedAt.value <= now
  }

  function SupersededRow(r: Row, now: Time): Row {
    r.(status := Superseded, supersededAt := Some(now))
  }

  predicate IsActive(rows: map<Id, Row>, key: Key, i: Id) {
    i in rows && rows[i].key == key && rows[i].status == Active
  }

  // Every active row has been activated.
  ghost predicate RowsOk(rows: map<Id, Row>) {
    forall i | i in rows && rows[i].status == Active :: rows[i].activatedAt.Some?
  }

  // ---------------------------------------------------------------- the service

  class Service {
    var rows: map<Id, Row>

    constructor ()
      ensures rows == map[]
    {
      rows := map[];
    }

    // UPDATE ... WHERE id AND status = expected, under the unique index of one ACTIVE row per key.
    method SaveLifecycle(d: Dataset, expected: Status) returns (error: Option<Error>)
      modifies this
      ensures error.None? <==> d.id in old(rows) && old(rows)[d.id].status == expected
                               && !(d.status == Active && exists j :: j != d.id && IsActive(old(rows), d.key, j))
      ensures rows == if error.None? then old(rows)[d.id := d.State()] else old(rows)
    {
      if d.id !in rows || rows[d.id].status != expected {
        return Some(InvalidTransition);
      }
      if d.status == Active && exists j :: j in rows && j != d.id && IsActive(rows, d.key, j) {
        return Some(ActiveExists);
      }
      rows := rows[d.id := d.State()];
      return None;
    }

    // SELECT ... WHERE status = 'ACTIVE' FOR UPDATE. A concurrent activation can hide the row: then the
    // unique index has the last word.
    method ActiveForUpdate(key: Key, hidden: bool) returns (previous: Option<Id>)
      ensures hidden ==> previous.None?
      ensures previous.Some? ==> IsActive(rows, key, previous.value)
      ensures previous.None? && !hidden ==> forall i :: !IsActive(rows, key, i)
    {
      if !hidden && exists i :: i in rows && IsActive(rows, key, i) {
        var i :| i in rows && IsActive(rows, key, i);
        return Some(i);
      }
      return None;
    }

    // One transaction: the previous active version of the key is superseded at the very instant the new
    // one is activated, or nothing happens.
    method Activate(id: Id, now: Time, hidden: bool) returns (error: Option<Error>)
      requires RowsOk(rows) && AtMostOneActive(rows)
      modifies this
      ensures rows == Activation(old(rows), id, now, hidden)
      ensures error.None? ==> id in rows && rows[id].status == Active && rows[id].activatedAt == Some(now)
      ensures error.Some? ==> rows == old(rows)
      ensures error.None? <==> MayActivate(old(rows), id, now, hidden)
      ensures error.None? ==> forall i :: HandedOver(old(rows), rows, id, now, i)
    {
      var before := rows;
      if id !in rows {
        return Some(NotFound);
      }
      var d := new Dataset(id, rows[id]);
      error := d.Activate(now);
      if error.Some? {
        return;
      }
      var previous := ActiveForUpdate(d.key, hidden);
      if previous.Some? {
        var p := new Dataset(previous.value, rows[previous.value]);
        error := p.Supersede(now);
        if error.Some? {
          return;
        }
        error := SaveLifecycle(p, Active);
      }
      if error.None? {
        error := SaveLifecycle(d, Loaded);
      }
      if error.Some? {
        rows := before;
      }
    }
  }

  // A loaded version, reviewed where it must be, whose predecessor, if any, is found and was not activated
  // later by the clock.
  ghost predicate MayActivate(rows: map<Id, Row>, id: Id, now: Time, hidden: bool) {
    && id in rows && rows[id].status == Loaded && (rows[id].requiresReview ==> rows[id].review.Some?)
    && forall p | IsActive(rows, rows[id].key, p) ::
         !hidden && rows[p].activatedAt.Some? && rows[p].activatedAt.value <= now
  }

  // Activating `id` makes it active from now on, ends its key's active version now, and leaves every other row.
  ghost predicate HandedOver(rows: map<Id, Row>, next: map<Id, Row>, id: Id, now: Time, i: Id)
    requires id in rows
  {
    && (i in next <==> i in rows)
    && (i in rows ==>
          next[i] == if i == id then rows[i].(status := Active, activatedAt := Some(now))
                     else if IsActive(rows, rows[id].key, i)
                     then rows[i].(status := Superseded, supersededAt := Some(now))
                     else rows[i])
  }

  // What the activation transaction leaves.
  ghost function Activation(rows: map<Id, Row>, id: Id, now: Time, hidden: bool): map<Id, Row> {
    if id !in rows || ActivateError(rows[id]).Some? then rows
    else
      var key := rows[id].key;
      if !(exists p :: IsActive(rows, key, p)) then rows[id := Activated(rows[id], now)]
      else
        var p :| IsActive(rows, key, p);
        if hidden || !CanSupersede(rows[p], now) then rows
        else rows[p := SupersededRow(rows[p], now)][id := Activated(rows[id], now)]
  }

  ghost predicate AtMostOneActive(rows: map<Id, Row>) {
    forall i, j | i in rows && j in rows && rows[i].status == Active && rows[j].status == Active
      && rows[i].key == rows[j].key :: i == j
  }
}
