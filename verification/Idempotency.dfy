// The idempotency key of one (scope, key): internal/application/idempotency/guard.go,
// internal/infrastructure/postgres/idempotency_repository.go and the statements of idempotency_keys.sql.
module Idempotency {
  import opened Prelude
  import Text

  type Token = int

  // A SHA-256 of the payload, taken to be injective.
  type Hash = int

  datatype Key = InProgress(hash: Hash, token: Token, expires: Time, attempts: nat)
    | Completed(hash: Hash, attempts: nat)

  // INSERT ... ON CONFLICT DO UPDATE WHERE in progress, expired and same payload.
  function Upsert(k: Option<Key>, hash: Hash, t: Token, now: Time, ttl: Time): Option<Key> {
    match k
    case None => Some(InProgress(hash, t, now + ttl, 1))
    case Some(InProgress(h, _, expires, attempts)) =>
      if expires <= now && h == hash then Some(InProgress(h, t, now + ttl, attempts + 1)) else None
    case Some(Completed(_, _)) => None
  }

  datatype ClaimOutcome = Acquired(attempts: nat) | AlreadyCompleted | PayloadMismatch | KeyInProgress

  // What the row says when the upsert was refused; the row may have moved since.
  function Inspect(k: Option<Key>, hash: Hash): ClaimOutcome {
    match k
    case None => KeyInProgress
    case Some(row) => if row.hash != hash then PayloadMismatch else if row.Completed? then AlreadyCompleted
      else KeyInProgress
  }

  predicate HeldBy(k: Option<Key>, t: Token) {
    k.Some? && k.value.InProgress? && k.value.token == t
  }

  function Complete(k: Option<Key>, t: Token): Option<Key> {
    if HeldBy(k, t) then Some(Key.Completed(k.value.hash, k.value.attempts)) else None
  }

  function Release(k: Option<Key>, t: Token, now: Time): Option<Key> {
    if HeldBy(k, t) then Some(k.value.(expires := now)) else None
  }

  // A key just claimed is its claimer's until the lease runs out: no rival takes it before, any rival with the
  // same payload takes it from then on, and completing or releasing it is the claimer's alone.
  lemma LeaseIsExclusive(k: Option<Key>, hash: Hash, t: Token, now: Time, ttl: Time, u: Token, later: Time, ttl': Time)
    requires ttl > 0 && Upsert(k, hash, t, now, ttl).Some?
    ensures var held := Upsert(k, hash, t, now, ttl);
            && (Upsert(held, hash, u, later, ttl').Some? <==> now + ttl <= later)
            && (Complete(held, u).Some? <==> u == t)
            && (Release(held, u, later).Some? <==> u == t)
            && (u == t ==> Upsert(Release(held, u, later), hash, u, later, ttl').Some?)
  {}

  // A completed key is never claimed, completed or released again; a key's payload never changes.
  lemma CompletedStays(k: Key, hash: Hash, t: Token, now: Time, ttl: Time)
    ensures k.Completed? ==>
              Upsert(Some(k), hash, t, now, ttl).None? && Complete(Some(k), t).None? && Release(Some(k), t, now).None?
    ensures Upsert(Some(k), hash, t, now, ttl).Some? ==> Upsert(Some(k), hash, t, now, ttl).value.hash == k.hash == hash
  {}

  datatype Error = InvalidScope | InvalidKey | InvalidTtl | Mismatch | BusyKey | LostLease

  datatype Claimed = Claimed(outcome: ClaimOutcome) | ClaimError(error: Error)

  predicate Blank(s: string) {
    Text.AllSpace(s)
  }

  // Free, or in progress for the same payload past its expiry.
  predicate Claimable(k: Option<Key>, hash: Hash, now: Time) {
    k.None? || (k.value.InProgress? && k.value.hash == hash && k.value.expires <= now)
  }

  // ---------------------------------------------------------------- the store

  class Store {
    var keys: map<(string, string), Key>

    constructor ()
      ensures keys == map[]
    {
      keys := map[];
    }

    function At(scope: string, key: string): Option<Key>
      reads this
    {
      if (scope, key) in keys then Some(keys[(scope, key)]) else None
    }

    method Put(scope: string, key: string, after: Option<Key>) returns (written: bool)
      modifies this
      ensures written == after.Some?
      ensures keys == if after.Some? then old(keys)[(scope, key) := after.value] else old(keys)
    {
      written := after.Some?;
      if written { keys := keys[(scope, key) := after.value]; }
    }

    // Claim, and when refused look why.
    method ClaimKey(scope: string, key: string, hash: Hash, t: Token, now: Time, ttl: Time) returns (r: Claimed)
      modifies this
      ensures r.ClaimError? && r.error in {InvalidScope, InvalidKey, InvalidTtl}
              <==> Blank(scope) || Blank(key) || ttl <= 0
      ensures r.ClaimError? ==> keys == old(keys)
      ensures !Blank(scope) && !Blank(key) && ttl > 0 ==>
        var was, after := old(At(scope, key)), Upsert(old(At(scope, key)), hash, t, now, ttl);
        && (after.Some? ==>
              r == Claimed(Acquired(after.value.attempts)) && keys == old(keys)[(scope, key) := after.value])
        && (after.None? ==>
              && keys == old(keys) && was.Some?
              && (was.value.hash != hash ==> r == ClaimError(Mismatch))
              && (was.value.hash == hash && was.value.Completed? ==> r == Claimed(AlreadyCompleted))
              && (was.value.hash == hash && was.value.InProgress? ==>
                  r == ClaimError(BusyKey) && now < was.value.expires))
      // a key is taken when it is free, or in progress for the same payload past its expiry; it is then held
      // for the whole lease with one more attempt counted
      ensures r.Claimed? && r.outcome.Acquired? <==>
        !Blank(scope) && !Blank(key) && ttl > 0 && Claimable(old(At(scope, key)), hash, now)
      ensures r.Claimed? && r.outcome.Acquired? ==>
        var attempts := if old(At(scope, key)).None? then 1 else old(At(scope, key)).value.attempts + 1;
        && r.outcome.attempts == attempts
        && At(scope, key) == Some(InProgress(hash, t, now + ttl, attempts))
    {
      if Blank(scope) { return ClaimError(InvalidScope); }
      if Blank(key) { return ClaimError(InvalidKey); }
      if ttl <= 0 { return ClaimError(InvalidTtl); }
      var after := Upsert(At(scope, key), hash, t, now, ttl);
      var written := Put(scope, key, after);
      if written {
        return Claimed(Acquired(after.value.attempts));
      }
      match Inspect(At(scope, key), hash) {
        case PayloadMismatch => return ClaimError(Mismatch);
        case AlreadyCompleted => return Claimed(AlreadyCompleted);
        case _ => return ClaimError(BusyKey);
      }
    }

    // Succeeds exactly for the token that still holds the key.
    method CompleteKey(scope: string, key: string, t: Token) returns (error: Option<Error>)
      modifies this
      ensures error.None? <==> !Blank(scope) && !Blank(key) && HeldBy(old(At(scope, key)), t)
      ensures error == Some(LostLease) <==> !Blank(scope) && !Blank(key) && !HeldBy(old(At(scope, key)), t)
      ensures keys == if error.None?
              then old(keys)[(scope, key) :=
                             Key.Completed(old(keys)[(scope, key)].hash, old(keys)[(scope, key)].attempts)]
                      else old(keys)
    {
      if Blank(scope) { return Some(InvalidScope); }
      if Blank(key) { return Some(InvalidKey); }
      var written := Put(scope, key, Complete(At(scope, key), t));
      return if written then None else Some(LostLease);
    }

    // Only the holder's lease is given up, and nobody else can tell from the outcome.
    method ReleaseKey(scope: string, key: string, t: Token, now: Time) returns (error: Option<Error>)
      modifies this
      ensures error.None? <==> !Blank(scope) && !Blank(key)
      ensures keys == if error.None? && HeldBy(old(At(scope, key)), t)
              then old(keys)[(scope, key) := old(keys)[(scope, key)].(expires := now)]
                      else old(keys)
    {
      if Blank(scope) { return Some(InvalidScope); }
      if Blank(key) { return Some(InvalidKey); }
      var written := Put(scope, key, Release(At(scope, key), t, now));
      return None;
    }
  }

  // ---------------------------------------------------------------- the guard

  // What the wrapped handler does with its claim. Committing means its transaction completes the key
  // and commits; it is rolled back when the lease is gone.
  datatype Handling = Commits | CommitsNothing | FailsBefore | CommitsThenFails | Panics

  // Another worker that tries to claim the key while the handler runs.
  datatype Rival = NoRival | Rival(token: Token, at: Time)

  datatype GuardOutcome = HandledNow | SkippedDuplicate | Refused(error: Error) | NotCompletedInTx | HandlerError
    | HandlerPanic | LeaseLost

  // One delivery through the guard. `effects` counts the handler transactions that committed; the release
  // of an unused lease may fail, which is only logged.
  method Handle(store: Store, scope: string, key: string, hash: Hash, t: Token, now: Time, ttl: Time, h: Handling,
                rival: Rival, releases: bool)
    returns (r: GuardOutcome, effects: nat)
    requires !Blank(scope) && ttl > 0 && (rival.Rival? ==> rival.token != t)
    modifies store
    ensures Blank(key) ==> r == Refused(InvalidKey) && effects == 0 && store.keys == old(store.keys)
    ensures !Blank(key) ==> store.At(scope, key).Some? && effects <= 1
    // the answer, case by case
    ensures !Blank(key) ==>
      var was := old(store.At(scope, key));
      var mine := Claimable(was, hash, now);
      var taken := rival.Rival? && now + ttl <= rival.at;
      var completes := h == Commits || h == CommitsThenFails;
      && (r == Refused(Mismatch) <==> was.Some? && was.value.hash != hash)
      && (r == SkippedDuplicate <==> was.Some? && was.value.hash == hash && was.value.Completed?)
      && (r == Refused(BusyKey)
          <==> was.Some? && was.value.hash == hash && was.value.InProgress? && now < was.value.expires)
      && (r == HandledNow <==> mine && h == Commits && !taken)
      && (r == LeaseLost <==> mine && completes && taken)
      && (r == NotCompletedInTx <==> mine && h == CommitsNothing)
      && (r == HandlerPanic <==> mine && h == Panics)
      && (r == HandlerError <==> mine && (h == FailsBefore || (h == CommitsThenFails && !taken)))
      && (effects == 1 <==> mine && completes && !taken)
    // an effect commits exactly with the key's completion, and only from a key that was not complete
    ensures !Blank(key) ==>
      (effects == 1 <==>
         store.At(scope, key).value.Completed?
         && !(old(store.At(scope, key)).Some? && old(store.At(scope, key)).value.Completed?))
    // success means the key is complete
    ensures r == HandledNow || r == SkippedDuplicate ==> !Blank(key) && store.At(scope, key).value.Completed?
    ensures r == SkippedDuplicate ==> effects == 0 && store.keys == old(store.keys)
    // a rival that took the key over keeps it, and stops this delivery's effect
    ensures !Blank(key) && rival.Rival? && HeldBy(store.At(scope, key), rival.token) ==> effects == 0
    ensures r == LeaseLost ==> rival.Rival? && HeldBy(store.At(scope, key), rival.token)
    // any other key is left alone, and a lease taken but not used is given back at once, or by its expiry
    ensures forall k | k != (scope, key) ::
              (k in store.keys <==> k in old(store.keys)) && (k in store.keys ==> store.keys[k] == old(store.keys)[k])
    ensures (r == NotCompletedInTx || r == HandlerError || r == HandlerPanic) && effects == 0 && rival.NoRival? ==>
      forall u, at | at >= (if releases then now else now + ttl) ::
        Upsert(store.At(scope, key), hash, u, at, ttl).Some?
  {
    effects := 0;
    if Blank(key) {
      return Refused(InvalidKey), 0;
    }
    var claim := store.ClaimKey(scope, key, hash, t, now, ttl);
    if claim.ClaimError? {
      return Refused(claim.error), 0;
    }
    if claim.outcome == AlreadyCompleted {
      return SkippedDuplicate, 0;
    }
    if rival.Rival? {
      var _ := store.ClaimKey(scope, key, hash, rival.token, rival.at, ttl);
    }
    var error: Option<Error> := None;
    if h == Commits || h == CommitsThenFails {
      error := store.CompleteKey(scope, key, t);
      if error.None? { effects := 1; }
    }
    if h == Commits && error.None? {
      return HandledNow, effects;
    }
    if releases {
      var _ := store.ReleaseKey(scope, key, t, now);
    }
    r := if error.Some? then LeaseLost
         else if h == CommitsNothing then NotCompletedInTx
         else if h == Panics then HandlerPanic
         else HandlerError;
  }
}
