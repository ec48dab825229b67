// One message in a consumer: the failure classifier of internal/application/dlq/classifier.go and the
// retry loop of internal/infrastructure/redis/consumer.go.
module Consumer {
  import opened Prelude
  import Backoff

  // The sentinels an error chain can carry; the table's order is the order they are looked for.
  datatype Sentinel =
    | HandlerPanic | CorruptEnvelope | PayloadMismatch | NotCompletedInTx | ContractViolation
    | MalformedRecord | InvalidConfig | Permanent
    | KeyInProgress | LeaseLost

  // A failure class is named after its sentinel, except for transient failures that ran out of attempts.
  datatype Class = Of(sentinel: Sentinel) | RetriesExhausted

  datatype Decision = Retry | DeadLetter(failure: Class) | LeavePending

  const PERMANENT: seq<Sentinel> := [
    HandlerPanic, CorruptEnvelope, PayloadMismatch, NotCompletedInTx, ContractViolation,
    MalformedRecord, InvalidConfig, Permanent]

  // The failures no retry can mend; the unspecific one counts only when no other is there.
  const SPECIFIC: set<Sentinel> := {
    HandlerPanic, CorruptEnvelope, PayloadMismatch, NotCompletedInTx, ContractViolation, MalformedRecord, InvalidConfig}

  // The first permanent sentinel of the table that the chain carries.
  predicate FirstPermanent(err: set<Sentinel>, s: Sentinel) {
    exists k :: 0 <= k < |PERMANENT| && PERMANENT[k] == s && s in err && forall j | 0 <= j < k :: PERMANENT[j] !in err
  }

  // Leave pending when the consumer is stopping or another holds the key; dead-letter with the first
  // permanent sentinel of the table that the chain carries; otherwise retry.
  method Classify(err: set<Sentinel>, stopping: bool) returns (d: Decision)
    ensures d == LeavePending <==> stopping || KeyInProgress in err || LeaseLost in err
    ensures d.DeadLetter? ==> d.failure.Of? && FirstPermanent(err, d.failure.sentinel)
    ensures d == Retry ==> forall k | 0 <= k < |PERMANENT| :: PERMANENT[k] !in err
    ensures d.DeadLetter? <==>
              !stopping && KeyInProgress !in err && LeaseLost !in err && err * (SPECIFIC + {Permanent}) != {}
    ensures d == DeadLetter(Of(Permanent)) <==>
              !stopping && KeyInProgress !in err && LeaseLost !in err && Permanent in err && err * SPECIFIC == {}
  {
    if stopping {
      return LeavePending;
    }
    if KeyInProgress in err || LeaseLost in err {
      return LeavePending;
    }
    for k := 0 to |PERMANENT|
      invariant forall j | 0 <= j < k :: PERMANENT[j] !in err
    {
      if PERMANENT[k] in err {
        TableHolds(err, k);
        return DeadLetter(Of(PERMANENT[k]));
      }
    }
    TableHolds(err, |PERMANENT|);
    return Retry;
  }

  // The table lists the specific sentinels first and the unspecific one last.
  lemma TableHolds(err: set<Sentinel>, k: nat)
    requires k <= |PERMANENT| && forall j | 0 <= j < k :: PERMANENT[j] !in err
    ensures k == |PERMANENT| ==> err * (SPECIFIC + {Permanent}) == {}
    ensures k < |PERMANENT| && PERMANENT[k] in err ==> PERMANENT[k] in err * (SPECIFIC + {Permanent})
    ensures k < |PERMANENT| && PERMANENT[k] in err ==> (PERMANENT[k] == Permanent <==> err * SPECIFIC == {})
  {
    assert PERMANENT[7] == Permanent && forall j | 0 <= j < 7 :: PERMANENT[j] in SPECIFIC;
    assert PERMANENT[0] == HandlerPanic && PERMANENT[1] == CorruptEnvelope && PERMANENT[2] == PayloadMismatch;
    assert PERMANENT[3] == NotCompletedInTx && PERMANENT[4] == ContractViolation;
    assert PERMANENT[5] == MalformedRecord && PERMANENT[6] == InvalidConfig;
    if k < |PERMANENT| && PERMANENT[k] in err && PERMANENT[k] != Permanent {
      assert PERMANENT[k] in err * SPECIFIC;
    }
  }

  // ---------------------------------------------------------------- the retry loop

  datatype Config = Config(maxAttempts: int, base: int, maxBackoff: int, handlerTimeout: int, claimMinIdle: int)

  // Accepted by the consumer's validation; durations are 64-bit.
  predicate Valid(c: Config) {
    && Backoff.IsInt64(c.base) && Backoff.IsInt64(c.maxBackoff) && Backoff.IsInt64(c.handlerTimeout)
       && Backoff.IsInt64(c.claimMinIdle)
    && Backoff.Accepted(c.maxAttempts, c.base, c.maxBackoff, c.handlerTimeout, c.claimMinIdle)
  }

  // What happens from outside at one attempt: a cancelled task before it; the handler's result and how
  // long it ran, at most its timeout; whether the consumer is stopping; the random draw; and whether the
  // wait is cut short.
  datatype Attempt = Attempt(
    cancelled: bool, failed: bool, err: set<Sentinel>, ran: int, stopping: bool, draw: int, interrupted: bool)

  datatype Fate = Acknowledge | ToDeadLetters(failure: Class, attempts: int) | Pending

  predicate Plausible(c: Config, a: Attempt) {
    0 <= a.ran <= c.handlerTimeout && 0 <= a.draw
  }

  // A failure that is neither permanent nor a reason to leave the message to others.
  ghost predicate Retryable(a: Attempt) {
    && !a.cancelled && a.failed && !a.stopping && KeyInProgress !in a.err && LeaseLost !in a.err
    && forall k | 0 <= k < |PERMANENT| :: PERMANENT[k] !in a.err
  }

  // The loop goes on after it.
  ghost predicate Transient(a: Attempt) {
    Retryable(a) && !a.interrupted
  }

  // A random draw below a positive bound.
  function Below(draw: int, bound: int): (r: int)
    requires draw >= 0 && bound > 0
    ensures 0 <= r < bound && (draw < bound ==> r == draw)
  {
    draw % bound
  }

  // Any delay up to the ceiling can be drawn, and no other.
  function FullJitter(attempt: int, c: Config, draw: int): (delay: int)
    requires Valid(c) && draw >= 0
    ensures 0 <= delay <= Backoff.Exponential(attempt, c.base, c.maxBackoff) <= c.maxBackoff
    ensures draw <= Backoff.Exponential(attempt, c.base, c.maxBackoff) ==> delay == draw
  {
    Backoff.ExponentialBounded(attempt, c.base, c.maxBackoff);
    Below(draw, Backoff.Exponential(attempt, c.base, c.maxBackoff) + 1)
  }

  // A failure that goes to the dead letters for sentinel s.
  predicate FailsFor(a: Attempt, s: Sentinel) {
    && !a.cancelled && a.failed && !a.stopping && KeyInProgress !in a.err && LeaseLost !in a.err
    && FirstPermanent(a.err, s)
  }

  // The time the attempts before the n-th ran and waited.
  ghost function Waited(c: Config, outside: nat -> Attempt, n: nat): int
    requires Valid(c) && forall i :: Plausible(c, outside(i))
  {
    if n <= 1 then 0
    else Waited(c, outside, n - 1) + outside(n-1).ran + FullJitter(n - 2, c, outside(n-1).draw)
  }

  // The loop: it ends at the first attempt that is not transient, or dead-letters after the last. Its
  // whole duration stays below the time after which the message would be taken over.
  method ProcessAttempts(c: Config, outside: nat -> Attempt) returns (fate: Fate, n: nat, elapsed: int)
    requires Valid(c) && forall i :: Plausible(c, outside(i))
    ensures 1 <= n <= c.maxAttempts
    ensures forall i | 1 <= i < n :: Transient(outside(i))
    ensures fate == Acknowledge <==> !outside(n).cancelled && !outside(n).failed
    ensures fate.ToDeadLetters? ==> fate.attempts == n
    ensures forall s :: fate == ToDeadLetters(Of(s), n) <==> FailsFor(outside(n), s)
    ensures fate == ToDeadLetters(RetriesExhausted, n) <==> Retryable(outside(n)) && n == c.maxAttempts
    ensures fate == Pending <==>
      || outside(n).cancelled
      || (outside(n).failed && (outside(n).stopping || KeyInProgress in outside(n).err || LeaseLost in outside(n).err))
      || (Retryable(outside(n)) && n < c.maxAttempts && outside(n).interrupted)
    ensures elapsed == Waited(c, outside, n) + (if outside(n).cancelled then 0 else outside(n).ran)
    ensures 0 <= elapsed < c.claimMinIdle
  {
    elapsed := 0;
    n := 1;
    while n <= c.maxAttempts
      invariant 1 <= n <= c.maxAttempts
      invariant forall i | 1 <= i < n :: Transient(outside(i))
      invariant elapsed == Waited(c, outside, n)
      invariant 0 <= elapsed <= (n - 1) * c.handlerTimeout + (n - 1) * c.maxBackoff
      decreases c.maxAttempts - n
    {
      WithinWindow(c, n, elapsed);
      var a := outside(n);
      if a.cancelled {
        return Pending, n, elapsed;
      }
      elapsed := elapsed + a.ran;
      if !a.failed {
        return Acknowledge, n, elapsed;
      }
      var decision := Classify(a.err, a.stopping);
      OnlyFirst(a.err, decision);
      if decision == Retry && n == c.maxAttempts {
        decision := DeadLetter(RetriesExhausted);
      }
      match decision {
        case LeavePending =>
          return Pending, n, elapsed;
        case DeadLetter(failure) =>
          return ToDeadLetters(failure, n), n, elapsed;
        case Retry =>
          var delay := FullJitter(n - 1, c, a.draw);
          if a.interrupted {
            return Pending, n, elapsed;
          }
          elapsed := elapsed + delay;
          OneMore(n - 1, c.handlerTimeout, c.maxBackoff);
      }
      n := n + 1;
    }
  }

  // Only one sentinel is the first.
  lemma OnlyFirst(err: set<Sentinel>, d: Decision)
    requires d == Retry ==> forall k | 0 <= k < |PERMANENT| :: PERMANENT[k] !in err
    requires d.DeadLetter? ==> d.failure.Of? && FirstPermanent(err, d.failure.sentinel)
    ensures d == Retry ==> forall s :: !FirstPermanent(err, s)
    ensures d.DeadLetter? ==> forall s :: FirstPermanent(err, s) <==> s == d.failure.sentinel
  {
    if d.DeadLetter? {
      forall s | FirstPermanent(err, s) ensures s == d.failure.sentinel {
        var k :| 0 <= k < |PERMANENT| && PERMANENT[k] == s && s in err && forall j | 0 <= j < k :: PERMANENT[j] !in err;
        var l :| 0 <= l < |PERMANENT| && PERMANENT[l] == d.failure.sentinel && d.failure.sentinel in err
                 && forall j | 0 <= j < l :: PERMANENT[j] !in err;
        assert k == l;
      }
    }
  }

  lemma OneMore(k: int, t: int, b: int)
    ensures k * t + k * b + t + b == (k + 1) * t + (k + 1) * b
  {}

  // Any prefix of the attempts, with the attempt under way, fits in the window.
  lemma WithinWindow(c: Config, n: int, elapsed: int)
    requires Valid(c) && 1 <= n <= c.maxAttempts && elapsed <= (n - 1) * c.handlerTimeout + (n - 1) * c.maxBackoff
    ensures elapsed + c.handlerTimeout < c.claimMinIdle
  {
    Backoff.Ordered(c.handlerTimeout, n, c.maxAttempts);
    Backoff.Ordered(c.maxBackoff, n - 1, c.maxAttempts - 1);
    assert (n - 1) * c.handlerTimeout + c.handlerTimeout == n * c.handlerTimeout;
  }

  // ---------------------------------------------------------------- a message

  datatype Envelope = Undecodable | ForAnotherGroup | ForUs

  // Acknowledged only when the handler succeeded, the message is for another group, or its dead letter
  // was written.
  method ProcessMessage(c: Config, envelope: Envelope, outside: nat -> Attempt, deadLetterWritten: bool,
                        ackReceived: bool)
    returns (acked: bool, deadLetter: Option<Class>, n: nat)
    requires Valid(c) && forall i :: Plausible(c, outside(i))
    ensures acked <==>
              && ackReceived
              && (|| envelope == ForAnotherGroup
                  || (deadLetter.Some? && deadLetterWritten)
                  || (envelope == ForUs && !outside(n).cancelled && !outside(n).failed))
    ensures deadLetter == Some(Of(CorruptEnvelope)) && n == 0 <==> envelope == Undecodable
    ensures envelope == ForAnotherGroup ==> deadLetter.None? && acked == ackReceived
    ensures envelope == ForUs ==> 1 <= n <= c.maxAttempts && forall i | 1 <= i < n :: Transient(outside(i))
    ensures envelope == ForUs ==>
              && (deadLetter == Some(RetriesExhausted) <==> Retryable(outside(n)) && n == c.maxAttempts)
              && forall s :: deadLetter == Some(Of(s)) <==> FailsFor(outside(n), s)
  {
    match envelope {
      case Undecodable =>
        return deadLetterWritten && ackReceived, Some(Of(CorruptEnvelope)), 0;
      case ForAnotherGroup =>
        return ackReceived, None, 0;
      case ForUs =>
        var fate, attempts, _ := ProcessAttempts(c, outside);
        match fate {
          case Acknowledge => return ackReceived, None, attempts;
          case ToDeadLetters(failure, _) => return deadLetterWritten && ackReceived, Some(failure), attempts;
          case Pending => return false, None, attempts;
        }
    }
  }
}
