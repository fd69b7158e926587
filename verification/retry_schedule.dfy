/** How often and when the worker claims one outbox event: retries back off, deferrals for an
    asset that is not ready cost no attempt, and both run out. Times are seconds. */
module RetrySchedule {
  const DEADLINE: nat := 1800
  const DEFERRAL: nat := 10

  datatype EventStatus = Pending | Delivered | Failed

  datatype EventRow = EventRow(createdAt: nat, attempts: nat, nextAttempt: nat, status: EventStatus)

  /** What handling one claim comes to; a compensation error is the one kind left out, because
      it is retried without limit. */
  datatype Handling = Success | NotReady | Terminal | Ordinary

  /** One claim: when it was made, and how its handling ended. */
  datatype Claim = Claim(now: nat, handling: Handling)

  function Pow2(n: nat): nat {
    if n == 0 then 1 else 2 * Pow2(n - 1)
  }

  function Min(a: nat, b: nat): nat {
    if a < b then a else b
  }

  /** The delay before the next attempt, after `attempts` of them. */
  function Backoff(attempts: nat): (delay: nat)
    requires 1 <= attempts
  {
    Pow2(Min(attempts - 1, 5)) * 5
  }

  /** Delays start at 5 seconds, double, and stay at 160. */
  lemma {:induction false} BackoffBounds(attempts: nat)
    requires 1 <= attempts
    ensures 5 <= Backoff(attempts) <= 160
    ensures Backoff(1) == 5
    ensures Backoff(attempts + 1) == if attempts <= 5 then 2 * Backoff(attempts) else 160
    ensures attempts >= 6 ==> Backoff(attempts) == 160
  {
    assert Pow2(0) == 1 && Pow2(1) == 2 && Pow2(2) == 4 && Pow2(3) == 8 && Pow2(4) == 16 && Pow2(5) == 32;
  }

  /** GREATEST(attempts - 1, 0) */
  function OneLess(attempts: nat): nat {
    if attempts == 0 then 0 else attempts - 1
  }

  function Processed(max: nat, row: EventRow, claim: Claim): EventRow {
    var attempts := row.attempts + 1;
    match claim.handling
    case Success => row.(attempts := attempts, status := Delivered)
    case NotReady =>
      if claim.now - row.createdAt >= DEADLINE then row.(attempts := attempts, status := Failed)
      else row.(attempts := OneLess(attempts), nextAttempt := claim.now + DEFERRAL)
    case Terminal => row.(attempts := attempts, status := Failed)
    case Ordinary =>
      if attempts >= max then row.(attempts := attempts, status := Failed)
      else row.(attempts := attempts, nextAttempt := claim.now + Backoff(attempts))
  }

  /** Claims find the row pending and due. */
  predicate Legal(max: nat, row: EventRow, claims: seq<Claim>)
    decreases claims
  {
    claims == [] ||
    (row.status.Pending? && row.nextAttempt <= claims[0].now && Legal(max, Processed(max, row, claims[0]), claims[1..]))
  }

  function AfterClaims(max: nat, row: EventRow, claims: seq<Claim>): EventRow
    decreases claims
  {
    if claims == [] then row else AfterClaims(max, Processed(max, row, claims[0]), claims[1..])
  }

  /** A new event: due at once, never attempted. */
  function New(now: nat): EventRow {
    EventRow(now, 0, now, Pending)
  }

  /** While the row is pending, `deferred` deferrals took their time, and attempts are left. */
  predicate Spent(max: nat, row: EventRow, deferred: nat) {
    row.status.Pending? ==>
      && row.createdAt + deferred * DEFERRAL <= row.nextAttempt
      && deferred * DEFERRAL < DEADLINE + DEFERRAL
      && (row.attempts == 0 || row.attempts < max)
  }

  /** Claims are deferrals, or they count as attempts. */
  lemma {:induction false} ClaimsAreSpent(max: nat, row: EventRow, claims: seq<Claim>, deferred: nat)
    requires Spent(max, row, deferred) && row.status.Pending? && Legal(max, row, claims)
    requires AfterClaims(max, row, claims).status.Pending?
    ensures var after := AfterClaims(max, row, claims);
      exists later: nat :: Spent(max, after, later) && later + after.attempts == deferred + row.attempts + |claims|
    decreases claims
  {
    if claims == [] {
      assert Spent(max, AfterClaims(max, row, claims), deferred);
    } else {
      var next := Processed(max, row, claims[0]);
      StillPending(max, next, claims[1..]);
      var later := if claims[0].handling.NotReady? then deferred + 1 else deferred;
      assert Spent(max, next, later);
      ClaimsAreSpent(max, next, claims[1..], later);
    }
  }

  lemma StillPending(max: nat, row: EventRow, claims: seq<Claim>)
    requires Legal(max, row, claims) && AfterClaims(max, row, claims).status.Pending?
    ensures row.status.Pending?
  {
  }

  /** Termination: a new event is delivered or failed after at most `max + 180` claims. */
  lemma SettlesInTime(max: nat, now: nat, claims: seq<Claim>)
    requires 1 <= max && Legal(max, New(now), claims) && |claims| >= max + 180
    ensures !AfterClaims(max, New(now), claims).status.Pending?
  {
    if AfterClaims(max, New(now), claims).status.Pending? {
      ClaimsAreSpent(max, New(now), claims, 0);
      assert false;
    }
  }

  /** The claims that take longest: a deferral every ten seconds up to the deadline, then one
      ordinary failure after the other. */
  function Deferrals(now: nat, n: nat): seq<Claim>
    decreases n
  {
    if n == 0 then [] else [Claim(now, NotReady)] + Deferrals(now + DEFERRAL, n - 1)
  }

  function Failures(now: nat, n: nat): seq<Claim>
    decreases n
  {
    if n == 0 then [] else [Claim(now, Ordinary)] + Failures(now + 160, n - 1)
  }

  lemma {:induction false} DeferralsLast(max: nat, row: EventRow, n: nat)
    requires row.status.Pending? && row.createdAt <= row.nextAttempt
    requires row.nextAttempt + n * DEFERRAL <= row.createdAt + DEADLINE
    ensures Legal(max, row, Deferrals(row.nextAttempt, n)) && |Deferrals(row.nextAttempt, n)| == n
    ensures AfterClaims(max, row, Deferrals(row.nextAttempt, n)) == row.(nextAttempt := row.nextAttempt + n * DEFERRAL)
    decreases n
  {
    if n > 0 {
      var next := Processed(max, row, Claim(row.nextAttempt, NotReady));
      var claims := Deferrals(row.nextAttempt, n);
      assert claims[0] == Claim(row.nextAttempt, NotReady) && claims[1..] == Deferrals(next.nextAttempt, n - 1);
      DeferralsLast(max, next, n - 1);
    }
  }

  lemma {:induction false} FailuresLast(max: nat, row: EventRow, now: nat, n: nat)
    requires row.status.Pending? && row.nextAttempt <= now && row.attempts + n < max
    ensures Legal(max, row, Failures(now, n)) && |Failures(now, n)| == n
    ensures AfterClaims(max, row, Failures(now, n)).status.Pending?
    decreases n
  {
    if n > 0 {
      var next := Processed(max, row, Claim(now, Ordinary));
      var claims := Failures(now, n);
      BackoffBounds(row.attempts + 1);
      assert claims[0] == Claim(now, Ordinary) && claims[1..] == Failures(now + 160, n - 1);
      FailuresLast(max, next, now + 160, n - 1);
    }
  }

  lemma {:induction false} ClaimsAppend(max: nat, row: EventRow, first: seq<Claim>, second: seq<Claim>)
    ensures AfterClaims(max, row, first + second) == AfterClaims(max, AfterClaims(max, row, first), second)
    ensures Legal(max, row, first) && Legal(max, AfterClaims(max, row, first), second) ==> Legal(max, row, first + second)
    decreases first
  {
    if first == [] {
      assert first + second == second;
    } else {
      assert (first + second)[0] == first[0] && (first + second)[1..] == first[1..] + second;
      ClaimsAppend(max, Processed(max, row, first[0]), first[1..], second);
    }
  }

  /** The bound is reached: after one claim fewer the event can still be pending. */
  lemma BoundIsTight(max: nat, now: nat) returns (claims: seq<Claim>)
    requires 1 <= max
    ensures |claims| == max + 179 && Legal(max, New(now), claims)
    ensures AfterClaims(max, New(now), claims).status.Pending?
  {
    var first := Deferrals(now, 180);
    DeferralsLast(max, New(now), 180);
    hide Legal, AfterClaims, Deferrals, Failures;
    var row := AfterClaims(max, New(now), first);
    var second := Failures(row.nextAttempt, max - 1);
    FailuresLast(max, row, row.nextAttempt, max - 1);
    ClaimsAppend(max, New(now), first, second);
    claims := first + second;
  }

  /** The same row, updated in place by Claim and then by Complete, Defer, Retry or Fail. */
  class Outbox {
    const maxAttempts: nat
    var row: EventRow

    constructor (maxAttempts: nat, now: nat)
      ensures this.maxAttempts == maxAttempts && row == New(now)
    {
      this.maxAttempts := maxAttempts;
      row := New(now);
    }

    method ProcessNext(claim: Claim) returns (found: bool)
      modifies this
      ensures found == (old(row).status.Pending? && old(row).nextAttempt <= claim.now)
      ensures row == if found then Processed(maxAttempts, old(row), claim) else old(row)
    {
      if !row.status.Pending? || claim.now < row.nextAttempt { return false; }
      row := row.(attempts := row.attempts + 1);
      match claim.handling {
        case Success => row := row.(status := Delivered);
        case NotReady =>
          if claim.now - row.createdAt >= DEADLINE {
            row := row.(status := Failed);
          } else {
            row := row.(attempts := OneLess(row.attempts), nextAttempt := claim.now + DEFERRAL);
          }
        case Terminal => row := row.(status := Failed);
        case Ordinary =>
          if row.attempts >= maxAttempts {
            row := row.(status := Failed);
          } else {
            row := row.(nextAttempt := claim.now + Backoff(row.attempts));
          }
      }
      return true;
    }
  }
}
