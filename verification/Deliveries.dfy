/**
  Delivery rows and the pure steps on them: eligibility, lease stamping, the remaining
  lease, the outcome of one send attempt and the retry delay.
 */
module Deliveries {
  import opened Prelude
  import opened Selection

  datatype Delivery = Delivery(
    id: Id,
    eventId: Id,
    destinationId: Id,
    createdAt: Time,
    processedAt: Option<Time>,
    attempts: nat,
    lastError: Option<string>,
    nextAttemptAt: Time,
    lockedUntil: Option<Time>,
    leaseToken: Option<Id>)

  datatype Destination = Destination(organizationId: Id, enabled: bool, createdAt: Time)

  /** What `channel.send` under its timeout can do. Broken is any other exception. */
  datatype Reply = Accepted | Rejected(message: string) | TimedOut | Broken

  datatype RetryPolicy = RetryPolicy(baseSeconds: nat, maxSeconds: nat)

  const MAX_ERROR_LENGTH := 2000
  const TIMEOUT_MESSAGE := "Notification delivery exceeded its total timeout"

  function Pow2(n: nat): (p: nat)
    ensures p >= 1
  {
    if n == 0 then 1 else 2 * Pow2(n - 1)
  }

  function RetryDelay(policy: RetryPolicy, attempts: nat): nat
    requires attempts >= 1
  {
    MinNat(policy.baseSeconds * Pow2(attempts - 1), policy.maxSeconds)
  }

  /** `base`, doubled n times. */
  function Doubled(base: nat, n: nat): nat {
    if n == 0 then base else 2 * Doubled(base, n - 1)
  }

  /** Doubling once more doubles, so n doublings multiply by two to the n-th. */
  lemma {:induction false} DoubledIsPower(base: nat, n: nat)
    ensures Doubled(base, 0) == base && Doubled(base, n + 1) == 2 * Doubled(base, n)
    ensures Doubled(base, n) == base * Pow2(n)
    ensures Pow2(0) == 1 && Pow2(n + 1) == 2 * Pow2(n)
  {
    if n > 0 {
      DoubledIsPower(base, n - 1);
      TwiceProduct(base, Pow2(n - 1));
    }
  }

  lemma TwiceProduct(a: nat, p: nat)
    ensures a * (2 * p) == 2 * (a * p)
  {
  }

  /** The delay after the k-th attempt: the base, doubled k - 1 times, or the cap if that is less. */
  lemma RetryDelayIs(policy: RetryPolicy, k: nat)
    requires k >= 1
    ensures RetryDelay(policy, k) == Doubled(policy.baseSeconds, k - 1) || RetryDelay(policy, k) == policy.maxSeconds
    ensures RetryDelay(policy, k) <= Doubled(policy.baseSeconds, k - 1) && RetryDelay(policy, k) <= policy.maxSeconds
    ensures RetryDelay(policy, 1) == if policy.baseSeconds <= policy.maxSeconds then policy.baseSeconds else policy.maxSeconds
  {
    DoubledIsPower(policy.baseSeconds, k - 1);
    DoubledIsPower(policy.baseSeconds, 0);
  }

  /** The wait after the k-th attempt, in seconds. */
  function Wait(policy: RetryPolicy, k: nat): nat
    requires k >= 1
  {
    var doubled := Doubled(policy.baseSeconds, k - 1);
    if doubled <= policy.maxSeconds then doubled else policy.maxSeconds
  }

  /** The default policy waits 5, 10, 20, 40, 80 and 160 seconds, and then always 300. */
  lemma DefaultWaits(k: nat)
    requires k >= 7
    ensures var p := RetryPolicy(5, 300);
      && RetryDelay(p, 1) == 5 && RetryDelay(p, 2) == 10 && RetryDelay(p, 3) == 20 && RetryDelay(p, 4) == 40
      && RetryDelay(p, 5) == 80 && RetryDelay(p, 6) == 160 && RetryDelay(p, k) == 300
  {
    var p := RetryPolicy(5, 300);
    assert Pow2(0) == 1 && Pow2(1) == 2 && Pow2(2) == 4 && Pow2(3) == 8 && Pow2(4) == 16 && Pow2(5) == 32 && Pow2(6) == 64;
    assert RetryDelay(p, 7) == 300;
    RetryDelayGrows(p, 7, k);
  }

  lemma RetryDelayStep(policy: RetryPolicy, k: nat)
    requires k >= 1
    ensures RetryDelay(policy, k) <= RetryDelay(policy, k + 1) <= policy.maxSeconds
  {
    TwiceProduct(policy.baseSeconds, Pow2(k - 1));
    assert Pow2(k) == 2 * Pow2(k - 1);
  }

  /** Later attempts never wait less, no wait exceeds the cap, and below it each doubles. */
  lemma {:induction false} RetryDelayGrows(policy: RetryPolicy, k: nat, n: nat)
    requires 1 <= k <= n
    ensures RetryDelay(policy, k) <= RetryDelay(policy, n) <= policy.maxSeconds
    ensures RetryDelay(policy, k) < policy.maxSeconds ==> RetryDelay(policy, k + 1) == MinNat(2 * RetryDelay(policy, k), policy.maxSeconds)
    decreases n - k
  {
    TwiceProduct(policy.baseSeconds, Pow2(k - 1));
    assert Pow2(k) == 2 * Pow2(k - 1);
    if k < n {
      RetryDelayStep(policy, k);
      RetryDelayGrows(policy, k + 1, n);
    }
  }

  function ErrorText(message: string): string {
    var text := if message == "" then TIMEOUT_MESSAGE else message;
    if |text| <= MAX_ERROR_LENGTH then text else text[..MAX_ERROR_LENGTH]
  }

  /** `NotificationService.process`: None when the exception propagates. */
  function Process(policy: RetryPolicy, d: Delivery, reply: Reply, now: Time): Option<Delivery> {
    var attempts := d.attempts + 1;
    match reply
    case Accepted =>
      Some(d.(processedAt := Some(now), attempts := attempts, lastError := None, lockedUntil := None, leaseToken := None))
    case Broken => None
    case _ =>
      var message := if reply.Rejected? then reply.message else "";
      Some(d.(attempts := attempts, lastError := Some(ErrorText(message)),
              nextAttemptAt := now + RetryDelay(policy, attempts) as Time,
              lockedUntil := None, leaseToken := None))
  }

  /** The WHERE clause of `claim_pending`, apart from row locks. */
  predicate Eligible(d: Delivery, maxAttempts: int, now: Time) {
    && d.processedAt.None?
    && d.attempts < maxAttempts
    && d.nextAttemptAt <= now
    && (d.lockedUntil.None? || d.lockedUntil.value <= now)
  }

  function DueOf(d: Delivery): Due {
    Due(d.nextAttemptAt, d.id)
  }

  function Candidates(rows: map<Id, Delivery>, skip: set<Id>, maxAttempts: int, now: Time): set<Due> {
    set id | id in rows && id !in skip && Eligible(rows[id], maxAttempts, now) :: Due(rows[id].nextAttemptAt, id)
  }

  /** The rows after a claim gave each id in `tokens` its token and the common expiry. */
  function Stamp(rows: map<Id, Delivery>, tokens: map<Id, Id>, until: Time): (r: map<Id, Delivery>)
    ensures r.Keys == rows.Keys
  {
    map id | id in rows ::
      if id in tokens then rows[id].(lockedUntil := Some(until), leaseToken := Some(tokens[id])) else rows[id]
  }

  /** `remaining_lease_seconds`: positive, and only under the row's own unprocessed token. */
  function RemainingLease(rows: map<Id, Delivery>, id: Id, token: Id, now: Time): (r: Option<Time>)
    ensures r.Some? <==>
      && id in rows && rows[id].leaseToken == Some(token) && rows[id].processedAt.None?
      && rows[id].lockedUntil.Some? && now < rows[id].lockedUntil.value
    ensures r.Some? ==> r.value > 0.0 && now + r.value == rows[id].lockedUntil.value
  {
    if id in rows && rows[id].leaseToken == Some(token) && rows[id].lockedUntil.Some? && rows[id].processedAt.None?
    then
      var remaining := rows[id].lockedUntil.value - now;
      if remaining > 0.0 then Some(remaining) else None
    else None
  }

  /** The columns `update` writes; the lease is cleared with them. */
  function WriteOutcome(row: Delivery, result: Delivery): Delivery {
    row.(processedAt := result.processedAt, attempts := result.attempts, lastError := result.lastError,
         nextAttemptAt := result.nextAttemptAt, lockedUntil := None, leaseToken := None)
  }

  function ReleaseLock(rows: map<Id, Delivery>, id: Id, token: Id): map<Id, Delivery> {
    if id in rows && rows[id].leaseToken == Some(token)
    then rows[id := rows[id].(lockedUntil := None, leaseToken := None)]
    else rows
  }

  ghost predicate PairTaken(rows: map<Id, Delivery>, eventId: Id, destinationId: Id) {
    exists id :: id in rows && rows[id].eventId == eventId && rows[id].destinationId == destinationId
  }

  function EnabledFor(destinations: map<Id, Destination>, organizationId: Id): set<Id> {
    set g | g in destinations && destinations[g].organizationId == organizationId && destinations[g].enabled
  }

  /** Writing a result computed from the row itself changes only what the result changed. */
  lemma WriteOutcomeOfProcess(policy: RetryPolicy, row: Delivery, reply: Reply, now: Time)
    requires Process(policy, row, reply, now).Some?
    ensures WriteOutcome(row, Process(policy, row, reply, now).value) == Process(policy, row, reply, now).value
  {
  }

  /**
    What one attempt leaves behind: it is counted and its lease is over; success is recorded
    without an error, failure with a bounded, non-empty one and a retry after the delay.
   */
  lemma AttemptIsAccounted(policy: RetryPolicy, d: Delivery, reply: Reply, now: Time)
    requires d.processedAt.None?
    ensures Process(policy, d, reply, now).None? <==> reply.Broken?
    ensures var p := Process(policy, d, reply, now);
      p.Some? ==>
        && p.value.attempts == d.attempts + 1 && p.value.leaseToken.None? && p.value.lockedUntil.None?
        && p.value.id == d.id && p.value.eventId == d.eventId && p.value.destinationId == d.destinationId
        && p.value.createdAt == d.createdAt
        && (p.value.processedAt.Some? <==> reply.Accepted?) && (p.value.lastError.None? <==> reply.Accepted?)
        && (reply.Accepted? ==> p.value.processedAt == Some(now) && p.value.nextAttemptAt == d.nextAttemptAt)
        && (!reply.Accepted? ==> p.value.nextAttemptAt == now + Wait(policy, d.attempts + 1) as Time)
        && (reply.TimedOut? || reply == Rejected("") ==> p.value.lastError == Some("Notification delivery exceeded its total timeout"))
        && (reply.Rejected? && 0 < |reply.message| <= 2000 ==> p.value.lastError == Some(reply.message))
        && (reply.Rejected? && |reply.message| > 2000 ==> p.value.lastError == Some(reply.message[..2000]))
  {
    RetryDelayIs(policy, d.attempts + 1);
  }
}
