/**
  The lease arithmetic of the notification worker: how long a claim lasts, how much of it
  a send may use, and when that budget is positive.
 */
module Lease {
  import opened Prelude

  datatype Limits = Limits(
    leaseSeconds: Time,
    notificationTimeout: Time,
    databaseTimeout: Time)

  /** The constructor refuses anything else. */
  predicate Positive(l: Limits) {
    l.leaseSeconds > 0.0 && l.notificationTimeout > 0.0 && l.databaseTimeout > 0.0
  }

  function EffectiveLease(l: Limits): Time {
    MaxTime(l.leaseSeconds, l.notificationTimeout + 3.0 * l.databaseTimeout + 1.0)
  }

  /** The least lease of the configured length that leaves room for one send and three database timeouts. */
  predicate LongEnough(l: Limits, lease: Time) {
    var room := l.notificationTimeout + 3.0 * l.databaseTimeout + 1.0;
    lease >= l.leaseSeconds && lease >= room && (lease == l.leaseSeconds || lease == room)
  }

  /** The time a send gets: `remaining` was read from the database after `started`. */
  function SendBudget(l: Limits, remaining: Time, started: Time, now: Time): Time {
    MinTime(l.notificationTimeout, remaining - (now - started) - l.databaseTimeout)
  }

  /**
    A send that starts at `now` with its budget ends a database timeout before the lease
    does, whenever the database was read: `remaining` is measured at `read`.
   */
  lemma SendEndsBeforeExpiry(l: Limits, expiry: Time, started: Time, read: Time, now: Time)
    requires started <= read <= now
    ensures now + SendBudget(l, expiry - read, started, now) <= expiry - l.databaseTimeout
  {
  }

  /**
    The instants of one delivery from claim to send, as far as the timeouts bound them:
    the claim stamps its clock inside a transaction of at most one database timeout, the
    event and destination are loaded within a second, and the lease is read within a third.
   */
  datatype Timing = Timing(claimBegun: Time, stamped: Time, claimed: Time, loaded: Time, started: Time, read: Time, sent: Time)

  predicate WithinTimeouts(l: Limits, t: Timing) {
    && t.claimBegun <= t.stamped <= t.claimed <= t.claimBegun + l.databaseTimeout
    && t.claimed <= t.loaded <= t.claimed + l.databaseTimeout
    && t.loaded <= t.started <= t.read <= t.sent <= t.loaded + l.databaseTimeout
  }

  function BudgetFor(l: Limits, t: Timing): Time {
    SendBudget(l, t.stamped + EffectiveLease(l) - t.read, t.started, t.sent)
  }

  /**
    The slowest schedule: the read itself uses a whole database timeout, and that timeout
    is counted twice, once in the lease that remains and once as elapsed time.
   */
  function Slowest(l: Limits): Timing {
    var db := l.databaseTimeout;
    Timing(0.0, 0.0, db, 2.0 * db, 2.0 * db, 3.0 * db, 3.0 * db)
  }

  /** No schedule gets less than the slowest one, and every schedule ends in time. */
  lemma BudgetAtLeastSlowest(l: Limits, t: Timing)
    requires Positive(l) && WithinTimeouts(l, t)
    ensures BudgetFor(l, t) >= BudgetFor(l, Slowest(l))
    ensures BudgetFor(l, t) >= MinTime(l.notificationTimeout, EffectiveLease(l) - 5.0 * l.databaseTimeout)
    ensures BudgetFor(l, t) >= MinTime(l.notificationTimeout, l.notificationTimeout + 1.0 - 2.0 * l.databaseTimeout)
    ensures t.sent + BudgetFor(l, t) <= t.stamped + EffectiveLease(l) - l.databaseTimeout
  {
    SendEndsBeforeExpiry(l, t.stamped + EffectiveLease(l), t.started, t.read, t.sent);
  }

  /** Three database timeouts do not cover the worst case: five do, exactly. */
  lemma BudgetAlwaysPositiveIff(l: Limits)
    requires Positive(l)
    ensures (forall t :: WithinTimeouts(l, t) ==> BudgetFor(l, t) > 0.0) <==> EffectiveLease(l) > 5.0 * l.databaseTimeout
    ensures (forall t :: WithinTimeouts(l, t) ==> BudgetFor(l, t) == l.notificationTimeout)
      <==> EffectiveLease(l) >= l.notificationTimeout + 5.0 * l.databaseTimeout
  {
    assert WithinTimeouts(l, Slowest(l));
    forall t | WithinTimeouts(l, t)
      ensures BudgetFor(l, t) >= MinTime(l.notificationTimeout, EffectiveLease(l) - 5.0 * l.databaseTimeout)
    {
      BudgetAtLeastSlowest(l, t);
    }
  }

  /** A minimum lease of one second with the default timeouts can leave nothing to send with. */
  lemma BudgetCanVanish()
    ensures var l := Limits(1.0, 5.0, 5.0); Positive(l) && exists t :: WithinTimeouts(l, t) && BudgetFor(l, t) <= 0.0
  {
    var l := Limits(1.0, 5.0, 5.0);
    assert WithinTimeouts(l, Slowest(l)) && BudgetFor(l, Slowest(l)) <= 0.0;
  }
}
