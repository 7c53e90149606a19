/**
  What each step of a delivery task does, column by column: when it goes on and when the task
  ends there, what a claim, an outcome, a release and a crash leave in the tables.
 */
module DeliverySteps {
  import opened Prelude
  import opened Deliveries
  import opened Lease
  import opened DeliveryProtocol
  import opened DeliveryLeases

  /** The steps of a fan-out, the commit of a claim and the steps of a task before its send are these functions. */
  lemma TaskSteps(c: Config, s: State, l: Label)
    requires Enabled(c, s, l)
    ensures l.Load? ==> l.t in s.tasks && s.tasks[l.t].phase.Loading? && Apply(c, s, l) == AfterLoad(s, l.t)
    ensures l.ReadRemaining? ==> l.t in s.tasks && s.tasks[l.t].phase.Checking? && Apply(c, s, l) == AfterReadRemaining(s, l.t)
    ensures l.FanInsert? ==> l.x in s.fans && s.fans[l.x].reading.Some? && Apply(c, s, l) == AfterFanInsert(s, l.x, l.targets)
    ensures l.FanCommit? ==> l.x in s.fans && Apply(c, s, l) == AfterFanCommit(s, l.x)
    ensures l.ClaimCommit? ==>
      && l.x in s.txns && s.txns[l.x].Claiming? && s.txns[l.x].stamp.Some? && Apply(c, s, l) == AfterClaimCommit(c, s, l.x, l.returned)
    ensures l.StartSend? ==> l.t in s.tasks && s.tasks[l.t].phase.Budgeting? && Apply(c, s, l) == AfterStartSend(c, s, l.t)
  {
    hide AfterLoad, AfterReadRemaining, AfterStartSend, AfterFanRead, AfterFanInsert, AfterFanCommit, AfterClaimCommit, AfterEndSend,
      AfterOutcomeCheck, AfterOutcomeCommit, Drop, Released;
  }

  // ----- a task

  /** A task goes on past loading exactly if its event and destination are there and of one organization. */
  lemma LoadGoesOnIff(s: State, t: Id)
    requires t in s.tasks
    ensures var n := AfterLoad(s, t); var row := s.tasks[t].claim.row;
      && (t in n.tasks <==>
            && row.eventId in s.events && row.destinationId in s.destinations
            && s.events[row.eventId].organizationId == s.destinations[row.destinationId].organizationId)
      && (t in n.tasks ==> n.tasks == s.tasks[t := Task(s.tasks[t].claim, Checking(s.now))] && n.sends == s.sends)
  {
    hide Stopped;
  }

  /** The time left is read exactly if the row still is the claim's, unprocessed and under its lease. */
  lemma ReadGoesOnIff(s: State, t: Id)
    requires t in s.tasks && s.tasks[t].phase.Checking?
    ensures var n := AfterReadRemaining(s, t); var claim := s.tasks[t].claim; var d := claim.row.id;
      && (t in n.tasks <==>
            && d in s.deliveries && s.deliveries[d].leaseToken == Some(t) && s.deliveries[d].processedAt.None?
            && s.deliveries[d].lockedUntil.Some? && s.now < s.deliveries[d].lockedUntil.value)
      && (t in n.tasks ==>
            n.tasks[t] == Task(claim, Budgeting(s.tasks[t].phase.started, s.deliveries[d].lockedUntil.value - s.now)))
      && n.deliveries == s.deliveries && forall u :: u in s.tasks && u != t ==> u in n.tasks && n.tasks[u] == s.tasks[u]
  {
    hide RemainingLease, Stopped;
  }

  /** What is left of the lease for a send: the time read, less the time since and one database timeout. */
  function Rest(l: Limits, remaining: Time, started: Time, now: Time): Time {
    remaining - (now - started) - l.databaseTimeout
  }

  /** The shorter of two times, and whether it is any time at all. */
  predicate IsShorter(budget: Time, rest: Time, limit: Time) {
    budget <= rest && budget <= limit && (budget == rest || budget == limit)
  }

  lemma BudgetIs(l: Limits, remaining: Time, started: Time, now: Time)
    requires Positive(l)
    ensures var budget, rest := SendBudget(l, remaining, started, now), Rest(l, remaining, started, now);
      IsShorter(budget, rest, l.notificationTimeout) && (budget <= 0.0 <==> rest <= 0.0)
  {
  }

  /** A send of this budget has been added, and its task is sending until then. */
  predicate Sends(s: State, n: State, t: Id, budget: Time)
    requires t in s.tasks
  {
    && t in n.tasks && n.tasks[t] == Task(s.tasks[t].claim, Sending(s.now + budget))
    && n.sends == s.sends + [Send(t, s.tasks[t].claim.row.id, s.now, s.now + budget, s.tasks[t].claim.expiry, None)]
  }

  lemma StartedWith(c: Config, s: State, t: Id, budget: Time)
    requires t in s.tasks && s.tasks[t].phase.Budgeting?
    requires budget == SendBudget(c.limits, s.tasks[t].phase.remaining, s.tasks[t].phase.started, s.now)
    ensures budget <= 0.0 ==> t !in AfterStartSend(c, s, t).tasks
    ensures budget > 0.0 ==> Sends(s, AfterStartSend(c, s, t), t, budget)
  {
    hide SendBudget, Stopped;
  }

  /**
    A send starts exactly if more than a database timeout is left of the lease after the time that has
    passed, and may last for that rest or for the notification timeout, whichever is shorter.
   */
  lemma SendStartsIff(c: Config, s: State, t: Id) returns (budget: Time)
    requires Positive(c.limits) && t in s.tasks && s.tasks[t].phase.Budgeting?
    ensures var rest := Rest(c.limits, s.tasks[t].phase.remaining, s.tasks[t].phase.started, s.now);
      && IsShorter(budget, rest, c.limits.notificationTimeout)
      && (rest <= 0.0 ==> t !in AfterStartSend(c, s, t).tasks)
      && (rest > 0.0 ==> Sends(s, AfterStartSend(c, s, t), t, budget))
  {
    hide SendBudget, Rest, IsShorter, AfterStartSend, Sends, Positive;
    budget := SendBudget(c.limits, s.tasks[t].phase.remaining, s.tasks[t].phase.started, s.now);
    BudgetIs(c.limits, s.tasks[t].phase.remaining, s.tasks[t].phase.started, s.now);
    StartedWith(c, s, t, budget);
  }

  /** A send that is answered, refused or timed out has a result to write; any other exception ends the task. */
  lemma SendEndsWithResult(c: Config, s: State, t: Id, reply: Reply)
    requires Enabled(c, s, EndSend(t, reply)) && s.tasks[t].claim.row.processedAt.None?
    ensures var n := Apply(c, s, EndSend(t, reply)); var row := s.tasks[t].claim.row;
      && (t in n.tasks <==> !reply.Broken?)
      && (t in n.tasks ==>
            && n.tasks[t].phase.Sent? && n.tasks[t].phase.finishedAt == s.now && n.tasks[t].claim == s.tasks[t].claim
            && var result := n.tasks[t].phase.result;
               && result.attempts == row.attempts + 1
               && result.processedAt == (if reply.Accepted? then Some(s.now) else None)
               && result.nextAttemptAt ==
                    if reply.Accepted? then row.nextAttemptAt else s.now + Wait(c.retry, row.attempts + 1) as Time)
  {
    AttemptIsAccounted(c.retry, s.tasks[t].claim.row, reply, s.now);
    hide Process, Wait;
  }

  /** The outcome is accepted exactly if the row still is the claim's, unprocessed and under its lease. */
  lemma OutcomeAcceptedIff(c: Config, s: State, x: Id)
    requires Enabled(c, s, OutcomeCheck(x))
    ensures var n := Apply(c, s, OutcomeCheck(x)); var r := s.txns[x]; var d := r.claim.row.id;
      && (x in n.txns <==>
            && d in s.deliveries && s.deliveries[d].leaseToken == Some(r.token) && s.deliveries[d].processedAt.None?
            && s.deliveries[d].lockedUntil.Some? && s.now < s.deliveries[d].lockedUntil.value)
      && (x in n.txns ==> n.txns[x] == r.(checkedAt := Some(s.now)))
      && n.deliveries == s.deliveries
  {
  }

  /** A committed outcome writes the result's columns and ends the lease, on its row only. */
  lemma OutcomeIsWritten(c: Config, s: State, x: Id)
    requires Enabled(c, s, OutcomeCommit(x)) && s.txns[x].claim.row.id in s.deliveries
    ensures var n := Apply(c, s, OutcomeCommit(x)); var d := s.txns[x].claim.row.id;
      var row := s.deliveries[d]; var result := s.txns[x].result;
      && n.deliveries == s.deliveries[d := Delivery(row.id, row.eventId, row.destinationId, row.createdAt, result.processedAt,
           result.attempts, result.lastError, result.nextAttemptAt, None, None)]
      && x !in n.txns && d in n.outcomes && |n.outcomes[d]| == |HistoryOf(s, d)| + 1
  {
  }

  // ----- a claim, a release and a crash

  /** A committed claim leases its rows, for the time that sends need at least, and starts their tasks if it returns. */
  lemma ClaimStartsTasks(c: Config, s: State, x: Id, returned: bool, d: Id)
    requires Inv(c, s) && x in s.txns && s.txns[x].Claiming? && s.txns[x].stamp.Some? && d in s.txns[x].rows && d in s.deliveries
    ensures var n := AfterClaimCommit(c, s, x, returned); var stamp := s.txns[x].stamp.value;
      && d in n.deliveries && d in stamp.tokens
      && var t := stamp.tokens[d]; var row := n.deliveries[d];
         && row == s.deliveries[d].(lockedUntil := row.lockedUntil, leaseToken := Some(t)) && row.lockedUntil.Some?
         && LongEnough(c.limits, row.lockedUntil.value - stamp.at)
         && (returned ==>
               && t in n.tasks && n.tasks[t] == Task(Claim(row, stamp.at, row.lockedUntil.value), Loading)
               && s.txns[x].worker in n.waves && t in n.waves[s.txns[x].worker])
         && (!returned ==> n.tasks == s.tasks && n.waves == s.waves)
  {
    var st := s.txns[x].stamp.value;
    StampedFor(c, s, x, d);
    hide Inv, Drop, Stopped, Stamp, EffectiveLease;
    StampOf(s.deliveries, st.tokens, ExpiryOf(c, st), d);
    LeaseIsLongEnough(c.limits);
  }

  lemma LeaseIsLongEnough(l: Limits)
    ensures LongEnough(l, EffectiveLease(l))
  {
  }

  lemma StampedFor(c: Config, s: State, x: Id, d: Id)
    requires Inv(c, s) && x in s.txns && s.txns[x].Claiming? && s.txns[x].stamp.Some? && d in s.txns[x].rows
    ensures var st := s.txns[x].stamp.value; d in st.tokens && st.tokens[d] in st.rows && st.rows[st.tokens[d]] == d
  {
    assert TxnOk(c, s, s.txns[x]);
  }

  lemma StampOf(rows: map<Id, Delivery>, tokens: map<Id, Id>, until: Time, d: Id)
    requires d in rows && d in tokens
    ensures Stamp(rows, tokens, until)[d] == rows[d].(lockedUntil := Some(until), leaseToken := Some(tokens[d]))
  {
  }

  /** A committed release frees the rows that carry its tokens and leaves the others. */
  lemma ReleaseFrees(c: Config, s: State, x: Id, d: Id)
    requires Enabled(c, s, ReleaseCommit(x)) && d in s.deliveries
    ensures var n := Apply(c, s, ReleaseCommit(x)); var tokens := s.txns[x].tokens;
      && d in n.deliveries
      && n.deliveries[d] == (if d in tokens && s.deliveries[d].leaseToken == Some(tokens[d])
           then s.deliveries[d].(lockedUntil := None, leaseToken := None) else s.deliveries[d])
  {
  }

  /** A crash ends the worker's tasks and sends where they are, and leaves its leases on the rows. */
  lemma CrashStops(c: Config, s: State, w: Id, i: nat)
    requires Enabled(c, s, Crash(w)) && i < |s.sends|
    ensures var n := Apply(c, s, Crash(w));
      && n.deliveries == s.deliveries && w !in n.waves && (forall t :: t in n.tasks <==> t in s.tasks && t !in s.waves[w])
      && |n.sends| == |s.sends|
      && n.sends[i] == if s.sends[i].token in s.waves[w] && s.sends[i].ended.None? then s.sends[i].(ended := Some(s.now)) else s.sends[i]
  {
  }

  // ----- a fan-out

  /** An inserted row is of its event and destination, due at once, with every attempt before it and under no lease. */
  lemma InsertedRowsAreDue(s: State, x: Id, targets: map<Id, Id>, d: Id)
    requires x in s.fans && s.fans[x].reading.Some? && Range(targets) <= s.destinations.Keys && d in targets
    ensures var n := AfterFanInsert(s, x, targets); var e := s.fans[x].reading.value.eventId;
      && x in n.fans && d in n.fans[x].inserted
      && n.fans[x].inserted[d] == Delivery(d, e, targets[d], s.now, None, 0, None, s.now, None, None)
      && e in n.fans[x].done && n.fans[x].done[e].at == s.now && d in n.deliveryIds
  {
    hide Range;
  }

  /** A committed fan-out adds its rows and marks each of its events processed at the instant it was fanned out. */
  lemma FanOutIsCommitted(s: State, x: Id, e: Id, d: Id)
    requires x in s.fans
    ensures var n := AfterFanCommit(s, x); var fan := s.fans[x];
      && x !in n.fans && n.events.Keys == s.events.Keys
      && (e in s.events ==>
            n.events[e] == if e in fan.done then Event(s.events[e].organizationId, s.events[e].createdAt, Some(fan.done[e].at)) else s.events[e])
      && (d in fan.inserted ==> d in n.deliveries && n.deliveries[d] == fan.inserted[d])
      && (d !in fan.inserted ==> (d in n.deliveries <==> d in s.deliveries) && (d in s.deliveries ==> n.deliveries[d] == s.deliveries[d]))
  {
    hide PairsOf;
  }

  // ----- clocks

  /** A claim's lease counts from the clock that is read when its rows have been chosen. */
  lemma StampReadsTheClock(c: Config, s: State, x: Id, minted: map<Id, Id>, rows: map<Id, Id>)
    requires Enabled(c, s, ClaimStamp(x, minted, rows))
    ensures Apply(c, s, ClaimStamp(x, minted, rows)).txns == s.txns[x := s.txns[x].(stamp := Some(Stamping(s.now, minted, rows)))]
  {
    hide Drop, Stamp, NewTasks;
  }

  /** An outcome is that of its task, from the instant its send ended. */
  lemma OutcomeIsOfItsSend(c: Config, s: State, x: Id, t: Id)
    requires Enabled(c, s, OutcomeLock(x, t))
    ensures t in s.tasks && s.tasks[t].phase.Sent?
    ensures var task := s.tasks[t];
      Apply(c, s, OutcomeLock(x, t)).txns == s.txns[x := Recording(t, task.claim, task.phase.finishedAt, task.phase.result, None)]
  {
    hide Drop, Stamp, NewTasks;
  }

  /** An event is new when it is emitted. */
  lemma EventIsNew(c: Config, s: State, e: Id, organizationId: Id)
    requires Enabled(c, s, EmitEvent(e, organizationId))
    ensures e !in s.eventIds && Apply(c, s, EmitEvent(e, organizationId)).events == s.events[e := Event(organizationId, s.now, None)]
  {
    hide Drop, Stamp, NewTasks;
  }
}
