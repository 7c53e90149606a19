/**
  The notification delivery protocol as a step system over one clock: outbox events are
  fanned out into delivery rows, any number of workers claim rows under leases, send, and
  write the outcome, and retention and users delete rows meanwhile.

  A transaction locks the rows it touches, and holds them until it commits or aborts. A
  claim skips locked rows; every other statement waits for them, which is a step that is
  not enabled. A transaction may commit or abort whatever became of the process that
  started it, so a commit whose acknowledgement is lost is one of the runs.
 */
module DeliveryProtocol {
  import opened Prelude
  import opened Selection
  import opened Deliveries
  import opened Lease

  datatype Config = Config(limits: Limits, maxAttempts: int, retry: RetryPolicy)

  datatype Event = Event(organizationId: Id, createdAt: Time, processedAt: Option<Time>)

  /** What `claim_pending` gave one row; `row` is the entity the task works on. */
  datatype Claim = Claim(row: Delivery, claimedAt: Time, expiry: Time)

  datatype Phase =
    | Loading
    | Checking(started: Time)
    | Budgeting(started: Time, remaining: Time)
    | Sending(deadline: Time)
    | Sent(finishedAt: Time, result: Delivery)
    | Finished

  datatype Task = Task(claim: Claim, phase: Phase)

  /** The clock a claim read and the tokens it minted, by row and by token. */
  datatype Stamping = Stamping(at: Time, tokens: map<Id, Id>, rows: map<Id, Id>)

  datatype Txn =
    | Claiming(worker: Id, rows: set<Id>, selectedAt: Time, stamp: Option<Stamping>)
    | Recording(token: Id, claim: Claim, finishedAt: Time, result: Delivery, checkedAt: Option<Time>)
    | Releasing(tokens: map<Id, Id>)

  /** One event of an open fan-out: its clock, and the destinations that had been read as enabled. */
  datatype Spread = Spread(at: Time, enabled: set<Id>)

  /** The event being fanned out, and the destinations that were enabled when it was read. */
  datatype Reading = Reading(eventId: Id, enabled: set<Id>)

  datatype FanOut = FanOut(locked: set<Id>, reading: Option<Reading>, done: map<Id, Spread>, inserted: map<Id, Delivery>)

  datatype Send = Send(token: Id, delivery: Id, start: Time, deadline: Time, expiry: Time, ended: Option<Time>)

  datatype Outcome = Outcome(token: Id, claimedAt: Time, finishedAt: Time, checkedAt: Time, success: bool)

  datatype Pair = Pair(eventId: Id, destinationId: Id)

  datatype State = State(
    now: Time,
    events: map<Id, Event>,
    destinations: map<Id, Destination>,
    deliveries: map<Id, Delivery>,
    fans: map<Id, FanOut>,
    txns: map<Id, Txn>,
    // running tasks by claim token, and the tokens each worker must still release
    tasks: map<Id, Task>,
    waves: map<Id, set<Id>>,
    // identifiers ever generated
    tokens: set<Id>,
    eventIds: set<Id>,
    deliveryIds: set<Id>,
    // history: every row ever created, every fan-out, every send, every accepted outcome
    births: map<Id, Pair>,
    fanouts: map<Id, set<Id>>,
    sends: seq<Send>,
    outcomes: map<Id, seq<Outcome>>)

  datatype Label =
    | Tick(to: Time)
    | EmitEvent(e: Id, organizationId: Id)
    | PutDestination(g: Id, destination: Destination)
    | DropDestination(g: Id)
    | FanBegin(x: Id, batch: set<Id>)
    | FanRead(x: Id, e: Id)
    | FanInsert(x: Id, targets: map<Id, Id>)
    | FanCommit(x: Id)
    | FanAbort(x: Id)
    | ClaimSelect(x: Id, w: Id, limit: nat, exclude: set<Id>, chosen: seq<Due>)
    | ClaimStamp(x: Id, minted: map<Id, Id>, rows: map<Id, Id>)
    | ClaimCommit(x: Id, returned: bool)
    | Abort(x: Id)
    | Load(t: Id)
    | ReadRemaining(t: Id)
    | StartSend(t: Id)
    | EndSend(t: Id, reply: Reply)
    | OutcomeLock(x: Id, t: Id)
    | OutcomeCheck(x: Id)
    | OutcomeCommit(x: Id)
    | EndTasks(gone: set<Id>)
    | ReleaseBegin(x: Id, w: Id)
    | ReleaseRow(x: Id, w: Id, t: Id, d: Id)
    | ReleaseCommit(x: Id)
    | EndWave(w: Id)
    | Crash(w: Id)
    | RetainDeliveries(cutoff: Time, gone: set<Id>)
    | RetainEvents(cutoff: Time, gone: set<Id>)

  predicate ValidConfig(c: Config) {
    Positive(c.limits) && c.maxAttempts >= 1
  }

  ghost predicate Init(s: State) {
    && s.events == map[] && s.deliveries == map[] && s.fans == map[] && s.txns == map[]
    && s.tasks == map[] && s.waves == map[] && s.tokens == {} && s.eventIds == {} && s.deliveryIds == {}
    && s.births == map[] && s.fanouts == map[] && s.sends == [] && s.outcomes == map[]
  }

  // ----- locks

  function Held(x: Txn): set<Id> {
    match x
    case Claiming(_, rows, _, _) => rows
    case Recording(_, claim, _, _, _) => {claim.row.id}
    case Releasing(tokens) => tokens.Keys
  }

  predicate Locked(s: State, d: Id) {
    exists x :: x in s.txns && d in Held(s.txns[x])
  }

  function LockedRows(s: State): set<Id> {
    set x, d | x in s.txns && d in Held(s.txns[x]) :: d
  }

  predicate EventLocked(s: State, e: Id) {
    exists x :: x in s.fans && e in s.fans[x].locked
  }

  /** A foreign key check keeps a destination that an open fan-out refers to. */
  ghost predicate DestinationInUse(s: State, g: Id) {
    || (exists x, d :: x in s.fans && d in s.fans[x].inserted && s.fans[x].inserted[d].destinationId == g)
    || (exists d :: d in s.deliveries && s.deliveries[d].destinationId == g && Locked(s, d))
  }

  // ----- retention and cascades, on the same tables

  ghost predicate Pending(s: State, e: Id) {
    e in s.events && s.events[e].processedAt.None?
  }

  /** The conditions under which retention deletes a delivery. */
  predicate DeliveryRemovable(s: State, d: Id, cutoff: Time) {
    && d in s.deliveries
    && var row := s.deliveries[d];
       && row.processedAt.Some? && row.processedAt.value < cutoff
       && row.leaseToken.None? && row.lockedUntil.None?
       && row.eventId in s.events && s.events[row.eventId].processedAt.Some?
  }

  /** The conditions under which retention deletes an event: no delivery row is left. */
  predicate EventRemovable(s: State, e: Id, cutoff: Time) {
    && e in s.events
    && s.events[e].processedAt.Some? && s.events[e].processedAt.value < cutoff
    && forall d :: d in s.deliveries ==> s.deliveries[d].eventId != e
  }

  function WithoutDestination(rows: map<Id, Delivery>, g: Id): map<Id, Delivery> {
    map d | d in rows && rows[d].destinationId != g :: rows[d]
  }

  function WithoutEvents(rows: map<Id, Delivery>, gone: set<Id>): map<Id, Delivery> {
    map d | d in rows && rows[d].eventId !in gone :: rows[d]
  }

  // ----- tasks

  /** Sends whose task is gone have stopped. */
  function Stopped(sends: seq<Send>, gone: set<Id>, now: Time): (r: seq<Send>)
    ensures |r| == |sends|
    ensures forall i :: 0 <= i < |sends| ==>
      r[i] == if sends[i].ended.None? && sends[i].token in gone then sends[i].(ended := Some(now)) else sends[i]
  {
    seq(|sends|, i requires 0 <= i < |sends| =>
      if sends[i].ended.None? && sends[i].token in gone then sends[i].(ended := Some(now)) else sends[i])
  }

  function Drop(s: State, gone: set<Id>): (n: State)
    ensures n == s.(tasks := n.tasks, sends := n.sends)
  {
    s.(tasks := map t | t in s.tasks && t !in gone :: s.tasks[t], sends := Stopped(s.sends, gone, s.now))
  }

  /** Two maps that undo each other. */
  ghost predicate Inverse(m: map<Id, Id>, n: map<Id, Id>) {
    && (forall a :: a in m ==> m[a] in n && n[m[a]] == a)
    && (forall b :: b in n ==> n[b] in m && m[n[b]] == b)
  }

  function NewTasks(stamped: map<Id, Delivery>, st: Stamping, expiry: Time): map<Id, Task> {
    map t | t in st.rows && st.rows[t] in stamped :: Task(Claim(stamped[st.rows[t]], st.at, expiry), Loading)
  }

  function HistoryOf(s: State, d: Id): seq<Outcome> {
    if d in s.outcomes then s.outcomes[d] else []
  }

  // ----- steps

  ghost predicate Enabled(c: Config, s: State, l: Label) {
    match l
    case Tick(to) =>
      // a fired asyncio.timeout stops its send at once
      s.now <= to && forall t :: t in s.tasks && s.tasks[t].phase.Sending? ==> to <= s.tasks[t].phase.deadline
    case EmitEvent(e, _) => e !in s.eventIds
    case PutDestination(g, destination) =>
      g in s.destinations ==> s.destinations[g].organizationId == destination.organizationId
    case DropDestination(g) => g in s.destinations && !DestinationInUse(s, g)
    case FanBegin(x, batch) =>
      x !in s.fans && forall e :: e in batch ==> Pending(s, e) && !EventLocked(s, e)
    case FanRead(x, e) =>
      && x in s.fans && s.fans[x].reading.None?
      && e in s.fans[x].locked && e in s.events && e !in s.fans[x].done
    case FanInsert(x, targets) =>
      && x in s.fans && s.fans[x].reading.Some?
      // INSERT ... ON CONFLICT DO NOTHING, one fresh id for each destination without a row
      && targets.Keys !! s.deliveryIds && OneEach(targets)
      && Range(targets) == set g | g in s.fans[x].reading.value.enabled && !PairTaken(s.deliveries, s.fans[x].reading.value.eventId, g)
    case FanCommit(x) => x in s.fans && s.fans[x].done.Keys == s.fans[x].locked
    case FanAbort(x) => x in s.fans
    case ClaimSelect(x, w, limit, exclude, chosen) =>
      && x !in s.txns
      && FirstOf(Candidates(s.deliveries, exclude + LockedRows(s), c.maxAttempts, s.now), limit, chosen)
    case ClaimStamp(x, minted, rows) =>
      && x in s.txns && s.txns[x].Claiming? && s.txns[x].stamp.None?
      && minted.Keys == s.txns[x].rows && rows.Keys !! s.tokens && Inverse(minted, rows)
    case ClaimCommit(x, returned) =>
      && x in s.txns && s.txns[x].Claiming? && s.txns[x].stamp.Some?
      && (returned ==> s.txns[x].worker !in s.waves)
    case Abort(x) => x in s.txns
    case Load(t) => t in s.tasks && s.tasks[t].phase.Loading?
    case ReadRemaining(t) => t in s.tasks && s.tasks[t].phase.Checking?
    case StartSend(t) => t in s.tasks && s.tasks[t].phase.Budgeting?
    case EndSend(t, reply) => t in s.tasks && s.tasks[t].phase.Sending?
    case OutcomeLock(x, t) =>
      && x !in s.txns && t in s.tasks && s.tasks[t].phase.Sent?
      && s.tasks[t].claim.row.id in s.deliveries && !Locked(s, s.tasks[t].claim.row.id)
    case OutcomeCheck(x) =>
      && x in s.txns && s.txns[x].Recording? && s.txns[x].checkedAt.None?
      && s.txns[x].token in s.tasks && s.tasks[s.txns[x].token].phase.Sent?
    case OutcomeCommit(x) => x in s.txns && s.txns[x].Recording? && s.txns[x].checkedAt.Some?
    case EndTasks(gone) => true
    case ReleaseBegin(x, w) => x !in s.txns && w in s.waves
    case ReleaseRow(x, w, t, d) =>
      && x in s.txns && s.txns[x].Releasing? && d !in s.txns[x].tokens
      && w in s.waves && t in s.waves[w]
      // the TaskGroup has drained
      && (forall u :: u in s.waves[w] ==> u !in s.tasks)
      && d in s.deliveries && s.deliveries[d].leaseToken == Some(t) && !Locked(s, d)
    case ReleaseCommit(x) => x in s.txns && s.txns[x].Releasing?
    case EndWave(w) => w in s.waves && forall u :: u in s.waves[w] ==> u !in s.tasks
    case Crash(w) => w in s.waves
    case RetainDeliveries(cutoff, gone) => forall d :: d in gone ==> DeliveryRemovable(s, d, cutoff) && !Locked(s, d)
    case RetainEvents(cutoff, gone) => forall e :: e in gone ==> EventRemovable(s, e, cutoff) && !EventLocked(s, e)
  }

  ghost predicate OneEach(m: map<Id, Id>) {
    forall a, b :: a in m && b in m && m[a] == m[b] ==> a == b
  }

  function NewDelivery(id: Id, e: Id, g: Id, now: Time): Delivery {
    Delivery(id, e, g, now, None, 0, None, now, None, None)
  }

  function AfterFanRead(s: State, x: Id, e: Id): (n: State)
    requires x in s.fans && e in s.events
    ensures n == s.(fans := n.fans)
  {
    s.(fans := s.fans[x := s.fans[x].(reading := Some(Reading(e, EnabledFor(s.destinations, s.events[e].organizationId))))])
  }

  function NewRows(e: Id, targets: map<Id, Id>, now: Time): map<Id, Delivery> {
    map id | id in targets :: NewDelivery(id, e, targets[id], now)
  }

  function WithRows(fan: FanOut, targets: map<Id, Id>, now: Time): FanOut
    requires fan.reading.Some?
  {
    var e := fan.reading.value.eventId;
    fan.(reading := None, done := fan.done[e := Spread(now, fan.reading.value.enabled)], inserted := fan.inserted + NewRows(e, targets, now))
  }

  /**
    The clock is read and the rows are inserted, some time after the destinations were read.
    The read locks no destination: if one is gone by now, its foreign key fails the fan-out.
   */
  function AfterFanInsert(s: State, x: Id, targets: map<Id, Id>): (n: State)
    requires x in s.fans && s.fans[x].reading.Some?
    ensures n == s.(fans := n.fans, deliveryIds := n.deliveryIds)
  {
    if Range(targets) <= s.destinations.Keys
    then s.(fans := s.fans[x := WithRows(s.fans[x], targets, s.now)], deliveryIds := s.deliveryIds + targets.Keys)
    else s.(fans := s.fans - {x})
  }

  function PairOf(row: Delivery): Pair {
    Pair(row.eventId, row.destinationId)
  }

  function PairsOf(rows: map<Id, Delivery>): map<Id, Pair> {
    map d | d in rows :: PairOf(rows[d])
  }

  function AfterFanCommit(s: State, x: Id): (n: State)
    requires x in s.fans
    ensures n == s.(fans := s.fans - {x}, deliveries := n.deliveries, events := n.events, births := n.births, fanouts := n.fanouts)
  {
    var fan := s.fans[x];
    s.(fans := s.fans - {x},
       deliveries := s.deliveries + fan.inserted,
       events := map e | e in s.events ::
         if e in fan.done then s.events[e].(processedAt := Some(fan.done[e].at)) else s.events[e],
       births := s.births + PairsOf(fan.inserted),
       fanouts := s.fanouts + map e | e in fan.done :: fan.done[e].enabled)
  }

  function ExpiryOf(c: Config, st: Stamping): Time {
    st.at + EffectiveLease(c.limits)
  }

  /** The claim's rows and transaction after its commit, before any task runs. */
  function Claimed(c: Config, s: State, x: Id): State
    requires x in s.txns && s.txns[x].Claiming? && s.txns[x].stamp.Some?
  {
    var st := s.txns[x].stamp.value;
    s.(deliveries := Stamp(s.deliveries, st.tokens, ExpiryOf(c, st)), txns := s.txns - {x})
  }

  function Started(c: Config, s: State, x: Id): State
    requires x in s.txns && s.txns[x].Claiming? && s.txns[x].stamp.Some?
  {
    var n := Claimed(c, s, x);
    var st := s.txns[x].stamp.value;
    n.(tasks := n.tasks + NewTasks(n.deliveries, st, ExpiryOf(c, st)))
  }

  /** The rows are claimed; the worker runs their tasks only if the commit is acknowledged. */
  function AfterClaimCommit(c: Config, s: State, x: Id, returned: bool): (n: State)
    requires x in s.txns && s.txns[x].Claiming? && s.txns[x].stamp.Some?
    ensures n == Claimed(c, s, x).(tasks := n.tasks, waves := n.waves)
  {
    var rows := s.txns[x].stamp.value.rows;
    if returned && rows != map[]
    then Started(c, s, x).(waves := s.waves[s.txns[x].worker := rows.Keys])
    else Claimed(c, s, x)
  }

  function WithPhase(s: State, t: Id, phase: Phase): State
    requires t in s.tasks
  {
    s.(tasks := s.tasks[t := s.tasks[t].(phase := phase)])
  }

  function AfterLoad(s: State, t: Id): (n: State)
    requires t in s.tasks
    ensures n == s.(tasks := n.tasks, sends := n.sends)
  {
    var row := s.tasks[t].claim.row;
    if row.eventId in s.events && row.destinationId in s.destinations
       && s.destinations[row.destinationId].organizationId == s.events[row.eventId].organizationId
    then WithPhase(s, t, Checking(s.now))
    else Drop(s, {t})
  }

  function AfterReadRemaining(s: State, t: Id): (n: State)
    requires t in s.tasks && s.tasks[t].phase.Checking?
    ensures n == s.(tasks := n.tasks, sends := n.sends)
  {
    var remaining := RemainingLease(s.deliveries, s.tasks[t].claim.row.id, t, s.now);
    if remaining.Some? then WithPhase(s, t, Budgeting(s.tasks[t].phase.started, remaining.value)) else Drop(s, {t})
  }

  function AfterStartSend(c: Config, s: State, t: Id): (n: State)
    requires t in s.tasks && s.tasks[t].phase.Budgeting?
    ensures n == s.(tasks := n.tasks, sends := n.sends)
  {
    var task := s.tasks[t];
    var budget := SendBudget(c.limits, task.phase.remaining, task.phase.started, s.now);
    if budget <= 0.0 then Drop(s, {t})
    else
      var deadline := s.now + budget;
      WithPhase(s, t, Sending(deadline)).(
        sends := s.sends + [Send(t, task.claim.row.id, s.now, deadline, task.claim.expiry, None)])
  }

  function AfterEndSend(c: Config, s: State, t: Id, reply: Reply): (n: State)
    requires t in s.tasks
    ensures n == s.(tasks := n.tasks, sends := n.sends)
  {
    var result := Process(c.retry, s.tasks[t].claim.row, reply, s.now);
    if result.None? then Drop(s, {t})
    else WithPhase(s, t, Sent(s.now, result.value)).(sends := Stopped(s.sends, {t}, s.now))
  }

  function AfterOutcomeCheck(s: State, x: Id): (n: State)
    requires x in s.txns && s.txns[x].Recording?
    ensures n == s.(tasks := n.tasks, sends := n.sends, txns := n.txns)
  {
    var r := s.txns[x];
    if RemainingLease(s.deliveries, r.claim.row.id, r.token, s.now).Some?
    then s.(txns := s.txns[x := r.(checkedAt := Some(s.now))])
    else Drop(s.(txns := s.txns - {x}), {r.token})
  }

  function OutcomeOf(x: Txn): Outcome
    requires x.Recording? && x.checkedAt.Some?
  {
    Outcome(x.token, x.claim.claimedAt, x.finishedAt, x.checkedAt.value, x.result.processedAt.Some?)
  }

  function Finish(s: State, t: Id): (n: State)
    ensures n == s.(tasks := n.tasks)
  {
    if t in s.tasks then WithPhase(s, t, Finished) else s
  }

  function Written(s: State, x: Id): (n: State)
    requires x in s.txns && s.txns[x].Recording? && s.txns[x].checkedAt.Some?
    requires s.txns[x].claim.row.id in s.deliveries
    ensures n == s.(txns := s.txns - {x}, deliveries := n.deliveries, outcomes := n.outcomes)
    ensures n.deliveries == s.deliveries[s.txns[x].claim.row.id :=
      WriteOutcome(s.deliveries[s.txns[x].claim.row.id], s.txns[x].result)]
  {
    var r := s.txns[x];
    var d := r.claim.row.id;
    s.(txns := s.txns - {x},
       deliveries := s.deliveries[d := WriteOutcome(s.deliveries[d], r.result)],
       outcomes := s.outcomes[d := HistoryOf(s, d) + [OutcomeOf(r)]])
  }

  function AfterOutcomeCommit(s: State, x: Id): (n: State)
    requires x in s.txns && s.txns[x].Recording? && s.txns[x].checkedAt.Some?
    ensures n == s.(tasks := n.tasks, txns := s.txns - {x}, deliveries := n.deliveries, outcomes := n.outcomes)
    ensures n.tasks == s.tasks || n.tasks == Finish(s, s.txns[x].token).tasks
  {
    if s.txns[x].claim.row.id in s.deliveries
    then Written(Finish(s, s.txns[x].token), x)
    else s.(txns := s.txns - {x})
  }

  function Released(rows: map<Id, Delivery>, tokens: map<Id, Id>): map<Id, Delivery> {
    map d | d in rows ::
      if d in tokens && rows[d].leaseToken == Some(tokens[d])
      then rows[d].(lockedUntil := None, leaseToken := None) else rows[d]
  }

  ghost function Apply(c: Config, s: State, l: Label): State
    requires Enabled(c, s, l)
  {
    match l
    case Tick(to) => s.(now := to)
    case EmitEvent(e, organizationId) =>
      s.(events := s.events[e := Event(organizationId, s.now, None)], eventIds := s.eventIds + {e})
    case PutDestination(g, destination) => s.(destinations := s.destinations[g := destination])
    case DropDestination(g) =>
      s.(destinations := s.destinations - {g}, deliveries := WithoutDestination(s.deliveries, g))
    case FanBegin(x, batch) => s.(fans := s.fans[x := FanOut(batch, None, map[], map[])])
    case FanRead(x, e) => AfterFanRead(s, x, e)
    case FanInsert(x, targets) => AfterFanInsert(s, x, targets)
    case FanCommit(x) => AfterFanCommit(s, x)
    case FanAbort(x) => s.(fans := s.fans - {x})
    case ClaimSelect(x, w, _, _, chosen) =>
      s.(txns := s.txns[x := Claiming(w, set due | due in chosen :: due.id, s.now, None)])
    case ClaimStamp(x, minted, rows) =>
      s.(txns := s.txns[x := s.txns[x].(stamp := Some(Stamping(s.now, minted, rows)))], tokens := s.tokens + rows.Keys)
    case ClaimCommit(x, returned) => AfterClaimCommit(c, s, x, returned)
    case Abort(x) => s.(txns := s.txns - {x})
    case Load(t) => AfterLoad(s, t)
    case ReadRemaining(t) => AfterReadRemaining(s, t)
    case StartSend(t) => AfterStartSend(c, s, t)
    case EndSend(t, reply) => AfterEndSend(c, s, t, reply)
    case OutcomeLock(x, t) =>
      var task := s.tasks[t];
      s.(txns := s.txns[x := Recording(t, task.claim, task.phase.finishedAt, task.phase.result, None)])
    case OutcomeCheck(x) => AfterOutcomeCheck(s, x)
    case OutcomeCommit(x) => AfterOutcomeCommit(s, x)
    case EndTasks(gone) => Drop(s, gone)
    case ReleaseBegin(x, w) => s.(txns := s.txns[x := Releasing(map[])])
    case ReleaseRow(x, w, t, d) => s.(txns := s.txns[x := Releasing(s.txns[x].tokens[d := t])])
    case ReleaseCommit(x) =>
      s.(txns := s.txns - {x}, deliveries := Released(s.deliveries, s.txns[x].tokens))
    case EndWave(w) => s.(waves := s.waves - {w})
    case Crash(w) => Drop(s, s.waves[w]).(waves := s.waves - {w})
    case RetainDeliveries(_, gone) => s.(deliveries := s.deliveries - gone)
    case RetainEvents(_, gone) =>
      s.(events := s.events - gone, deliveries := WithoutEvents(s.deliveries, gone))
  }

  // ----- runs

  ghost predicate Step(c: Config, s: State, s': State) {
    exists l :: Enabled(c, s, l) && s' == Apply(c, s, l)
  }

  ghost predicate Run(c: Config, run: seq<State>) {
    && ValidConfig(c)
    && |run| > 0 && Init(run[0])
    && forall i :: 0 <= i < |run| - 1 ==> Step(c, run[i], run[i + 1])
  }
}
