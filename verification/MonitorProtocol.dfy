/**
  Monitors as a step system over one clock: any number of schedulers claim due monitors
  under leases, probe, and record in one locked transaction, while manual checks, user
  edits, maintenance windows and retention interleave.

  A transaction that locks a monitor row reads the row once it has the lock, works on what
  it read, and writes all of it back when it commits; claims skip locked rows.
 */
module MonitorProtocol {
  import opened Prelude
  import opened Selection
  import opened MonitorState
  import opened CheckRecording

  datatype Config = Config(leaseGrace: Time)

  datatype Row = Row(monitor: Monitor, leaseToken: Option<Id>, leaseUntil: Option<Time>)

  datatype Probing = Running(deadline: Time) | Done(success: bool)

  /** A scheduler's task for one claim. */
  datatype Probe = Probe(monitor: Monitor, expiry: Time, state: Probing)

  datatype Stamping = Stamping(at: Time, tokens: map<Id, Id>, rows: map<Id, Id>)

  /** What a check transaction will write: the whole monitor it read, changed by the result. */
  datatype Effect = Effect(at: Time, write: Monitor, op: Op, change: Change)

  datatype Txn =
    | Claiming(worker: Id, begunAt: Time, rows: set<Id>, selectedAt: Time, stamp: Option<Stamping>)
    // `since` is the clock read when the lock was taken or the lease was verified, `createdAt` the check's own
    | Checking(monitorId: Id, read: Monitor, token: Option<Id>, success: bool, since: Time, verified: bool,
               createdAt: Option<Time>, effect: Option<Effect>)
    | Editing(monitorId: Id, read: Monitor, edit: Edit)
    | Releasing(tokens: map<Id, Id>)

  datatype ProbeLog = ProbeLog(monitorId: Id, start: Time, deadline: Time, expiry: Time, ended: Option<Time>)

  /** A committed check: under which token, its result, when that token was verified, and `checked_at`. */
  datatype CheckLog = CheckLog(monitorId: Id, token: Option<Id>, success: bool, verifiedAt: Time, at: Time)

  /** How a monitor was created, and every change committed to its row since. */
  datatype History = History(created: Monitor, ops: seq<Op>)

  datatype State = State(
    now: Time,
    rows: map<Id, Row>,
    incidents: map<Id, Incident>,
    windows: map<Id, Window>,
    outbox: seq<OutboxEvent>,
    txns: map<Id, Txn>,
    probes: map<Id, Probe>,
    waves: map<Id, set<Id>>,
    tokens: set<Id>,
    incidentIds: set<Id>,
    // history
    past: map<Id, History>,
    probeLog: map<Id, ProbeLog>,
    checks: seq<CheckLog>)

  datatype Label =
    | Tick(to: Time)
    | Create(m: Id, monitor: Monitor)
    | Delete(m: Id)
    | PutWindow(v: Id, window: Window)
    | DropWindow(v: Id)
    | RetainIncidents(gone: set<Id>)
    | ClaimBegin(x: Id, w: Id)
    | ClaimSelect(x: Id, limit: nat, exclude: set<Id>, chosen: seq<Due>)
    | ClaimStamp(x: Id, minted: map<Id, Id>, rows: map<Id, Id>)
    | ClaimCommit(x: Id, returned: bool)
    | EndProbe(t: Id, success: bool)
    | EndTasks(gone: set<Id>)
    | CheckLock(x: Id, m: Id, success: bool)
    | LeasedCheckLock(x: Id, t: Id)
    | CheckVerify(x: Id)
    | CheckCreate(x: Id)
    | CheckRun(x: Id, at: Time, open: Option<Incident>, incidentId: Id, eventId: Id)
    | CheckCommit(x: Id)
    | EditLock(x: Id, m: Id, edit: Edit)
    | EditCommit(x: Id)
    | Abort(x: Id)
    | ReleaseBegin(x: Id)
    | ReleaseRow(x: Id, w: Id, t: Id, m: Id)
    | ReleaseCommit(x: Id)
    | EndWave(w: Id)
    | Crash(w: Id)

  ghost predicate Init(s: State) {
    && s.rows == map[] && s.incidents == map[] && s.windows == map[] && s.outbox == [] && s.txns == map[]
    && s.probes == map[] && s.waves == map[] && s.tokens == {} && s.incidentIds == {} && s.past == map[]
    && s.probeLog == map[] && s.checks == []
  }

  function Held(x: Txn): set<Id> {
    match x
    case Claiming(_, _, rows, _, _) => rows
    case Checking(m, _, _, _, _, _, _, _) => {m}
    case Editing(m, _, _) => {m}
    case Releasing(tokens) => tokens.Keys
  }

  predicate Locked(s: State, m: Id) {
    exists x :: x in s.txns && m in Held(s.txns[x])
  }

  function LockedRows(s: State): set<Id> {
    set x, m | x in s.txns && m in Held(s.txns[x]) :: m
  }

  predicate IsDue(row: Row, now: Time) {
    && row.monitor.nextCheckAt <= now && !row.monitor.status.Paused?
    && (row.leaseUntil.None? || row.leaseUntil.value <= now)
  }

  function Candidates(rows: map<Id, Row>, skip: set<Id>, now: Time): set<Due> {
    set m | m in rows && m !in skip && IsDue(rows[m], now) :: Due(rows[m].monitor.nextCheckAt, m)
  }

  function ExpiryOf(c: Config, st: Stamping, m: Monitor): Time {
    st.at + (m.timeoutSeconds as Time + c.leaseGrace)
  }

  function Stamp(c: Config, rows: map<Id, Row>, st: Stamping): (r: map<Id, Row>)
    ensures r.Keys == rows.Keys
  {
    map m | m in rows ::
      if m in st.tokens
      then rows[m].(leaseToken := Some(st.tokens[m]), leaseUntil := Some(ExpiryOf(c, st, rows[m].monitor)))
      else rows[m]
  }

  ghost predicate Inverse(m: map<Id, Id>, n: map<Id, Id>) {
    && (forall a :: a in m ==> m[a] in n && n[m[a]] == a)
    && (forall b :: b in n ==> n[b] in m && m[n[b]] == b)
  }

  /** Every claim returned starts its probe at once, with the monitor's own timeout. */
  function NewProbes(c: Config, rows: map<Id, Row>, st: Stamping, now: Time): map<Id, Probe> {
    map t | t in st.rows && st.rows[t] in rows ::
      Probe(rows[st.rows[t]].monitor, ExpiryOf(c, st, rows[st.rows[t]].monitor),
            Running(now + rows[st.rows[t]].monitor.timeoutSeconds as Time))
  }

  /** The leased check's own condition: its token, unexpired by a clock read under the lock. */
  predicate HoldsLease(row: Row, token: Id, now: Time) {
    row.leaseToken == Some(token) && row.leaseUntil.Some? && now < row.leaseUntil.value
  }

  /** Probes whose task is gone have stopped. */
  function Stopped(log: map<Id, ProbeLog>, gone: set<Id>, now: Time): (r: map<Id, ProbeLog>)
    ensures r.Keys == log.Keys
  {
    map t | t in log :: if log[t].ended.None? && t in gone then log[t].(ended := Some(now)) else log[t]
  }

  function Drop(s: State, gone: set<Id>): (n: State)
    ensures n == s.(probes := n.probes, probeLog := n.probeLog)
  {
    s.(probes := map t | t in s.probes && t !in gone :: s.probes[t], probeLog := Stopped(s.probeLog, gone, s.now))
  }

  /** What `record` decides at `at`, given the answer of the incident lookup. */
  function EffectOf(s: State, x: Txn, at: Time, open: Option<Incident>, incidentId: Id, eventId: Id): Effect
    requires x.Checking?
  {
    var maintenance := InMaintenance(s.windows, x.monitorId, at);
    var write := Recorded(x.read, x.success, maintenance, at);
    Effect(at, write, Checked(x.success, maintenance, at),
           if maintenance then Nothing else Transition(x.read, write, at, open, incidentId, eventId))
  }

  // ----- steps

  ghost predicate Enabled(c: Config, s: State, l: Label) {
    match l
    case Tick(to) =>
      s.now <= to && forall t :: t in s.probes && s.probes[t].state.Running? ==> to <= s.probes[t].state.deadline
    case Create(m, monitor) =>
      && m !in s.past && monitor.id == m && monitor.status.Pending?
      && monitor.failureThreshold >= 1 && monitor.recoveryThreshold >= 1
      && monitor.consecutiveFailures == 0 && monitor.consecutiveSuccesses == 0 && monitor.nextCheckAt == s.now
    case Delete(m) => m in s.rows && !Locked(s, m)
    case PutWindow(v, window) => v !in s.windows
    case DropWindow(v) => v in s.windows
    case RetainIncidents(gone) => forall i :: i in gone ==> i in s.incidents && s.incidents[i].status.Resolved?
    case ClaimBegin(x, w) => x !in s.txns
    case ClaimSelect(x, limit, exclude, chosen) =>
      && x in s.txns && s.txns[x].Claiming? && s.txns[x].rows == {} && s.txns[x].stamp.None?
      && FirstOf(Candidates(s.rows, exclude + LockedRows(s), s.now), limit, chosen)
    case ClaimStamp(x, minted, rows) =>
      && x in s.txns && s.txns[x].Claiming? && s.txns[x].stamp.None?
      && minted.Keys == s.txns[x].rows && rows.Keys !! s.tokens && Inverse(minted, rows)
    case ClaimCommit(x, returned) =>
      && x in s.txns && s.txns[x].Claiming? && s.txns[x].stamp.Some?
      // the claim runs under asyncio.timeout(lease_grace_seconds)
      && (returned ==> s.txns[x].worker !in s.waves && s.now <= s.txns[x].begunAt + c.leaseGrace)
    case EndProbe(t, success) => t in s.probes && s.probes[t].state.Running?
    case EndTasks(gone) => true
    case CheckLock(x, m, success) => x !in s.txns && m in s.rows && !Locked(s, m)
    case LeasedCheckLock(x, t) =>
      && x !in s.txns && t in s.probes && s.probes[t].state.Done?
      && s.probes[t].monitor.id in s.rows && !Locked(s, s.probes[t].monitor.id)
    case CheckVerify(x) =>
      && x in s.txns && s.txns[x].Checking? && s.txns[x].token.Some? && !s.txns[x].verified
      && s.txns[x].createdAt.None? && s.txns[x].effect.None?
    case CheckCreate(x) =>
      && x in s.txns && s.txns[x].Checking? && s.txns[x].createdAt.None? && s.txns[x].effect.None?
      && (s.txns[x].token.Some? ==> s.txns[x].verified)
    case CheckRun(x, at, open, incidentId, eventId) =>
      && x in s.txns && s.txns[x].Checking? && s.txns[x].effect.None? && s.txns[x].createdAt == Some(at)
      && OpenAnswer(s.incidents, s.txns[x].monitorId, open)
      && incidentId !in s.incidentIds
    case CheckCommit(x) => x in s.txns && s.txns[x].Checking? && s.txns[x].effect.Some?
    case EditLock(x, m, edit) => x !in s.txns && m in s.rows && !Locked(s, m)
    case EditCommit(x) => x in s.txns && s.txns[x].Editing?
    case Abort(x) => x in s.txns
    case ReleaseBegin(x) => x !in s.txns
    case ReleaseRow(x, w, t, m) =>
      && x in s.txns && s.txns[x].Releasing? && m !in s.txns[x].tokens
      && w in s.waves && t in s.waves[w]
      // the TaskGroup has drained
      && (forall u :: u in s.waves[w] ==> u !in s.probes)
      && m in s.rows && s.rows[m].leaseToken == Some(t) && !Locked(s, m)
    case ReleaseCommit(x) => x in s.txns && s.txns[x].Releasing?
    case EndWave(w) => w in s.waves && forall u :: u in s.waves[w] ==> u !in s.probes
    case Crash(w) => w in s.waves
  }

  /** The lease is compared with a clock read after the lock was taken, however long that took. */
  function AfterCheckVerify(s: State, x: Id): (n: State)
    requires x in s.txns && s.txns[x].Checking? && s.txns[x].token.Some?
    ensures n == s.(txns := n.txns)
  {
    var txn := s.txns[x];
    if txn.monitorId in s.rows && HoldsLease(s.rows[txn.monitorId], txn.token.value, s.now)
    then s.(txns := s.txns[x := txn.(since := s.now, verified := true)])
    else s.(txns := s.txns - {x})
  }

  /** The check row gets its instant here; its windows and its incident are looked up later. */
  function AfterCheckCreate(s: State, x: Id): (n: State)
    requires x in s.txns && s.txns[x].Checking?
    ensures n == s.(txns := n.txns)
  {
    s.(txns := s.txns[x := s.txns[x].(createdAt := Some(s.now))])
  }

  function AfterCheckRun(s: State, x: Id, at: Time, open: Option<Incident>, incidentId: Id, eventId: Id): (n: State)
    requires x in s.txns && s.txns[x].Checking?
    ensures n == s.(txns := n.txns, incidentIds := n.incidentIds)
  {
    var effect := EffectOf(s, s.txns[x], at, open, incidentId, eventId);
    s.(txns := s.txns[x := s.txns[x].(effect := Some(effect))], incidentIds := s.incidentIds + {incidentId})
  }

  /** The row with the check's monitor in it, and the lease released if the check ran under it. */
  function WrittenRow(row: Row, txn: Txn): Row
    requires txn.Checking? && txn.effect.Some?
  {
    var written := row.(monitor := txn.effect.value.write);
    if txn.token.Some? && row.leaseToken == txn.token then written.(leaseToken := None, leaseUntil := None) else written
  }

  function Extended(h: History, op: Op): History {
    h.(ops := h.ops + [op])
  }

  /** The monitor row as read and changed, the incident, the event and the released lease. */
  function AfterCheckCommit(s: State, x: Id): (n: State)
    requires x in s.txns && s.txns[x].Checking? && s.txns[x].effect.Some?
    ensures n == s.(txns := s.txns - {x}, rows := n.rows, incidents := n.incidents, outbox := n.outbox,
                    past := n.past, checks := n.checks)
  {
    var txn := s.txns[x];
    var m := txn.monitorId;
    var effect := txn.effect.value;
    if m !in s.rows || m !in s.past then s.(txns := s.txns - {x})
    else
      s.(txns := s.txns - {x},
         rows := s.rows[m := WrittenRow(s.rows[m], txn)],
         incidents := WithChange(s.incidents, effect.change),
         outbox := s.outbox + Emitted(effect.change),
         past := s.past[m := Extended(s.past[m], effect.op)],
         checks := s.checks + [CheckLog(m, txn.token, txn.success, txn.since, effect.at)])
  }

  function AfterEditCommit(s: State, x: Id): (n: State)
    requires x in s.txns && s.txns[x].Editing?
    ensures n == s.(txns := s.txns - {x}, rows := n.rows, past := n.past)
  {
    var txn := s.txns[x];
    var m := txn.monitorId;
    if m !in s.rows || m !in s.past then s.(txns := s.txns - {x})
    else
      s.(txns := s.txns - {x},
         rows := s.rows[m := s.rows[m].(monitor := Edited(txn.read, txn.edit))],
         past := s.past[m := Extended(s.past[m], Changed(txn.edit))])
  }

  /** The claim's rows and transaction after its commit, before any probe runs. */
  function Claimed(c: Config, s: State, x: Id): (n: State)
    requires x in s.txns && s.txns[x].Claiming? && s.txns[x].stamp.Some?
  {
    s.(rows := Stamp(c, s.rows, s.txns[x].stamp.value), txns := s.txns - {x})
  }

  function NewLogs(probes: map<Id, Probe>, now: Time): map<Id, ProbeLog> {
    map t | t in probes && probes[t].state.Running? ::
      ProbeLog(probes[t].monitor.id, now, probes[t].state.deadline, probes[t].expiry, None)
  }

  function AfterClaimCommit(c: Config, s: State, x: Id, returned: bool): (n: State)
    requires x in s.txns && s.txns[x].Claiming? && s.txns[x].stamp.Some?
    ensures n == Claimed(c, s, x).(probes := n.probes, waves := n.waves, probeLog := n.probeLog)
  {
    var m := Claimed(c, s, x);
    var st := s.txns[x].stamp.value;
    if returned && st.rows != map[] then
      var probes := NewProbes(c, m.rows, st, s.now);
      m.(probes := s.probes + probes,
         waves := s.waves[s.txns[x].worker := st.rows.Keys],
         probeLog := s.probeLog + NewLogs(probes, s.now))
    else m
  }

  function Released(rows: map<Id, Row>, tokens: map<Id, Id>): map<Id, Row> {
    map m | m in rows ::
      if m in tokens && rows[m].leaseToken == Some(tokens[m])
      then rows[m].(leaseToken := None, leaseUntil := None) else rows[m]
  }

  function WithoutMonitor<T>(rows: map<Id, T>, monitorOf: T -> Id, m: Id): map<Id, T> {
    map i | i in rows && monitorOf(rows[i]) != m :: rows[i]
  }

  ghost function Apply(c: Config, s: State, l: Label): State
    requires Enabled(c, s, l)
  {
    match l
    case Tick(to) => s.(now := to)
    case Create(m, monitor) =>
      s.(rows := s.rows[m := Row(monitor, None, None)], past := s.past[m := History(monitor, [])])
    case Delete(m) =>
      s.(rows := s.rows - {m},
         incidents := WithoutMonitor(s.incidents, (i: Incident) => i.monitorId, m),
         windows := WithoutMonitor(s.windows, (v: Window) => v.monitorId, m))
    case PutWindow(v, window) => s.(windows := s.windows[v := window])
    case DropWindow(v) => s.(windows := s.windows - {v})
    case RetainIncidents(gone) => s.(incidents := s.incidents - gone)
    case ClaimBegin(x, w) => s.(txns := s.txns[x := Claiming(w, s.now, {}, s.now, None)])
    case ClaimSelect(x, _, _, chosen) =>
      s.(txns := s.txns[x := s.txns[x].(rows := set due | due in chosen :: due.id, selectedAt := s.now)])
    case ClaimStamp(x, minted, rows) =>
      s.(txns := s.txns[x := s.txns[x].(stamp := Some(Stamping(s.now, minted, rows)))], tokens := s.tokens + rows.Keys)
    case ClaimCommit(x, returned) => AfterClaimCommit(c, s, x, returned)
    case EndProbe(t, success) =>
      s.(probes := s.probes[t := s.probes[t].(state := Done(success))], probeLog := Stopped(s.probeLog, {t}, s.now))
    case EndTasks(gone) => Drop(s, gone)
    case CheckLock(x, m, success) => s.(txns := s.txns[x := Checking(m, s.rows[m].monitor, None, success, s.now, false, None, None)])
    case LeasedCheckLock(x, t) =>
      var m := s.probes[t].monitor.id;
      s.(txns := s.txns[x := Checking(m, s.rows[m].monitor, Some(t), s.probes[t].state.success, s.now, false, None, None)])
    case CheckVerify(x) => AfterCheckVerify(s, x)
    case CheckCreate(x) => AfterCheckCreate(s, x)
    case CheckRun(x, at, open, incidentId, eventId) => AfterCheckRun(s, x, at, open, incidentId, eventId)
    case CheckCommit(x) => AfterCheckCommit(s, x)
    case EditLock(x, m, edit) => s.(txns := s.txns[x := Editing(m, s.rows[m].monitor, edit)])
    case EditCommit(x) => AfterEditCommit(s, x)
    case Abort(x) => s.(txns := s.txns - {x})
    case ReleaseBegin(x) => s.(txns := s.txns[x := Releasing(map[])])
    case ReleaseRow(x, _, t, m) => s.(txns := s.txns[x := Releasing(s.txns[x].tokens[m := t])])
    case ReleaseCommit(x) => s.(txns := s.txns - {x}, rows := Released(s.rows, s.txns[x].tokens))
    case EndWave(w) => s.(waves := s.waves - {w})
    case Crash(w) => Drop(s, s.waves[w]).(waves := s.waves - {w})
  }

  ghost predicate Step(c: Config, s: State, s': State) {
    exists l :: Enabled(c, s, l) && s' == Apply(c, s, l)
  }

  ghost predicate Run(c: Config, run: seq<State>) {
    && c.leaseGrace > 0.0
    && |run| > 0 && Init(run[0])
    && forall i :: 0 <= i < |run| - 1 ==> Step(c, run[i], run[i + 1])
  }
}
