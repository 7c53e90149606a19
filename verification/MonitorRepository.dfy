/**
  The in-memory monitor repository, two dictionaries updated in place, and the monitor
  service's edit. Monitors and claims together are the rows of the monitor protocol.
 */
module MonitorRepository {
  import opened Prelude
  import opened Identifiers
  import opened Selection
  import opened MonitorState
  import opened MonitorConfig
  import opened CheckRecording
  import P = MonitorProtocol
  import opened Waves
  import opened Tokens

  datatype MonitorClaim = MonitorClaim(monitor: Monitor, token: Id, expiresAt: Time)

  /** The database row that a monitor and its claim, if any, amount to. */
  function RowOf(monitors: map<Id, Monitor>, claims: map<Id, MonitorClaim>, m: Id): P.Row
    requires m in monitors
  {
    if m in claims then P.Row(monitors[m], Some(claims[m].token), Some(claims[m].expiresAt)) else P.Row(monitors[m], None, None)
  }

  function RowsOf(monitors: map<Id, Monitor>, claims: map<Id, MonitorClaim>): (rows: map<Id, P.Row>)
    ensures rows.Keys == monitors.Keys
  {
    map m | m in monitors :: RowOf(monitors, claims, m)
  }

  function Named(claims: seq<MonitorClaim>): (wave: Wave)
    ensures |wave| == |claims| && forall i :: 0 <= i < |claims| ==> wave[i] == Claimed(claims[i].monitor.id, claims[i].token)
  {
    seq(|claims|, i requires 0 <= i < |claims| => Claimed(claims[i].monitor.id, claims[i].token))
  }

  function DuesOf(claims: seq<MonitorClaim>): (dues: seq<Due>)
    ensures |dues| == |claims|
    ensures forall i :: 0 <= i < |claims| ==> dues[i] == Due(claims[i].monitor.nextCheckAt, claims[i].monitor.id)
  {
    seq(|claims|, i requires 0 <= i < |claims| => Due(claims[i].monitor.nextCheckAt, claims[i].monitor.id))
  }

  /** The rows after a claim at `now` gave each monitor in `tokens` its token and its own expiry. */
  function StampedRows(rows: map<Id, P.Row>, tokens: map<Id, Id>, grace: Time, now: Time): map<Id, P.Row> {
    P.Stamp(P.Config(grace), rows, P.Stamping(now, tokens, map[]))
  }

  lemma StampOne(monitors: map<Id, Monitor>, claims: map<Id, MonitorClaim>, rows: map<Id, P.Row>, tokens: map<Id, Id>,
                 grace: Time, now: Time, m: Id, token: Id)
    requires m in monitors && m !in tokens && RowsOf(monitors, claims) == StampedRows(rows, tokens, grace, now)
    requires m in rows && rows[m].monitor == monitors[m]
    ensures var expiry := now + (monitors[m].timeoutSeconds as Time + grace);
      RowsOf(monitors, claims[m := MonitorClaim(monitors[m], token, expiry)]) == StampedRows(rows, tokens[m := token], grace, now)
  {
    var expiry := now + (monitors[m].timeoutSeconds as Time + grace);
    var after := RowsOf(monitors, claims[m := MonitorClaim(monitors[m], token, expiry)]);
    var stamped := StampedRows(rows, tokens[m := token], grace, now);
    assert after.Keys == RowsOf(monitors, claims).Keys == stamped.Keys;
    forall k | k in after ensures after[k] == stamped[k] {
      if k != m { assert after[k] == RowsOf(monitors, claims)[k] == StampedRows(rows, tokens, grace, now)[k]; }
    }
  }

  predicate Stored(claims: map<Id, MonitorClaim>, claim: MonitorClaim) {
    claim.monitor.id in claims && claims[claim.monitor.id] == claim
  }

  lemma StampNone(rows: map<Id, P.Row>, grace: Time, now: Time)
    ensures StampedRows(rows, map[], grace, now) == rows
  {
  }

  /** A claim is of the monitor as it stands, and lasts its timeout and the grace from now on. */
  predicate IsLease(monitors: map<Id, Monitor>, claim: MonitorClaim, grace: Time, now: Time) {
    && claim.monitor.id in monitors && claim.monitor == monitors[claim.monitor.id]
    && claim.expiresAt == now + (claim.monitor.timeoutSeconds as Time + grace)
  }

  /** The claim that this choice has led to. */
  predicate MadeFor(monitors: map<Id, Monitor>, claims: map<Id, MonitorClaim>, claim: MonitorClaim, due: Due, exclude: set<Id>,
                    grace: Time, now: Time) {
    && claim.monitor.id == due.id && claim.monitor.nextCheckAt == due.at && due.id !in exclude
    && Stored(claims, claim) && IsLease(monitors, claim, grace, now)
  }

  ghost predicate AllMade(monitors: map<Id, Monitor>, claims: map<Id, MonitorClaim>, made: seq<MonitorClaim>, chosen: seq<Due>,
                          exclude: set<Id>, grace: Time, now: Time) {
    |made| <= |chosen| && forall j :: 0 <= j < |made| ==> MadeFor(monitors, claims, made[j], chosen[j], exclude, grace, now)
  }

  lemma MadeOneMore(monitors: map<Id, Monitor>, claims: map<Id, MonitorClaim>, made: seq<MonitorClaim>, chosen: seq<Due>,
                    exclude: set<Id>, grace: Time, now: Time, claim: MonitorClaim)
    requires |made| < |chosen| && AllMade(monitors, claims, made, chosen, exclude, grace, now)
    requires MadeFor(monitors, claims[claim.monitor.id := claim], claim, chosen[|made|], exclude, grace, now)
    requires forall j :: 0 <= j < |made| ==> chosen[j].id != chosen[|made|].id
    ensures AllMade(monitors, claims[claim.monitor.id := claim], made + [claim], chosen, exclude, grace, now)
  {
    forall j | 0 <= j < |made| ensures MadeFor(monitors, claims[claim.monitor.id := claim], made[j], chosen[j], exclude, grace, now) {
      assert MadeFor(monitors, claims, made[j], chosen[j], exclude, grace, now);
    }
  }

  lemma UnleasedOneMore(before: map<Id, MonitorClaim>, after: map<Id, MonitorClaim>, taken: set<Id>, m: Id, claim: MonitorClaim)
    requires Unleased(before, after, taken)
    ensures Unleased(before, after[m := claim], taken + {m})
  {
  }

  /** Claims of other monitors stay as they are. */
  predicate Unleased(before: map<Id, MonitorClaim>, after: map<Id, MonitorClaim>, taken: set<Id>) {
    && (forall m :: m in before && m !in taken ==> m in after && after[m] == before[m])
    && (forall m :: m in after && m !in taken ==> m in before)
  }

  /**
    Column by column: a claimed monitor was due, not paused and in nobody's lease, and gets its own;
    other claims stay, and if the claim is short no other monitor was to be had.
   */
  ghost predicate TakesTheDue(monitors: map<Id, Monitor>, before: map<Id, MonitorClaim>, after: map<Id, MonitorClaim>,
                              claimed: seq<MonitorClaim>, exclude: set<Id>, now: Time, limit: int, grace: Time) {
    && |claimed| <= limit
    && (forall i :: 0 <= i < |claimed| ==>
          var m := claimed[i].monitor.id;
          && m in monitors && m !in exclude && claimed[i].monitor == monitors[m]
          && monitors[m].nextCheckAt <= now && monitors[m].status != Paused && (m !in before || before[m].expiresAt <= now)
          && claimed[i].expiresAt == now + (monitors[m].timeoutSeconds as Time + grace)
          && m in after && after[m] == claimed[i])
    && Unleased(before, after, ClaimedIds(claimed))
    && (|claimed| < limit ==> forall m :: m in monitors && m !in ClaimedIds(claimed) ==>
          m in exclude || monitors[m].nextCheckAt > now || monitors[m].status == Paused || (m in before && before[m].expiresAt > now))
  }

  function ClaimedIds(claimed: seq<MonitorClaim>): set<Id> {
    set i | 0 <= i < |claimed| :: claimed[i].monitor.id
  }

  lemma ClaimTakesTheDue(monitors: map<Id, Monitor>, before: map<Id, MonitorClaim>, after: map<Id, MonitorClaim>,
                         claimed: seq<MonitorClaim>, taken: set<Id>, exclude: set<Id>, now: Time, limit: nat, grace: Time)
    requires FirstOf(P.Candidates(RowsOf(monitors, before), exclude, now), limit, DuesOf(claimed))
    requires forall i :: 0 <= i < |claimed| ==> IsLease(monitors, claimed[i], grace, now) && Stored(after, claimed[i])
    requires Unleased(before, after, taken) && taken == WaveIds(Named(claimed))
    ensures TakesTheDue(monitors, before, after, claimed, exclude, now, limit, grace)
  {
    var candidates := P.Candidates(RowsOf(monitors, before), exclude, now);
    var dues := DuesOf(claimed);
    WaveIdsAreClaimed(claimed);
    forall i | 0 <= i < |claimed| ensures dues[i] in candidates && claimed[i].monitor.id in ClaimedIds(claimed) {
      assert dues[i] in Elements(dues);
    }
    if |claimed| < limit {
      ShortIsAll(candidates, limit, dues);
      forall m | m in monitors && m !in ClaimedIds(claimed) ensures Due(monitors[m].nextCheckAt, m) !in candidates {}
    }
  }

  lemma WaveIdsAreClaimed(claimed: seq<MonitorClaim>)
    ensures WaveIds(Named(claimed)) == ClaimedIds(claimed)
  {
    forall i | 0 <= i < |claimed| ensures claimed[i].monitor.id in WaveIds(Named(claimed)) {
      assert Named(claimed)[i] in Named(claimed);
    }
  }

  class InMemoryMonitors {
    var monitors: map<Id, Monitor>
    var claims: map<Id, MonitorClaim>

    predicate Valid()
      reads this
    {
      && (forall m :: m in monitors ==> monitors[m].id == m)
      && (forall m :: m in claims ==> m in monitors)
    }

    function Rows(): map<Id, P.Row>
      reads this
    {
      RowsOf(monitors, claims)
    }

    constructor ()
      ensures Valid() && monitors == map[] && claims == map[]
    {
      monitors, claims := map[], map[];
    }

    method Create(monitor: Monitor)
      requires Valid()
      modifies this`monitors
      ensures Valid() && monitors == old(monitors)[monitor.id := monitor]
    {
      monitors := monitors[monitor.id := monitor];
    }

    /** The lease is looked at first, then the monitor and its organization. */
    function GetByIdForUpdate(m: Id, organizationId: Option<Id>, token: Option<Id>, now: Time): (r: Option<Monitor>)
      requires Valid()
      reads this
      ensures r.Some? <==>
        && m in monitors && (organizationId.Some? ==> monitors[m].organizationId == organizationId.value)
        && (token.Some? ==> P.HoldsLease(Rows()[m], token.value, now))
      ensures r.Some? ==> r.value == monitors[m]
      ensures r.Some? && token.Some? ==> m in claims && claims[m].token == token.value && now < claims[m].expiresAt
      ensures r.None? && token.Some? && m in monitors && (organizationId.Some? ==> monitors[m].organizationId == organizationId.value)
        ==> m !in claims || claims[m].token != token.value || claims[m].expiresAt <= now
    {
      if token.Some? && (m !in claims || claims[m].token != token.value || claims[m].expiresAt <= now) then None
      else if m in monitors && (organizationId.None? || monitors[m].organizationId == organizationId.value) then Some(monitors[m])
      else None
    }

    /** None stands for the ValueError. */
    method ClaimDue(limit: int, grace: Time, exclude: set<Id>, now: Time, ids: IdSource)
      returns (r: Option<seq<MonitorClaim>>, ghost tokens: map<Id, Id>)
      requires Valid() && ids.Valid()
      modifies this`claims, ids
      ensures Valid() && ids.Valid()
      ensures r.None? <==> limit < 1 || grace <= 0.0
      ensures r.None? ==> claims == old(claims)
      ensures r.Some? ==>
        && FirstOf(P.Candidates(old(Rows()), exclude, now), limit, DuesOf(r.value))
        && tokens.Keys == WaveIds(Named(r.value))
        && FreshTokens(tokens, old(ids.used))
        && Rows() == StampedRows(old(Rows()), tokens, grace, now)
        && (forall i :: 0 <= i < |r.value| ==> Stored(claims, r.value[i]) && r.value[i].monitor.id !in exclude)
        && TakesTheDue(monitors, old(claims), claims, r.value, exclude, now, limit, grace)
    {
      tokens := map[];
      if limit < 1 || grace <= 0.0 { return None, tokens; }
      var candidates := P.Candidates(Rows(), exclude, now);
      var chosen := Oldest(candidates, limit);
      assert Ascending(chosen) && Elements(chosen) <= candidates;
      hide StampedRows, RowsOf, P.Candidates, FirstOf, FreshTokens;
      var made: seq<MonitorClaim>;
      made, tokens := LeaseAll(chosen, grace, exclude, now, ids);
      assert DuesOf(made) == chosen;
      NamedIds(made, chosen);
      ClaimTakesTheDue(monitors, old(claims), claims, made, tokens.Keys, exclude, now, limit, grace);
      r := Some(made);
    }

    method LeaseAll(chosen: seq<Due>, grace: Time, exclude: set<Id>, now: Time, ids: IdSource)
      returns (made: seq<MonitorClaim>, ghost tokens: map<Id, Id>)
      requires Valid() && ids.Valid()
      requires Ascending(chosen) && Elements(chosen) <= P.Candidates(Rows(), exclude, now)
      modifies this`claims, ids
      ensures Valid() && ids.Valid() && |made| == |chosen|
      ensures tokens.Keys == set j | 0 <= j < |chosen| :: chosen[j].id
      ensures FreshTokens(tokens, old(ids.used)) && Rows() == StampedRows(old(Rows()), tokens, grace, now)
      ensures AllMade(monitors, claims, made, chosen, exclude, grace, now)
      ensures Unleased(old(claims), claims, tokens.Keys)
    {
      tokens, made := map[], [];
      ghost var before := Rows();
      StampNone(before, grace, now);
      assert FreshTokens(tokens, ids.used) && Range(tokens) == {};
      assert Unleased(claims, claims, {}) && AllMade(monitors, claims, made, chosen, exclude, grace, now);
      hide StampedRows, RowsOf, P.Candidates, P.IsDue, FreshTokens, Range, IsLease, Unleased, AllMade;
      var i := 0;
      while i < |chosen|
        invariant 0 <= i <= |chosen| && |made| == i && Valid() && ids.Valid() && old(ids.used) <= ids.used
        invariant tokens.Keys == set j | 0 <= j < i :: chosen[j].id
        invariant Rows() == StampedRows(before, tokens, grace, now)
        invariant AllMade(monitors, claims, made, chosen, exclude, grace, now)
        invariant FreshTokens(tokens, old(ids.used)) && Range(tokens) <= ids.used
        invariant Unleased(old(claims), claims, tokens.Keys)
      {
        ChosenIsNew(before, exclude, now, chosen, i);
        var m := chosen[i].id;
        ghost var stored := claims;
        var claim := LeaseOne(m, grace, now, ids, before, tokens);
        UnleasedOneMore(old(claims), stored, tokens.Keys, m, claim);
        MadeOneMore(monitors, stored, made, chosen, exclude, grace, now, claim);
        assert tokens[m := claim.token].Keys == tokens.Keys + {m};
        FreshTokensOneMore(tokens, old(ids.used), ids.used - {claim.token}, m, claim.token);
        tokens := tokens[m := claim.token];
        made := made + [claim];
        i := i + 1;
      }
    }

    /** One monitor's new lease; `tokens` are those stamped so far. */
    method LeaseOne(m: Id, grace: Time, now: Time, ids: IdSource, ghost before: map<Id, P.Row>, ghost tokens: map<Id, Id>)
      returns (claim: MonitorClaim)
      requires Valid() && ids.Valid() && m in monitors && m !in tokens && m in before && before[m].monitor == monitors[m]
      requires Rows() == StampedRows(before, tokens, grace, now)
      modifies this`claims, ids
      ensures Valid() && ids.Valid() && claim.token !in old(ids.used) && ids.used == old(ids.used) + {claim.token}
      ensures claim == MonitorClaim(monitors[m], claim.token, now + (monitors[m].timeoutSeconds as Time + grace))
      ensures claims == old(claims)[m := claim] && IsLease(monitors, claim, grace, now)
      ensures Rows() == StampedRows(before, tokens[m := claim.token], grace, now)
    {
      var token := ids.Generate();
      claim := MonitorClaim(monitors[m], token, now + (monitors[m].timeoutSeconds as Time + grace));
      StampOne(monitors, claims, before, tokens, grace, now, m, token);
      hide StampedRows, RowsOf;
      claims := claims[m := claim];
    }

    method ReleaseCheckLease(m: Id, token: Id) returns (released: bool)
      requires Valid()
      modifies this`claims
      ensures Valid() && Rows() == P.Released(old(Rows()), map[m := token])
      ensures released <==> m in old(claims) && old(claims)[m].token == token
      ensures claims == if released then old(claims) - {m} else old(claims)
    {
      if m !in claims || claims[m].token != token { return false; }
      claims := claims - {m};
      released := true;
    }

    method Update(monitor: Monitor) returns (updated: bool)
      requires Valid()
      modifies this`monitors
      ensures Valid() && (updated <==> monitor.id in old(monitors))
      ensures monitors == if updated then old(monitors)[monitor.id := monitor] else old(monitors)
    {
      updated := monitor.id in monitors;
      if updated { monitors := monitors[monitor.id := monitor]; }
    }

    method Delete(m: Id, organizationId: Id) returns (deleted: bool)
      requires Valid()
      modifies this
      ensures Valid() && (deleted <==> m in old(monitors) && old(monitors)[m].organizationId == organizationId)
      ensures Rows() == if deleted then old(Rows()) - {m} else old(Rows())
      ensures monitors == if deleted then old(monitors) - {m} else old(monitors)
      ensures claims == if deleted then old(claims) - {m} else old(claims)
    {
      if m !in monitors || monitors[m].organizationId != organizationId { return false; }
      monitors, claims := monitors - {m}, claims - {m};
      deleted := true;
    }
  }

  lemma ChosenIsNew(rows: map<Id, P.Row>, exclude: set<Id>, now: Time, chosen: seq<Due>, i: nat)
    requires i < |chosen| && Ascending(chosen) && Elements(chosen) <= P.Candidates(rows, exclude, now)
    ensures chosen[i].id in rows && chosen[i].id !in exclude && rows[chosen[i].id].monitor.nextCheckAt == chosen[i].at
    ensures forall j :: 0 <= j < i ==> chosen[j].id != chosen[i].id
  {
    forall j | 0 <= j <= i
      ensures chosen[j].id in rows && chosen[j].id !in exclude && rows[chosen[j].id].monitor.nextCheckAt == chosen[j].at
    {
      assert chosen[j] in Elements(chosen);
    }
  }

  lemma NamedIds(made: seq<MonitorClaim>, chosen: seq<Due>)
    requires |made| == |chosen| && forall j :: 0 <= j < |made| ==> made[j].monitor.id == chosen[j].id
    ensures WaveIds(Named(made)) == set j | 0 <= j < |chosen| :: chosen[j].id
  {
    var named := Named(made);
    var ids := set j | 0 <= j < |chosen| :: chosen[j].id;
    assert forall j :: 0 <= j < |named| ==> named[j].id == chosen[j].id;
    hide Named;
    forall j | 0 <= j < |chosen| ensures chosen[j].id in WaveIds(named) { assert named[j] in named; }
    forall id | id in WaveIds(named) ensures id in ids {
      var k :| k in named && k.id == id;
      var j :| 0 <= j < |named| && named[j] == k;
    }
  }

  datatype UpdateResult = Updated | Missing | InvalidConfig

  /** What a user asks for: settings and a partial configuration. */
  datatype Request = Request(
    name: Option<string>,
    config: Option<Data>,
    intervalSeconds: Option<nat>,
    timeoutSeconds: Option<nat>,
    failureThreshold: Option<int>,
    recoveryThreshold: Option<int>)

  predicate Rejected(m: Monitor, request: Request) {
    request.config.Some? && Merge(m.config, request.config.value).None?
  }

  /** The edit that the request is for a monitor as it stands. */
  function EditFor(m: Monitor, request: Request): Edit {
    Edit(request.name, if request.config.Some? then Merge(m.config, request.config.value) else None,
         request.intervalSeconds, request.timeoutSeconds, request.failureThreshold, request.recoveryThreshold)
  }

  /** Each setting asked for is as asked, the configuration merged; everything else is as it was. */
  predicate EditedAs(before: Monitor, after: Monitor, request: Request) {
    && after.name == (if request.name.Some? then request.name.value else before.name)
    && after.intervalSeconds == (if request.intervalSeconds.Some? then request.intervalSeconds.value else before.intervalSeconds)
    && after.timeoutSeconds == (if request.timeoutSeconds.Some? then request.timeoutSeconds.value else before.timeoutSeconds)
    && after.failureThreshold == (if request.failureThreshold.Some? then request.failureThreshold.value else before.failureThreshold)
    && after.recoveryThreshold == (if request.recoveryThreshold.Some? then request.recoveryThreshold.value else before.recoveryThreshold)
    && (if request.config.Some? then Merge(before.config, request.config.value) == Some(after.config) else after.config == before.config)
    && after.id == before.id && after.organizationId == before.organizationId && after.createdAt == before.createdAt
    && after.status == before.status && after.nextCheckAt == before.nextCheckAt
    && after.consecutiveFailures == before.consecutiveFailures && after.consecutiveSuccesses == before.consecutiveSuccesses
  }

  class MonitorService {
    const monitors: InMemoryMonitors
    const organizationId: Id

    constructor (monitors: InMemoryMonitors, organizationId: Id)
      ensures this.monitors == monitors && this.organizationId == organizationId
    {
      this.monitors, this.organizationId := monitors, organizationId;
    }

    /** An edit touches neither the state that checks keep nor anybody's lease; a rejected one touches nothing. */
    method Update(m: Id, request: Request, now: Time) returns (r: UpdateResult)
      requires monitors.Valid()
      modifies monitors`monitors
      ensures monitors.Valid()
      ensures r.Missing? <==> m !in old(monitors.monitors) || old(monitors.monitors)[m].organizationId != organizationId
      ensures !r.Missing? ==> (r.InvalidConfig? <==> Rejected(old(monitors.monitors)[m], request))
      ensures monitors.monitors ==
        if r.Updated? then old(monitors.monitors)[m := Edited(old(monitors.monitors)[m], EditFor(old(monitors.monitors)[m], request))]
        else old(monitors.monitors)
      ensures r.Updated? ==> m in monitors.monitors && EditedAs(old(monitors.monitors)[m], monitors.monitors[m], request)
    {
      var found := monitors.GetByIdForUpdate(m, Some(organizationId), None, now);
      if found.None? { return Missing; }
      if request.config.Some? && Merge(found.value.config, request.config.value).None? { return InvalidConfig; }
      var updated := monitors.Update(Edited(found.value, EditFor(found.value, request)));
      r := if updated then Updated else Missing;
    }
  }
}
