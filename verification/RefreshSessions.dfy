/**
  Refresh-token rotation over the in-memory session repository. A refresh revokes the
  session of the token it is given and creates the next one for the same user.
 */
module RefreshSessions {
  import opened Prelude
  import opened Identifiers
  import opened Selection

  /** `tokenHash` is the keyed hash of the token; hashes of different tokens differ. */
  datatype Session = Session(userId: Id, tokenHash: Id, createdAt: Time, expiresAt: Time, revokedAt: Option<Time>)

  const SECONDS_PER_DAY: Time := 86400.0

  function Fresh(user: Id, hash: Id, now: Time, days: nat): Session {
    Session(user, hash, now, now + days as Time * SECONDS_PER_DAY, None)
  }

  /** What `refresh` asks of the session it finds, with the clock it read before looking. */
  predicate Redeemable(session: Session, now: Time) {
    session.revokedAt.None? && now < session.expiresAt
  }

  function Revoked(sessions: map<Id, Session>, k: Id, at: Time): map<Id, Session>
    requires k in sessions
  {
    sessions[k := sessions[k].(revokedAt := Some(at))]
  }

  /** One unrevoked session out, one in, for the same user. */
  function Rotated(sessions: map<Id, Session>, k: Id, id: Id, hash: Id, now: Time, days: nat): map<Id, Session>
    requires k in sessions
  {
    Revoked(sessions, k, now)[id := Fresh(sessions[k].userId, hash, now, days)]
  }

  ghost predicate UniqueHashes(sessions: map<Id, Session>) {
    forall a, b :: a in sessions && b in sessions && sessions[a].tokenHash == sessions[b].tokenHash ==> a == b
  }

  /** The answer of `get_by_hash_for_update`. */
  ghost predicate FoundBy(sessions: map<Id, Session>, hash: Id, answer: Option<Id>) {
    if answer.Some? then answer.value in sessions && sessions[answer.value].tokenHash == hash
    else forall k :: k in sessions ==> sessions[k].tokenHash != hash
  }

  /** Sessions that could be refreshed if they have not expired. */
  function Usable(sessions: map<Id, Session>, user: Id): set<Id> {
    set k | k in sessions && sessions[k].userId == user && sessions[k].revokedAt.None?
  }

  lemma UsableAfterRotation(sessions: map<Id, Session>, k: Id, id: Id, hash: Id, now: Time, days: nat, user: Id)
    requires k in sessions && sessions[k].revokedAt.None? && id !in sessions
    ensures Usable(Rotated(sessions, k, id, hash, now, days), user)
      == if sessions[k].userId == user then Usable(sessions, user) - {k} + {id} else Usable(sessions, user)
  {
    var after := Rotated(sessions, k, id, hash, now, days);
    assert after.Keys == sessions.Keys + {id};
    assert forall j :: j in sessions && j != k ==> after[j] == sessions[j];
  }

  /** Rotation conserves the number of usable sessions of every user. */
  lemma RotationConserves(sessions: map<Id, Session>, k: Id, id: Id, hash: Id, now: Time, days: nat, user: Id)
    requires k in sessions && sessions[k].revokedAt.None? && id !in sessions
    ensures |Usable(Rotated(sessions, k, id, hash, now, days), user)| == |Usable(sessions, user)|
  {
    UsableAfterRotation(sessions, k, id, hash, now, days, user);
    var before := Usable(sessions, user);
    assert k in before <==> sessions[k].userId == user;
    assert id !in before;
    hide Usable, Rotated;
    if k in before {
      RemoveOne(before, k);
      RemoveOne(before - {k} + {id}, id);
      assert before - {k} + {id} - {id} == before - {k};
    }
  }

  /** The session k has been revoked at `now`, another one of its user lives from then on, and the rest is as it was. */
  ghost predicate Succeeds(before: map<Id, Session>, after: map<Id, Session>, k: Id, id: Id, hash: Id, now: Time, days: nat) {
    && k in before && id !in before && after.Keys == before.Keys + {id}
    && after[k] == before[k].(revokedAt := Some(now))
    && after[id].userId == before[k].userId && after[id].tokenHash == hash && after[id].createdAt == now && after[id].revokedAt.None?
    && after[id].expiresAt - now == 86400.0 * days as Time
    && forall j :: j in before && j != k ==> after[j] == before[j]
  }

  lemma RotatedSucceeds(before: map<Id, Session>, k: Id, id: Id, hash: Id, now: Time, days: nat)
    requires k in before && id !in before
    ensures Succeeds(before, Rotated(before, k, id, hash, now, days), k, id, hash, now, days)
  {
  }

  class InMemorySessions {
    var sessions: map<Id, Session>

    constructor ()
      ensures sessions == map[]
    {
      sessions := map[];
    }

    method Create(id: Id, session: Session)
      modifies this
      ensures sessions == old(sessions)[id := session]
    {
      sessions := sessions[id := session];
    }

    method GetByHash(hash: Id) returns (found: Option<Id>)
      ensures FoundBy(sessions, hash, found)
    {
      var order := Listed(sessions.Keys);
      var k := 0;
      while k < |order|
        invariant 0 <= k <= |order| && forall j :: 0 <= j < |order| ==> order[j] in sessions
        invariant forall j :: 0 <= j < k ==> sessions[order[j]].tokenHash != hash
      {
        if sessions[order[k]].tokenHash == hash { return Some(order[k]); }
        k := k + 1;
      }
      assert forall j :: j in sessions ==> j in Elements(order);
      found := None;
    }

    /** Only an unrevoked session can be revoked. */
    method Revoke(id: Id, at: Time) returns (revoked: bool)
      modifies this
      ensures revoked <==> id in old(sessions) && old(sessions)[id].revokedAt.None?
      ensures sessions == if revoked then Revoked(old(sessions), id, at) else old(sessions)
    {
      if id !in sessions || sessions[id].revokedAt.Some? { return false; }
      sessions := sessions[id := sessions[id].(revokedAt := Some(at))];
      revoked := true;
    }
  }

  class RefreshService {
    const repository: InMemorySessions
    const ids: IdSource
    const ttlDays: nat

    constructor (repository: InMemorySessions, ids: IdSource, ttlDays: nat)
      ensures this.repository == repository && this.ids == ids && this.ttlDays == ttlDays
    {
      this.repository, this.ids, this.ttlDays := repository, ids, ttlDays;
    }

    /** Session ids and token hashes come from the same source of new values. */
    ghost predicate Valid()
      reads this, repository, ids
    {
      && ids.Valid() && UniqueHashes(repository.sessions)
      && forall k :: k in repository.sessions ==> k in ids.used && repository.sessions[k].tokenHash in ids.used
    }

    method CreatePair(user: Id, now: Time) returns (id: Id, hash: Id)
      requires Valid()
      modifies repository, ids
      ensures Valid() && id !in old(repository.sessions) && hash !in old(ids.used)
      ensures repository.sessions == old(repository.sessions)[id := Fresh(user, hash, now, ttlDays)]
    {
      hash := ids.Generate();
      id := ids.Generate();
      repository.Create(id, Fresh(user, hash, now, ttlDays));
    }

    method Issue(user: Id, now: Time) returns (id: Id, hash: Id)
      requires Valid()
      modifies repository, ids
      ensures Valid() && id !in old(repository.sessions) && hash !in old(ids.used)
      ensures repository.sessions == old(repository.sessions)[id := Fresh(user, hash, now, ttlDays)]
      ensures var issued := repository.sessions[id];
        && issued.userId == user && issued.tokenHash == hash && issued.createdAt == now && issued.revokedAt.None?
        && issued.expiresAt - now == 86400.0 * ttlDays as Time
    {
      id, hash := CreatePair(user, now);
    }

    /** The new token, or None for InvalidRefreshTokenError. */
    method Refresh(token: Id, now: Time) returns (r: Option<Id>, ghost found: Option<Id>, ghost id: Id)
      requires Valid()
      modifies repository, ids
      ensures Valid() && FoundBy(old(repository.sessions), token, found)
      ensures r.Some? <==> found.Some? && Redeemable(old(repository.sessions)[found.value], now)
      ensures r.None? ==> repository.sessions == old(repository.sessions)
      ensures r.Some? ==>
        && id !in old(repository.sessions) && r.value !in old(ids.used)
        && repository.sessions == Rotated(old(repository.sessions), found.value, id, r.value, now, ttlDays)
      ensures r.Some? <==>
        && found.Some? && old(repository.sessions)[found.value].revokedAt.None? && now < old(repository.sessions)[found.value].expiresAt
      ensures r.Some? ==> Succeeds(old(repository.sessions), repository.sessions, found.value, id, r.value, now, ttlDays)
    {
      id := 0;
      var answer := repository.GetByHash(token);
      found := answer;
      if answer.None? { return None, found, id; }
      var session := repository.sessions[answer.value];
      if session.revokedAt.Some? || session.expiresAt <= now { return None, found, id; }
      var revoked := repository.Revoke(answer.value, now);
      if !revoked { return None, found, id; }
      var made, hash := CreatePair(session.userId, now);
      id := made;
      RotatedSucceeds(old(repository.sessions), answer.value, id, hash, now, ttlDays);
      r := Some(hash);
    }

    /** Revoking an unknown or revoked token changes nothing. */
    method Revoke(token: Id, now: Time)
      requires Valid()
      modifies repository
      ensures Valid()
      ensures forall k :: k in old(repository.sessions) ==>
        && k in repository.sessions
        && repository.sessions[k] ==
             if old(repository.sessions)[k].tokenHash == token && old(repository.sessions)[k].revokedAt.None?
             then old(repository.sessions)[k].(revokedAt := Some(now)) else old(repository.sessions)[k]
      ensures repository.sessions.Keys == old(repository.sessions).Keys
    {
      var found := repository.GetByHash(token);
      if found.None? { return; }
      assert forall k :: k in repository.sessions && repository.sessions[k].tokenHash == token ==> k == found.value;
      if repository.sessions[found.value].revokedAt.Some? { return; }
      var revoked := repository.Revoke(found.value, now);
    }
  }
}

/**
  The same rotation with concurrent requests: the session row is locked between looking a
  token up and committing, and the clock is read before the lock is waited for.
 */
module RefreshProtocol {
  import opened Prelude
  import opened RefreshSessions

  /** Sessions live for whole days, one at least. */
  datatype Config = Config(ttlDays: nat)

  /** `k` is the session found and locked; a request that ends without a lock has none. */
  datatype Request =
    | Refreshing(hash: Id, readAt: Time, k: Option<Id>)
    | Revoking(hash: Id, k: Option<Id>)

  /** One token redeemed: the session it stood for, the next one, and the clocks. */
  datatype Redemption = Redemption(hash: Id, spent: Id, next: Id, readAt: Time, expiresAt: Time, at: Time)

  datatype State = State(
    now: Time,
    sessions: map<Id, Session>,
    requests: map<Id, Request>,
    used: set<Id>,
    // history: the login each session descends from, and every redemption
    login: map<Id, Id>,
    redeemed: seq<Redemption>)

  datatype Label =
    | Tick(to: Time)
    | Issue(id: Id, hash: Id, user: Id)
    | BeginRefresh(x: Id, hash: Id)
    | BeginRevoke(x: Id, hash: Id)
    | Lock(x: Id, found: Option<Id>)
    | CommitRefresh(x: Id, id: Id, hash: Id)
    | CommitRevoke(x: Id)
    | Abort(x: Id)

  ghost predicate Init(s: State) {
    s.sessions == map[] && s.requests == map[] && s.used == {} && s.login == map[] && s.redeemed == []
  }

  predicate Locked(s: State, k: Id) {
    exists x :: x in s.requests && s.requests[x].k == Some(k)
  }

  predicate New(s: State, id: Id, hash: Id) {
    id !in s.used && hash !in s.used && id != hash
  }

  ghost predicate Enabled(s: State, l: Label) {
    match l
    case Tick(to) => s.now <= to
    case Issue(id, hash, _) => New(s, id, hash)
    case BeginRefresh(x, _) => x !in s.requests
    case BeginRevoke(x, _) => x !in s.requests
    case Lock(x, found) =>
      && x in s.requests && s.requests[x].k.None? && FoundBy(s.sessions, s.requests[x].hash, found)
      && (found.Some? ==> !Locked(s, found.value))
    case CommitRefresh(x, id, hash) => x in s.requests && s.requests[x].Refreshing? && s.requests[x].k.Some? && New(s, id, hash)
    case CommitRevoke(x) => x in s.requests && s.requests[x].Revoking? && s.requests[x].k.Some?
    case Abort(x) => x in s.requests
  }

  /** A request goes on only with a session it may use; the row stays locked until it ends. */
  function AfterLock(s: State, x: Id, found: Option<Id>): State
    requires x in s.requests && (found.Some? ==> found.value in s.sessions)
  {
    var request := s.requests[x];
    if found.None? || s.sessions[found.value].revokedAt.Some?
       || (request.Refreshing? && !Redeemable(s.sessions[found.value], request.readAt))
    then s.(requests := s.requests - {x})
    else s.(requests := s.requests[x := request.(k := found)])
  }

  function AfterRefresh(c: Config, s: State, x: Id, id: Id, hash: Id): State
    requires x in s.requests && s.requests[x].Refreshing? && s.requests[x].k.Some?
  {
    var request := s.requests[x];
    var k := request.k.value;
    if k !in s.sessions || k !in s.login then s.(requests := s.requests - {x})
    else
      s.(sessions := Rotated(s.sessions, k, id, hash, request.readAt, c.ttlDays),
         requests := s.requests - {x},
         used := s.used + {id, hash},
         login := s.login[id := s.login[k]],
         redeemed := s.redeemed + [Redemption(request.hash, k, id, request.readAt, s.sessions[k].expiresAt, s.now)])
  }

  ghost function Apply(c: Config, s: State, l: Label): State
    requires Enabled(s, l)
  {
    match l
    case Tick(to) => s.(now := to)
    case Issue(id, hash, user) =>
      s.(sessions := s.sessions[id := Fresh(user, hash, s.now, c.ttlDays)], used := s.used + {id, hash}, login := s.login[id := id])
    case BeginRefresh(x, hash) => s.(requests := s.requests[x := Refreshing(hash, s.now, None)])
    case BeginRevoke(x, hash) => s.(requests := s.requests[x := Revoking(hash, None)])
    case Lock(x, found) => AfterLock(s, x, found)
    case CommitRefresh(x, id, hash) => AfterRefresh(c, s, x, id, hash)
    case CommitRevoke(x) =>
      var k := s.requests[x].k.value;
      s.(requests := s.requests - {x}, sessions := if k in s.sessions then Revoked(s.sessions, k, s.now) else s.sessions)
    case Abort(x) => s.(requests := s.requests - {x})
  }

  ghost predicate Step(c: Config, s: State, n: State) {
    exists l :: Enabled(s, l) && n == Apply(c, s, l)
  }

  ghost predicate Run(c: Config, run: seq<State>) {
    c.ttlDays >= 1 && |run| > 0 && Init(run[0]) && forall i :: 0 <= i < |run| - 1 ==> Step(c, run[i], run[i + 1])
  }

  // ----- invariant

  ghost predicate RequestOk(sessions: map<Id, Session>, now: Time, r: Request) {
    && (r.Refreshing? ==> r.readAt <= now)
    && (r.k.Some? ==>
          && r.k.value in sessions && sessions[r.k.value].tokenHash == r.hash && sessions[r.k.value].revokedAt.None?
          && (r.Refreshing? ==> Redeemable(sessions[r.k.value], r.readAt)))
  }

  ghost predicate Requests(s: State) {
    && (forall x :: x in s.requests ==> RequestOk(s.sessions, s.now, s.requests[x]))
    && (forall x, y :: x in s.requests && y in s.requests && s.requests[x].k.Some? && s.requests[x].k == s.requests[y].k ==> x == y)
  }

  /** A redeemed token's session is revoked, and the next one is of the same user and login. */
  ghost predicate RedemptionOk(sessions: map<Id, Session>, login: map<Id, Id>, now: Time, r: Redemption) {
    && r.spent in sessions && r.next in sessions && sessions[r.spent].tokenHash == r.hash
    && sessions[r.spent].revokedAt.Some? && sessions[r.next].userId == sessions[r.spent].userId
    && r.spent in login && r.next in login && login[r.next] == login[r.spent]
    && r.readAt < r.expiresAt && r.readAt <= r.at <= now
  }

  ghost predicate Redemptions(s: State) {
    && (forall i :: 0 <= i < |s.redeemed| ==> RedemptionOk(s.sessions, s.login, s.now, s.redeemed[i]))
    && (forall i, j :: 0 <= i < j < |s.redeemed| ==> s.redeemed[i].hash != s.redeemed[j].hash)
  }

  predicate Usable(sessions: map<Id, Session>, k: Id) {
    k in sessions && sessions[k].revokedAt.None?
  }

  ghost predicate OneUsableEach(sessions: map<Id, Session>, login: map<Id, Id>) {
    forall a, b :: Usable(sessions, a) && Usable(sessions, b) && a in login && b in login && login[a] == login[b] ==> a == b
  }

  ghost predicate Keys(sessions: map<Id, Session>, login: map<Id, Id>, used: set<Id>) {
    && login.Keys == sessions.Keys && UniqueHashes(sessions)
    && forall k :: k in sessions ==> k in used && sessions[k].tokenHash in used && login[k] in used
  }

  ghost predicate Inv(s: State) {
    Keys(s.sessions, s.login, s.used) && OneUsableEach(s.sessions, s.login) && Requests(s) && Redemptions(s)
  }

  lemma IssueKeepsSessions(c: Config, s: State, id: Id, hash: Id, user: Id)
    requires Keys(s.sessions, s.login, s.used) && OneUsableEach(s.sessions, s.login) && New(s, id, hash)
    ensures var n := s.(sessions := s.sessions[id := Fresh(user, hash, s.now, c.ttlDays)], used := s.used + {id, hash}, login := s.login[id := id]);
      && Keys(n.sessions, n.login, n.used) && OneUsableEach(n.sessions, n.login)
      && id !in s.sessions && id !in s.login
  {
    assert id !in s.sessions.Keys && id !in s.login.Keys;
    hide OneUsableEach, Fresh;
    AddedKeepsKeys(s.sessions, s.login, s.used, id, hash, Fresh(user, hash, s.now, c.ttlDays), id);
    AddedKeepsUsable(s.sessions, s.login, id, Fresh(user, hash, s.now, c.ttlDays), id);
  }

  lemma AddedKeepsHashes(sessions: map<Id, Session>, id: Id, session: Session)
    requires UniqueHashes(sessions) && forall k :: k in sessions ==> sessions[k].tokenHash != session.tokenHash
    ensures UniqueHashes(sessions[id := session])
  {
  }

  /** A new session under a new id and hash, of the login that descends from `root`. */
  lemma AddedKeepsKeys(sessions: map<Id, Session>, login: map<Id, Id>, used: set<Id>, id: Id, hash: Id, session: Session, root: Id)
    requires Keys(sessions, login, used) && id !in used && hash !in used
    requires session.tokenHash == hash && (root in used || root == id)
    ensures Keys(sessions[id := session], login[id := root], used + {id, hash})
  {
    AddedKeepsHashes(sessions, id, session);
    assert login[id := root].Keys == sessions[id := session].Keys;
    hide UniqueHashes;
  }

  lemma AddedKeepsUsable(sessions: map<Id, Session>, login: map<Id, Id>, id: Id, session: Session, root: Id)
    requires OneUsableEach(sessions, login) && login.Keys == sessions.Keys && id !in sessions
    requires forall a :: Usable(sessions, a) && a in login ==> login[a] != root
    ensures OneUsableEach(sessions[id := session], login[id := root])
  {
    forall a | Usable(sessions[id := session], a) && a != id ensures Usable(sessions, a) && a in login {
      assert a in sessions.Keys;
    }
  }

  lemma RevokedKeepsKeys(sessions: map<Id, Session>, login: map<Id, Id>, used: set<Id>, k: Id, at: Time)
    requires Keys(sessions, login, used) && k in sessions
    ensures Keys(Revoked(sessions, k, at), login, used)
  {
    assert Revoked(sessions, k, at).Keys == sessions.Keys;
  }

  /** Afterwards, no session of the login is usable. */
  lemma RevokedKeepsUsable(sessions: map<Id, Session>, login: map<Id, Id>, k: Id, at: Time)
    requires OneUsableEach(sessions, login) && k in sessions && k in login && sessions[k].revokedAt.None?
    ensures OneUsableEach(Revoked(sessions, k, at), login)
    ensures forall a :: Usable(Revoked(sessions, k, at), a) && a in login ==> login[a] != login[k]
  {
    forall a | Usable(Revoked(sessions, k, at), a) ensures Usable(sessions, a) && a != k {}
    assert Usable(sessions, k);
  }

  lemma GrownKeeps(s: State, n: State)
    requires Requests(s) && Redemptions(s) && s.now <= n.now
    requires forall k :: k in s.sessions ==> k in n.sessions && n.sessions[k] == s.sessions[k]
    requires forall k :: k in s.login ==> k in n.login && n.login[k] == s.login[k]
    requires forall x :: x in n.requests ==> x in s.requests && n.requests[x] == s.requests[x]
    requires n.redeemed == s.redeemed
    ensures Requests(n) && Redemptions(n)
  {
    forall x | x in n.requests ensures RequestOk(n.sessions, n.now, n.requests[x]) {
      assert RequestOk(s.sessions, s.now, s.requests[x]);
      if s.requests[x].k.Some? {
        var k := s.requests[x].k.value;
        assert k in n.sessions && n.sessions[k] == s.sessions[k];
      }
    }
    forall i | 0 <= i < |n.redeemed| ensures RedemptionOk(n.sessions, n.login, n.now, n.redeemed[i]) {
      assert RedemptionOk(s.sessions, s.login, s.now, s.redeemed[i]);
    }
  }

  lemma IssueKeeps(c: Config, s: State, id: Id, hash: Id, user: Id)
    requires Inv(s) && Enabled(s, Issue(id, hash, user))
    ensures Inv(Apply(c, s, Issue(id, hash, user)))
  {
    IssueKeepsSessions(c, s, id, hash, user);
    hide Keys, OneUsableEach, Requests, Redemptions, Fresh;
    var n := s.(sessions := s.sessions[id := Fresh(user, hash, s.now, c.ttlDays)], used := s.used + {id, hash}, login := s.login[id := id]);
    GrownKeeps(s, n);
  }

  /** The locked session becomes unusable just as the next one of its login appears. */
  lemma RotationKeepsSessions(s: State, k: Id, id: Id, hash: Id, now: Time, days: nat)
    requires Keys(s.sessions, s.login, s.used) && OneUsableEach(s.sessions, s.login) && New(s, id, hash)
    requires k in s.sessions && s.sessions[k].revokedAt.None?
    ensures k in s.login && id !in s.sessions && id !in s.login
    ensures var sessions, login := Rotated(s.sessions, k, id, hash, now, days), s.login[id := s.login[k]];
      && Keys(sessions, login, s.used + {id, hash}) && OneUsableEach(sessions, login)
  {
    assert id !in s.sessions.Keys && k in s.login.Keys && id !in s.login.Keys;
    assert s.login[k] in s.used;
    hide UniqueHashes, OneUsableEach, Fresh;
    var left := Revoked(s.sessions, k, now);
    assert left.Keys == s.sessions.Keys;
    RevokedKeepsKeys(s.sessions, s.login, s.used, k, now);
    RevokedKeepsUsable(s.sessions, s.login, k, now);
    hide Keys, Revoked;
    AddedKeepsKeys(left, s.login, s.used, id, hash, Fresh(s.sessions[k].userId, hash, now, days), s.login[k]);
    AddedKeepsUsable(left, s.login, id, Fresh(s.sessions[k].userId, hash, now, days), s.login[k]);
  }

  /** Revoking the session that a request holds disturbs no other request. */
  lemma RevokedKeepsRequests(s: State, x: Id, sessions: map<Id, Session>)
    requires Requests(s) && x in s.requests && s.requests[x].k.Some?
    requires forall a :: a in s.sessions && a != s.requests[x].k.value ==> a in sessions && sessions[a] == s.sessions[a]
    ensures Requests(s.(requests := s.requests - {x}, sessions := sessions))
  {
    forall y | y in s.requests && y != x ensures RequestOk(sessions, s.now, s.requests[y]) {
      assert RequestOk(s.sessions, s.now, s.requests[y]);
      if s.requests[y].k.Some? {
        var k := s.requests[y].k.value;
        assert k != s.requests[x].k.value && k in s.sessions;
        assert sessions[k] == s.sessions[k];
      }
    }
  }

  lemma RevokedKeepsRedemptions(s: State, k: Id, sessions: map<Id, Session>, login: map<Id, Id>)
    requires Redemptions(s) && k in s.sessions && k in sessions
    requires sessions[k].revokedAt.Some? && sessions[k].userId == s.sessions[k].userId && sessions[k].tokenHash == s.sessions[k].tokenHash
    requires forall a :: a in s.sessions && a != k ==> a in sessions && sessions[a] == s.sessions[a]
    requires forall a :: a in s.login ==> a in login && login[a] == s.login[a]
    ensures Redemptions(s.(sessions := sessions, login := login))
  {
    forall i | 0 <= i < |s.redeemed| ensures RedemptionOk(sessions, login, s.now, s.redeemed[i]) {
      assert RedemptionOk(s.sessions, s.login, s.now, s.redeemed[i]);
    }
  }

  lemma OneMoreRedemption(s: State, r: Redemption)
    requires Redemptions(s) && RedemptionOk(s.sessions, s.login, s.now, r)
    requires forall i :: 0 <= i < |s.redeemed| ==> s.redeemed[i].hash != r.hash
    ensures Redemptions(s.(redeemed := s.redeemed + [r]))
  {
  }

  /** A token whose session is still usable has not been redeemed. */
  lemma NotYetRedeemed(s: State, k: Id)
    requires Redemptions(s) && UniqueHashes(s.sessions) && k in s.sessions && s.sessions[k].revokedAt.None?
    ensures forall i :: 0 <= i < |s.redeemed| ==> s.redeemed[i].hash != s.sessions[k].tokenHash
  {
    forall i | 0 <= i < |s.redeemed| ensures s.redeemed[i].hash != s.sessions[k].tokenHash {
      assert RedemptionOk(s.sessions, s.login, s.now, s.redeemed[i]);
    }
  }

  lemma CommitRefreshKeeps(c: Config, s: State, x: Id, id: Id, hash: Id)
    requires Inv(s) && Enabled(s, CommitRefresh(x, id, hash))
    ensures Inv(AfterRefresh(c, s, x, id, hash))
  {
    var request := s.requests[x];
    var k := request.k.value;
    assert RequestOk(s.sessions, s.now, request);
    RotationKeepsSessions(s, k, id, hash, request.readAt, c.ttlDays);
    NotYetRedeemed(s, k);
    var sessions, login := Rotated(s.sessions, k, id, hash, request.readAt, c.ttlDays), s.login[id := s.login[k]];
    hide Requests, OneUsableEach, Keys, Redemptions;
    RevokedKeepsRequests(s, x, sessions);
    RevokedKeepsRedemptions(s, k, sessions, login);
    var m := s.(sessions := sessions, login := login);
    OneMoreRedemption(m, Redemption(request.hash, k, id, request.readAt, s.sessions[k].expiresAt, s.now));
    FrameRest(s.(requests := s.requests - {x}, sessions := sessions),
              m.(redeemed := s.redeemed + [Redemption(request.hash, k, id, request.readAt, s.sessions[k].expiresAt, s.now)]),
              AfterRefresh(c, s, x, id, hash));
  }

  /** Requests and redemptions read different parts of the state. */
  lemma FrameRest(a: State, b: State, n: State)
    requires Requests(a) && n.requests == a.requests && n.sessions == a.sessions && n.now == a.now
    requires Redemptions(b) && n.redeemed == b.redeemed && n.sessions == b.sessions && n.login == b.login && n.now == b.now
    ensures Requests(n) && Redemptions(n)
  {
  }

  lemma CommitRevokeKeeps(c: Config, s: State, x: Id)
    requires Inv(s) && Enabled(s, CommitRevoke(x))
    ensures Inv(Apply(c, s, CommitRevoke(x)))
  {
    var k := s.requests[x].k.value;
    assert RequestOk(s.sessions, s.now, s.requests[x]);
    var sessions := Revoked(s.sessions, k, s.now);
    assert k in s.login.Keys;
    hide Requests, OneUsableEach, Keys, Redemptions;
    RevokedKeepsKeys(s.sessions, s.login, s.used, k, s.now);
    RevokedKeepsUsable(s.sessions, s.login, k, s.now);
    RevokedKeepsRequests(s, x, sessions);
    RevokedKeepsRedemptions(s, k, sessions, s.login);
    FrameRest(s.(requests := s.requests - {x}, sessions := sessions), s.(sessions := sessions), Apply(c, s, CommitRevoke(x)));
  }

  lemma LockKeepsRequests(s: State, x: Id, found: Option<Id>)
    requires Requests(s) && Enabled(s, Lock(x, found))
    ensures Requests(AfterLock(s, x, found))
  {
    var n := AfterLock(s, x, found);
    forall y | y in n.requests ensures RequestOk(n.sessions, n.now, n.requests[y]) { assert RequestOk(s.sessions, s.now, s.requests[y]); }
  }

  lemma BeginKeepsRequests(s: State, x: Id, r: Request)
    requires Requests(s) && r.k.None? && (r.Refreshing? ==> r.readAt == s.now)
    ensures Requests(s.(requests := s.requests[x := r]))
  {
    var n := s.(requests := s.requests[x := r]);
    forall y | y in n.requests ensures RequestOk(n.sessions, n.now, n.requests[y]) { if y != x { assert RequestOk(s.sessions, s.now, s.requests[y]); } }
  }

  /** Steps that touch no session. */
  lemma RequestStepKeeps(c: Config, s: State, l: Label)
    requires Inv(s) && Enabled(s, l) && !l.Issue? && !l.CommitRefresh? && !l.CommitRevoke?
    ensures Inv(Apply(c, s, l))
  {
    hide Requests, OneUsableEach, Keys, Redemptions;
    match l
    case Tick(to) => GrownKeeps(s, s.(now := to));
    case BeginRefresh(x, hash) =>
      BeginKeepsRequests(s, x, Refreshing(hash, s.now, None));
      FrameRest(Apply(c, s, l), s, Apply(c, s, l));
    case BeginRevoke(x, hash) =>
      BeginKeepsRequests(s, x, Revoking(hash, None));
      FrameRest(Apply(c, s, l), s, Apply(c, s, l));
    case Lock(x, found) =>
      LockKeepsRequests(s, x, found);
      FrameRest(Apply(c, s, l), s, Apply(c, s, l));
    case Abort(x) => GrownKeeps(s, Apply(c, s, l));
  }

  lemma StepKeeps(c: Config, s: State, l: Label)
    requires Inv(s) && Enabled(s, l)
    ensures Inv(Apply(c, s, l))
  {
    hide Inv;
    match l
    case Issue(id, hash, user) => IssueKeeps(c, s, id, hash, user);
    case CommitRefresh(x, id, hash) => CommitRefreshKeeps(c, s, x, id, hash);
    case CommitRevoke(x) => CommitRevokeKeeps(c, s, x);
    case _ => RequestStepKeeps(c, s, l);
  }

  lemma {:induction false} RunHolds(c: Config, run: seq<State>, k: nat)
    requires Run(c, run) && k < |run|
    ensures Inv(run[k])
  {
    if k > 0 {
      RunHolds(c, run, k - 1);
      assert Step(c, run[k - 1], run[k - 1 + 1]);
      var l :| Enabled(run[k - 1], l) && run[k] == Apply(c, run[k - 1], l);
      StepKeeps(c, run[k - 1], l);
    }
  }

  /**
    No token is redeemed twice, each redemption carries the user and the login on, and the
    token had not expired when its request read the clock: it is late by less than the request waited.
   */
  lemma TokensAreRedeemedOnce(c: Config, run: seq<State>, k: nat, i: nat)
    requires Run(c, run) && k < |run| && i < |run[k].redeemed|
    ensures var s := run[k]; var r := s.redeemed[i];
      && (forall j :: 0 <= j < |s.redeemed| && s.redeemed[j].hash == r.hash ==> i == j)
      && r.spent in s.sessions && r.next in s.sessions && s.sessions[r.spent].revokedAt.Some?
      && s.sessions[r.next].userId == s.sessions[r.spent].userId && r.readAt < r.expiresAt
      && (r.at >= r.expiresAt ==> r.at - r.expiresAt < r.at - r.readAt)
  {
    RunHolds(c, run, k);
    assert RedemptionOk(run[k].sessions, run[k].login, run[k].now, run[k].redeemed[i]);
  }

  /** A login has one usable session at most, in every reachable state. */
  lemma OneUsableSessionPerLogin(c: Config, run: seq<State>, k: nat, a: Id, b: Id)
    requires Run(c, run) && k < |run| && a in run[k].sessions && b in run[k].sessions
    requires run[k].sessions[a].revokedAt.None? && run[k].sessions[b].revokedAt.None?
    ensures a in run[k].login && b in run[k].login
    ensures run[k].login[a] == run[k].login[b] ==> a == b
  {
    RunHolds(c, run, k);
    assert a in run[k].login.Keys && b in run[k].login.Keys;
    assert Usable(run[k].sessions, a) && Usable(run[k].sessions, b);
  }

  // ----- which requests redeem their token

  /** One that finds, under the lock, an unrevoked session that had not expired when it read the clock. */
  lemma RefreshGoesOnIff(c: Config, run: seq<State>, k: nat, x: Id, found: Option<Id>)
    requires Run(c, run) && k < |run| && Enabled(run[k], Lock(x, found)) && run[k].requests[x].Refreshing?
    ensures var s := run[k]; var r := s.requests[x];
      x in Apply(c, s, Lock(x, found)).requests <==>
        exists j :: j in s.sessions && s.sessions[j].tokenHash == r.hash && s.sessions[j].revokedAt.None? && r.readAt < s.sessions[j].expiresAt
  {
    RunHolds(c, run, k);
  }

  /** And no clock stops it: whenever it commits, it redeems the session that it locked. */
  lemma CommitRedeems(c: Config, run: seq<State>, k: nat, x: Id, id: Id, hash: Id)
    requires Run(c, run) && k < |run| && Enabled(run[k], CommitRefresh(x, id, hash))
    ensures var s := run[k]; var n := Apply(c, s, CommitRefresh(x, id, hash)); var r := s.requests[x];
      && r.k.value in s.sessions && s.sessions[r.k.value].tokenHash == r.hash
      && n.redeemed == s.redeemed + [Redemption(r.hash, r.k.value, id, r.readAt, s.sessions[r.k.value].expiresAt, s.now)]
      && Succeeds(s.sessions, n.sessions, r.k.value, id, hash, r.readAt, c.ttlDays)
      && id in n.sessions && Redeemable(n.sessions[id], r.readAt)
  {
    RunHolds(c, run, k);
    assert id !in run[k].sessions.Keys;
    RotatedSucceeds(run[k].sessions, run[k].requests[x].k.value, id, hash, run[k].requests[x].readAt, c.ttlDays);
    hide Run, Rotated, Succeeds;
    assert RequestOk(run[k].sessions, run[k].now, run[k].requests[x]);
    assert run[k].requests[x].k.value in run[k].login.Keys;
  }

  /** A logout revokes the session it has locked at the instant it commits, and no other. */
  lemma LogoutRevokes(c: Config, run: seq<State>, k: nat, x: Id)
    requires Run(c, run) && k < |run| && Enabled(run[k], CommitRevoke(x))
    ensures var s := run[k]; var j := s.requests[x].k.value; var n := Apply(c, s, CommitRevoke(x));
      && j in s.sessions && s.sessions[j].tokenHash == s.requests[x].hash && s.sessions[j].revokedAt.None?
      && n.sessions == s.sessions[j := s.sessions[j].(revokedAt := Some(s.now))]
  {
    RunHolds(c, run, k);
    hide Run;
    assert RequestOk(run[k].sessions, run[k].now, run[k].requests[x]);
  }

  // ----- a token can be redeemed after it expired

  /** A session of one day; request 6 holds its row while request 5 reads its clock and waits. */
  function LateState(n: nat): State {
    var first, revoked := Fresh(7, 1, 0.0, 1), Fresh(7, 1, 0.0, 1).(revokedAt := Some(86399.0));
    var holder, waiting := Refreshing(1, 86390.0, Some(0)), Refreshing(1, 86399.0, None);
    match n
    case 0 => State(0.0, map[], map[], {}, map[], [])
    case 1 => State(0.0, map[0 := first], map[], {0, 1}, map[0 := 0], [])
    case 2 => State(86390.0, map[0 := first], map[], {0, 1}, map[0 := 0], [])
    case 3 => State(86390.0, map[0 := first], map[6 := holder.(k := None)], {0, 1}, map[0 := 0], [])
    case 4 => State(86390.0, map[0 := first], map[6 := holder], {0, 1}, map[0 := 0], [])
    case 5 => State(86399.0, map[0 := first], map[6 := holder], {0, 1}, map[0 := 0], [])
    case 6 => State(86399.0, map[0 := first], map[6 := holder, 5 := waiting], {0, 1}, map[0 := 0], [])
    case 7 => State(86430.0, map[0 := first], map[6 := holder, 5 := waiting], {0, 1}, map[0 := 0], [])
    case 8 => State(86430.0, map[0 := first], map[5 := waiting], {0, 1}, map[0 := 0], [])
    case 9 => State(86430.0, map[0 := first], map[5 := waiting.(k := Some(0))], {0, 1}, map[0 := 0], [])
    case _ => State(86430.0, map[0 := revoked, 2 := Fresh(7, 3, 86399.0, 1)], map[], {0, 1, 2, 3}, map[0 := 0, 2 := 0],
                    [Redemption(1, 0, 2, 86399.0, 86400.0, 86430.0)])
  }

  function LateLabel(n: nat): Label {
    match n
    case 0 => Issue(0, 1, 7)
    case 1 => Tick(86390.0)
    case 2 => BeginRefresh(6, 1)
    case 3 => Lock(6, Some(0))
    case 4 => Tick(86399.0)
    case 5 => BeginRefresh(5, 1)
    case 6 => Tick(86430.0)
    case 7 => Abort(6)
    case 8 => Lock(5, Some(0))
    case _ => CommitRefresh(5, 2, 3)
  }

  /** The n-th label leads from the n-th state to the next. */
  ghost predicate LateLeads(n: nat) {
    Enabled(LateState(n), LateLabel(n)) && Apply(Config(1), LateState(n), LateLabel(n)) == LateState(n + 1)
  }

  lemma LateStart(n: nat)
    requires n < 5
    ensures LateLeads(n)
  {
  }

  lemma LateEnd(n: nat)
    requires 5 <= n < 10
    ensures LateLeads(n)
  {
  }

  lemma LateStep(n: nat)
    requires n < 10
    ensures LateLeads(n)
  {
    hide LateLeads;
    if n < 5 { LateStart(n); } else { LateEnd(n); }
  }

  lemma LateWaits()
    ensures Locked(LateState(6), 0) && !Enabled(LateState(6), Lock(5, Some(0)))
    ensures Locked(LateState(7), 0) && !Enabled(LateState(7), Lock(5, Some(0)))
  {
    assert LateState(6).requests[6].k == Some(0) && LateState(7).requests[6].k == Some(0);
  }

  /**
    A request that reads its clock just before the expiry, and then waits past it while another
    request holds the session's row, still gets a new token.
   */
  lemma RedemptionCanBeLate() returns (run: seq<State>)
    ensures Run(Config(1), run) && |run| == 11 && |run[10].redeemed| == 1
    ensures 5 in run[6].requests && !Enabled(run[6], Lock(5, Some(0))) && !Enabled(run[7], Lock(5, Some(0)))
    ensures run[6].now < run[10].redeemed[0].expiresAt < run[7].now == run[10].redeemed[0].at
  {
    run := seq(11, (n: nat) => LateState(n));
    LateWaits();
    forall i | 0 <= i < |run| - 1 ensures Step(Config(1), run[i], run[i + 1]) {
      LateStep(i);
    }
  }
}
