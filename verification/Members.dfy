/**
  Organization members: who may change whom, the guard that keeps the last owner, and the
  registration that claims the default organization, over the in-memory repositories.
 */
module Members {
  import opened Prelude
  import opened Identifiers
  import opened Selection

  datatype Role = Owner | Admin | Member | Viewer

  datatype Membership = Membership(organizationId: Id, userId: Id, role: Role, createdAt: Time)

  datatype Organization = Organization(name: string, createdAt: Time)

  const DEFAULT_ORGANIZATION: Id := 0

  datatype Error = NotFound | Permission | LastOwner | UserNotFound | AlreadyMember | EmailTaken

  datatype Outcome = Done(membership: Id) | Failed(error: Error)

  /** Owners assign and manage every role, admins only members and viewers, others none. */
  predicate MayHandle(actor: Role, role: Role) {
    actor.Owner? || (actor.Admin? && (role.Member? || role.Viewer?))
  }

  predicate IsMemberOf(m: Membership, user: Id, organization: Id) {
    m.userId == user && m.organizationId == organization
  }

  /** The answer of `get_by_user_and_organization`. */
  ghost predicate Found(members: map<Id, Membership>, user: Id, organization: Id, answer: Option<Id>) {
    if answer.Some? then answer.value in members && IsMemberOf(members[answer.value], user, organization)
    else forall k :: k in members ==> !IsMemberOf(members[k], user, organization)
  }

  // ----- users

  predicate HasEmail(users: map<Id, string>, email: string) {
    exists u :: u in users && users[u] == email
  }

  /** The answer of `get_by_email`. */
  ghost predicate FoundUser(users: map<Id, string>, email: string, answer: Option<Id>) {
    if answer.Some? then answer.value in users && users[answer.value] == email else !HasEmail(users, email)
  }

  /** One account per email; as emails are stored in lower case, whatever case they were typed in. */
  ghost predicate OneAccountEach(users: map<Id, string>) {
    forall u, v :: u in users && v in users && users[u] == users[v] ==> u == v
  }

  // ----- owners

  function OwnersOf(members: map<Id, Membership>, organization: Id): set<Id> {
    set k | k in members && members[k].organizationId == organization && members[k].role.Owner?
  }

  function MembersOf(members: map<Id, Membership>, organization: Id): set<Id> {
    set k | k in members && members[k].organizationId == organization
  }

  /** A change of role, or None for a removal. */
  type Change = Option<Role>

  predicate LosesOwner(m: Membership, change: Change) {
    m.role.Owner? && change != Some(Owner)
  }

  /** The checks of `update_role` and `delete`, in their order: None means go ahead. */
  function Refusal(members: map<Id, Membership>, organization: Id, actor: Role, found: Option<Id>, change: Change): Option<Error>
    requires found.Some? ==> found.value in members
  {
    if found.None? then Some(NotFound)
    else if !MayHandle(actor, members[found.value].role) then Some(Permission)
    else if change.Some? && !MayHandle(actor, change.value) then Some(Permission)
    else if LosesOwner(members[found.value], change) && |OwnersOf(members, organization)| <= 1 then Some(LastOwner)
    else None
  }

  function Changed(members: map<Id, Membership>, k: Id, change: Change): map<Id, Membership>
    requires k in members
  {
    if change.Some? then members[k := members[k].(role := change.value)] else members - {k}
  }

  /** Which roles a member assigns and manages, role by role. */
  function RolesOf(actor: Role): set<Role> {
    match actor
    case Owner => {Owner, Admin, Member, Viewer}
    case Admin => {Member, Viewer}
    case _ => {}
  }

  /** Another owner of the same organization. */
  ghost predicate OtherOwner(members: map<Id, Membership>, k: Id)
    requires k in members
  {
    exists j :: j in members && j != k && members[j].organizationId == members[k].organizationId && members[j].role == Owner
  }

  lemma RolesAre(actor: Role, role: Role)
    ensures role in RolesOf(actor) <==> MayHandle(actor, role)
  {
    assert role == Owner || role == Admin || role == Member || role == Viewer;
  }

  /** When each refusal is given, and when none is: the missing member first, then the two roles, then the last owner. */
  lemma RefusalIs(members: map<Id, Membership>, organization: Id, actor: Role, found: Option<Id>, change: Change)
    requires found.Some? ==> found.value in members && members[found.value].organizationId == organization
    ensures var refusal := Refusal(members, organization, actor, found, change);
      && (refusal == Some(NotFound) <==> found.None?)
      && (found.Some? ==>
            var role := members[found.value].role;
            var permitted := role in RolesOf(actor) && (change.Some? ==> change.value in RolesOf(actor));
            var last := role == Owner && change != Some(Owner) && !OtherOwner(members, found.value);
            && (refusal == Some(Permission) <==> !permitted)
            && (refusal == Some(LastOwner) <==> permitted && last)
            && (refusal == None <==> permitted && !last))
  {
    if found.Some? {
      RolesAre(actor, members[found.value].role);
      if change.Some? { RolesAre(actor, change.value); }
    }
    hide RolesOf, MayHandle;
    if found.Some? && members[found.value].role.Owner? {
      var k, owners := found.value, OwnersOf(members, organization);
      RemoveOne(owners, k);
      forall j | j in owners - {k} ensures OtherOwner(members, k) {}
      if OtherOwner(members, k) {
        var j :| j in members && j != k && members[j].organizationId == members[k].organizationId && members[j].role == Owner;
        assert j in owners - {k};
      } else {
        assert owners - {k} == {};
      }
    }
  }

  /** A change gives its member the new role, or takes it away, and leaves the others. */
  lemma ChangedIs(members: map<Id, Membership>, k: Id, change: Change, j: Id)
    requires k in members && j in members
    ensures var n := Changed(members, k, change);
      && n.Keys <= members.Keys && (j !in n <==> j == k && change.None?)
      && (j != k ==> n[j] == members[j])
      && (j == k && change.Some? ==>
            n[k] == Membership(members[k].organizationId, members[k].userId, change.value, members[k].createdAt))
  {
    assert Changed(members, k, change).Keys <= members.Keys;
  }

  /** A change that is not refused leaves the organization the owner it has, or another one. */
  lemma AllowedChangeKeepsOwner(members: map<Id, Membership>, organization: Id, actor: Role, k: Id, change: Change)
    requires k in members && members[k].organizationId == organization
    requires Refusal(members, organization, actor, Some(k), change).None?
    ensures OwnersOf(members, organization) != {} ==> OwnersOf(Changed(members, k, change), organization) != {}
    ensures LosesOwner(members[k], change) ==> OwnersOf(members, organization) - {k} != {}
    ensures forall o :: o != organization ==> OwnersOf(Changed(members, k, change), o) == OwnersOf(members, o)
  {
    OwnersAfter(members, organization, k, change);
    if LosesOwner(members[k], change) {
      RemoveOne(OwnersOf(members, organization), k);
      assert OwnersOf(members, organization) - {k} != {};
    }
    hide OwnersOf, Changed;
  }

  lemma OwnersAfter(members: map<Id, Membership>, organization: Id, k: Id, change: Change)
    requires k in members && members[k].organizationId == organization
    ensures forall o :: o != organization ==> OwnersOf(Changed(members, k, change), o) == OwnersOf(members, o)
    ensures LosesOwner(members[k], change) ==>
      k in OwnersOf(members, organization) && OwnersOf(Changed(members, k, change), organization) == OwnersOf(members, organization) - {k}
    ensures !LosesOwner(members[k], change) ==> OwnersOf(members, organization) <= OwnersOf(Changed(members, k, change), organization)
  {
  }

  /** The guard is exact: a refused demotion or removal of an owner would leave none. */
  lemma RefusedLastOwnerIsTheLast(members: map<Id, Membership>, organization: Id, actor: Role, k: Id, change: Change)
    requires k in members && members[k].organizationId == organization
    requires Refusal(members, organization, actor, Some(k), change) == Some(LastOwner)
    ensures OwnersOf(Changed(members, k, change), organization) == {}
  {
    var owners := OwnersOf(members, organization);
    assert k in owners;
    RemoveOne(owners, k);
    assert owners - {k} == {};
    assert forall j :: j in owners ==> j in owners - {k} || j == k;
  }

  class Repositories {
    var organizations: map<Id, Organization>
    var members: map<Id, Membership>
    // the email of each user
    var users: map<Id, string>

    constructor ()
      ensures organizations == map[] && members == map[] && users == map[]
    {
      organizations, members, users := map[], map[], map[];
    }

    method GetByUserAndOrganization(user: Id, organization: Id) returns (found: Option<Id>)
      ensures Found(members, user, organization, found)
      ensures found.Some? ==>
        found.value in members && members[found.value].userId == user && members[found.value].organizationId == organization
      ensures found.None? ==> forall k :: k in members ==> members[k].userId != user || members[k].organizationId != organization
    {
      var order := Listed(members.Keys);
      var k := 0;
      while k < |order|
        invariant 0 <= k <= |order| && forall j :: 0 <= j < |order| ==> order[j] in members
        invariant forall j :: 0 <= j < k ==> !IsMemberOf(members[order[j]], user, organization)
      {
        if IsMemberOf(members[order[k]], user, organization) { return Some(order[k]); }
        k := k + 1;
      }
      assert forall j :: j in members ==> j in Elements(order);
      found := None;
    }

    method GetByEmail(email: string) returns (found: Option<Id>)
      ensures FoundUser(users, email, found)
    {
      var order := Listed(users.Keys);
      var k := 0;
      while k < |order|
        invariant 0 <= k <= |order| && forall j :: 0 <= j < |order| ==> order[j] in users
        invariant forall j :: 0 <= j < k ==> users[order[j]] != email
      {
        if users[order[k]] == email { return Some(order[k]); }
        k := k + 1;
      }
      assert forall j :: j in users ==> j in Elements(order);
      found := None;
    }

    method CountOwners(organization: Id) returns (count: nat)
      ensures count == |OwnersOf(members, organization)|
    {
      var order := Listed(MembersOf(members, organization));
      ghost var seen: set<Id> := {};
      count := 0;
      var k := 0;
      while k < |order|
        invariant 0 <= k <= |order|
        invariant seen == set j | 0 <= j < k && order[j] in members && members[order[j]].role.Owner? :: order[j]
        invariant count == |seen|
      {
        assert order[k] in Elements(order);
        if members[order[k]].role.Owner? {
          assert order[k] !in seen;
          seen := seen + {order[k]};
          count := count + 1;
        }
        k := k + 1;
      }
      forall k | k in OwnersOf(members, organization) ensures k in seen {
        assert k in MembersOf(members, organization) && k in Elements(order);
        var j :| 0 <= j < |order| && order[j] == k;
      }
      forall j | 0 <= j < |order| ensures order[j] in MembersOf(members, organization) { assert order[j] in Elements(order); }
      assert seen == OwnersOf(members, organization);
    }
  }

  class MemberService {
    const repositories: Repositories
    const organizationId: Id
    const actorRole: Role
    // `str.lower`
    const lower: string -> string

    constructor (repositories: Repositories, organizationId: Id, actorRole: Role, lower: string -> string)
      ensures this.repositories == repositories && this.organizationId == organizationId && this.actorRole == actorRole
      ensures this.lower == lower
    {
      this.repositories, this.organizationId, this.actorRole, this.lower := repositories, organizationId, actorRole, lower;
    }

    /** `add` needs no lock: it only adds. */
    method Add(email: string, role: Role, now: Time, ids: IdSource) returns (r: Outcome, ghost user: Option<Id>)
      requires ids.Valid() && repositories.members.Keys <= ids.used
      modifies repositories`members, ids
      ensures ids.Valid() && repositories.members.Keys <= ids.used
      ensures r == Failed(Permission) <==> !MayHandle(actorRole, role)
      ensures r != Failed(Permission) ==> FoundUser(repositories.users, lower(email), user)
      ensures r == Failed(UserNotFound) <==> r != Failed(Permission) && user.None?
      ensures r == Failed(AlreadyMember) ==> !Found(old(repositories.members), user.value, organizationId, None)
      ensures r.Done? ==>
        && user.Some? && r.membership !in old(repositories.members)
        && Found(old(repositories.members), user.value, organizationId, None)
        && repositories.members == old(repositories.members)[r.membership := Membership(organizationId, user.value, role, now)]
      ensures r.Failed? ==> repositories.members == old(repositories.members)
    {
      user := None;
      if !MayHandle(actorRole, role) { return Failed(Permission), user; }
      var account := repositories.GetByEmail(lower(email));
      user := account;
      if account.None? { return Failed(UserNotFound), user; }
      var existing := repositories.GetByUserAndOrganization(account.value, organizationId);
      if existing.Some? {
        var held := existing.value;
        assert held in repositories.members && IsMemberOf(repositories.members[held], account.value, organizationId);
        return Failed(AlreadyMember), user;
      }
      var id := ids.Generate();
      repositories.members := repositories.members[id := Membership(organizationId, account.value, role, now)];
      r := Done(id);
    }

    /**
      Demotion, promotion or removal; the owner count is read only when an owner would go. A new
      role is written before its user is looked up: if the user is missing, the error comes too late.
     */
    method Manage(user: Id, change: Change) returns (r: Outcome, ghost found: Option<Id>)
      modifies repositories`members
      ensures Found(old(repositories.members), user, organizationId, found)
      ensures found.Some? ==>
        && found.value in old(repositories.members) && old(repositories.members)[found.value].userId == user
        && old(repositories.members)[found.value].organizationId == organizationId
      ensures var refusal := Refusal(old(repositories.members), organizationId, actorRole, found, change);
        if refusal.Some? then r == Failed(refusal.value) && repositories.members == old(repositories.members)
        else
          && repositories.members == Changed(old(repositories.members), found.value, change)
          && r == if change.Some? && user !in repositories.users then Failed(UserNotFound) else Done(found.value)
      ensures OwnersOf(old(repositories.members), organizationId) != {} ==> OwnersOf(repositories.members, organizationId) != {}
    {
      var answer := repositories.GetByUserAndOrganization(user, organizationId);
      found := answer;
      if answer.None? { return Failed(NotFound), found; }
      var k := answer.value;
      var membership := repositories.members[k];
      if !MayHandle(actorRole, membership.role) { return Failed(Permission), found; }
      if change.Some? && !MayHandle(actorRole, change.value) { return Failed(Permission), found; }
      if LosesOwner(membership, change) {
        var owners := repositories.CountOwners(organizationId);
        if owners <= 1 { return Failed(LastOwner), found; }
      }
      AllowedChangeKeepsOwner(repositories.members, organizationId, actorRole, k, change);
      repositories.members := if change.Some? then repositories.members[k := membership.(role := change.value)] else repositories.members - {k};
      if change.Some? && user !in repositories.users { return Failed(UserNotFound), found; }
      r := Done(k);
    }
  }

  class AuthService {
    const repositories: Repositories
    // `str.lower`
    const lower: string -> string

    constructor (repositories: Repositories, lower: string -> string)
      ensures this.repositories == repositories && this.lower == lower
    {
      this.repositories, this.lower := repositories, lower;
    }

    /** A registration takes over the default organization while nobody belongs to it. */
    method Register(email: string, organizationName: string, now: Time, ids: IdSource) returns (r: Outcome)
      requires ids.Valid() && repositories.members.Keys <= ids.used && repositories.organizations.Keys <= ids.used
      requires repositories.users.Keys <= ids.used && DEFAULT_ORGANIZATION in ids.used
      modifies repositories, ids
      ensures ids.Valid() && repositories.members.Keys <= ids.used && repositories.organizations.Keys <= ids.used
      ensures repositories.users.Keys <= ids.used
      ensures r.Failed? <==> HasEmail(old(repositories.users), lower(email))
      ensures r.Failed? ==>
        && r.error == EmailTaken && repositories.members == old(repositories.members)
        && repositories.organizations == old(repositories.organizations) && repositories.users == old(repositories.users)
      ensures OneAccountEach(old(repositories.users)) ==> OneAccountEach(repositories.users)
      ensures r.Done? ==>
        && r.membership in repositories.members && r.membership !in old(repositories.members)
        && var membership := repositories.members[r.membership];
        && repositories.members == old(repositories.members)[r.membership := membership]
        && membership.userId !in old(repositories.users)
        && repositories.users == old(repositories.users)[membership.userId := lower(email)]
        && membership.role.Owner?
        && (membership.organizationId == DEFAULT_ORGANIZATION <==>
              DEFAULT_ORGANIZATION in old(repositories.organizations) && MembersOf(old(repositories.members), DEFAULT_ORGANIZATION) == {})
        && (membership.organizationId != DEFAULT_ORGANIZATION ==> membership.organizationId !in old(repositories.organizations))
        && membership.organizationId in repositories.organizations
        && repositories.organizations == old(repositories.organizations)[membership.organizationId :=
             repositories.organizations[membership.organizationId]]
        && repositories.organizations[membership.organizationId].name == organizationName
    {
      var existing := repositories.GetByEmail(lower(email));
      if existing.Some? {
        var taken := existing.value;
        assert taken in repositories.users && repositories.users[taken] == lower(email);
        return Failed(EmailTaken);
      }
      var organization: Id;
      if DEFAULT_ORGANIZATION in repositories.organizations && MembersOf(repositories.members, DEFAULT_ORGANIZATION) == {} {
        organization := DEFAULT_ORGANIZATION;
        repositories.organizations := repositories.organizations[organization := repositories.organizations[organization].(name := organizationName)];
      } else {
        organization := ids.Generate();
        repositories.organizations := repositories.organizations[organization := Organization(organizationName, now)];
      }
      var user := ids.Generate();
      repositories.users := repositories.users[user := lower(email)];
      var id := ids.Generate();
      repositories.members := repositories.members[id := Membership(organization, user, Owner, now)];
      r := Done(id);
    }
  }
}

/**
  Members under concurrency. Changes and removals lock their organization first; `add` locks
  nothing; a registration locks the default organization. Each transaction decides on what
  it reads under its lock and commits later.
 */
module MembersProtocol {
  import opened Prelude
  import opened Members

  datatype Txn =
    | Managing(organization: Id, user: Id, change: Change, actor: Role, decided: Option<Id>)
    // what a registration creates; `claims` says whether it found the default organization free
    | Registering(user: Id, claims: Option<bool>)

  datatype State = State(
    organizations: set<Id>,
    members: map<Id, Membership>,
    txns: map<Id, Txn>,
    ids: set<Id>,
    // organizations that have had an owner, and the registrations that claimed the default one
    owned: set<Id>,
    claimants: seq<Id>)

  datatype Label =
    | Add(organization: Id, user: Id, role: Role, id: Id, at: Time)
    | Lock(x: Id, organization: Id, user: Id, change: Change, actor: Role)
    | Decide(x: Id, found: Option<Id>)
    | CommitChange(x: Id)
    | Register(x: Id, user: Id)
    | Read(x: Id)
    | CommitRegistration(x: Id, id: Id, organization: Id, at: Time)
    | Abort(x: Id)

  ghost predicate Init(s: State) {
    s.members == map[] && s.txns == map[] && s.owned == {} && s.claimants == [] && s.ids == s.organizations
  }

  /** The organization rows a transaction has locked. */
  function Held(s: State, x: Txn): set<Id> {
    match x
    case Managing(organization, _, _, _, _) => {organization}
    case Registering(_, _) => if DEFAULT_ORGANIZATION in s.organizations then {DEFAULT_ORGANIZATION} else {}
  }

  predicate Locked(s: State, organization: Id) {
    exists x :: x in s.txns && organization in Held(s, s.txns[x])
  }

  ghost predicate Enabled(s: State, l: Label) {
    match l
    case Add(organization, user, role, id, _) => organization in s.organizations && id !in s.ids
    case Lock(x, organization, _, _, _) => x !in s.txns && organization in s.organizations && !Locked(s, organization)
    case Decide(x, found) =>
      && x in s.txns && s.txns[x].Managing? && s.txns[x].decided.None?
      && Found(s.members, s.txns[x].user, s.txns[x].organization, found)
    case CommitChange(x) => x in s.txns && s.txns[x].Managing? && s.txns[x].decided.Some?
    case Register(x, user) => x !in s.txns && (DEFAULT_ORGANIZATION in s.organizations ==> !Locked(s, DEFAULT_ORGANIZATION))
    case Read(x) => x in s.txns && s.txns[x].Registering? && s.txns[x].claims.None?
    case CommitRegistration(x, id, organization, _) =>
      && x in s.txns && s.txns[x].Registering? && s.txns[x].claims.Some? && id !in s.ids
      && if s.txns[x].claims.value then organization == DEFAULT_ORGANIZATION
         else organization !in s.ids && organization != DEFAULT_ORGANIZATION && organization != id
    case Abort(x) => x in s.txns
  }

  function WithOwners(owned: set<Id>, organization: Id, role: Role): set<Id> {
    if role.Owner? then owned + {organization} else owned
  }

  ghost function Apply(s: State, l: Label): State
    requires Enabled(s, l)
  {
    match l
    case Add(organization, user, role, id, at) =>
      s.(members := s.members[id := Membership(organization, user, role, at)], ids := s.ids + {id},
         owned := WithOwners(s.owned, organization, role))
    case Lock(x, organization, user, change, actor) =>
      s.(txns := s.txns[x := Managing(organization, user, change, actor, None)])
    case Decide(x, found) =>
      var txn := s.txns[x];
      if Refusal(s.members, txn.organization, txn.actor, found, txn.change).Some? then s.(txns := s.txns - {x})
      else s.(txns := s.txns[x := txn.(decided := found)])
    case CommitChange(x) =>
      var txn := s.txns[x];
      if txn.decided.value !in s.members then s.(txns := s.txns - {x})
      else s.(members := Changed(s.members, txn.decided.value, txn.change), txns := s.txns - {x},
              owned := if txn.change.Some? then WithOwners(s.owned, txn.organization, txn.change.value) else s.owned)
    case Register(x, user) => s.(txns := s.txns[x := Registering(user, None)])
    case Read(x) =>
      var free := DEFAULT_ORGANIZATION in s.organizations && MembersOf(s.members, DEFAULT_ORGANIZATION) == {};
      s.(txns := s.txns[x := s.txns[x].(claims := Some(free))])
    case CommitRegistration(x, id, organization, at) =>
      var txn := s.txns[x];
      s.(organizations := s.organizations + {organization}, ids := s.ids + {id, organization}, txns := s.txns - {x},
         members := s.members[id := Membership(organization, txn.user, Owner, at)],
         owned := s.owned + {organization},
         claimants := if txn.claims.value then s.claimants + [txn.user] else s.claimants)
    case Abort(x) => s.(txns := s.txns - {x})
  }

  ghost predicate Step(s: State, n: State) {
    exists l :: Enabled(s, l) && n == Apply(s, l)
  }

  ghost predicate Run(run: seq<State>) {
    |run| > 0 && Init(run[0]) && forall i :: 0 <= i < |run| - 1 ==> Step(run[i], run[i + 1])
  }

  // ----- invariant

  ghost predicate TxnOk(s: State, x: Txn) {
    match x
    case Managing(organization, _, change, _, decided) =>
      && organization in s.organizations
      && (decided.Some? ==>
            && decided.value in s.members && s.members[decided.value].organizationId == organization
            && (LosesOwner(s.members[decided.value], change) ==> OwnersOf(s.members, organization) - {decided.value} != {}))
    case Registering(_, claims) => claims == Some(true) ==> DEFAULT_ORGANIZATION in s.organizations && s.claimants == []
  }

  /** Two transactions never hold the same organization. */
  ghost predicate Apart(s: State) {
    forall x, y :: x in s.txns && y in s.txns && x != y ==> Held(s, s.txns[x]) !! Held(s, s.txns[y])
  }

  ghost predicate Owners(s: State) {
    forall o :: o in s.owned ==> OwnersOf(s.members, o) != {}
  }

  ghost predicate Inv(s: State) {
    && Apart(s) && Owners(s)
    && (forall x :: x in s.txns ==> TxnOk(s, s.txns[x]))
    && (s.claimants != [] ==> |s.claimants| == 1 && DEFAULT_ORGANIZATION in s.owned)
    && (forall k :: k in s.members && s.members[k].role.Owner? ==> s.members[k].organizationId in s.owned)
    && s.members.Keys <= s.ids && s.organizations <= s.ids
  }

  lemma MoreOwners(s: State, id: Id, m: Membership, o: Id)
    requires id !in s.members
    ensures OwnersOf(s.members, o) <= OwnersOf(s.members[id := m], o)
    ensures m.role.Owner? ==> id in OwnersOf(s.members[id := m], m.organizationId)
  {
  }

  /** Another owner stays another owner when a membership is added. */
  lemma StillOther(s: State, n: State, x: Txn, id: Id, m: Membership)
    requires TxnOk(s, x) && id !in s.members && n.members == s.members[id := m] && s.organizations <= n.organizations
    requires x.Registering? ==> n.claimants == s.claimants
    ensures TxnOk(n, x)
  {
    if x.Managing? && x.decided.Some? {
      MoreOwners(s, id, m, x.organization);
      assert OwnersOf(s.members, x.organization) - {x.decided.value} <= OwnersOf(n.members, x.organization) - {x.decided.value};
    }
  }

  lemma AddKeeps(s: State, organization: Id, user: Id, role: Role, id: Id, at: Time)
    requires Inv(s) && Enabled(s, Add(organization, user, role, id, at))
    ensures Inv(Apply(s, Add(organization, user, role, id, at)))
  {
    var m := Membership(organization, user, role, at);
    var n := Apply(s, Add(organization, user, role, id, at));
    assert id !in s.members.Keys;
    forall o ensures OwnersOf(s.members, o) <= OwnersOf(n.members, o) { MoreOwners(s, id, m, o); }
    MoreOwners(s, id, m, organization);
    forall x | x in n.txns ensures TxnOk(n, n.txns[x]) { StillOther(s, n, s.txns[x], id, m); }
    assert Owners(n);
  }

  lemma CommitRegistrationKeeps(s: State, x: Id, id: Id, organization: Id, at: Time)
    requires Inv(s) && Enabled(s, CommitRegistration(x, id, organization, at))
    ensures Inv(Apply(s, CommitRegistration(x, id, organization, at)))
  {
    var txn := s.txns[x];
    var m := Membership(organization, txn.user, Owner, at);
    var n := Apply(s, CommitRegistration(x, id, organization, at));
    assert TxnOk(s, txn) && id !in s.members.Keys;
    forall o ensures OwnersOf(s.members, o) <= OwnersOf(n.members, o) { MoreOwners(s, id, m, o); }
    MoreOwners(s, id, m, organization);
    forall y | y in n.txns ensures TxnOk(n, n.txns[y]) {
      assert TxnOk(s, s.txns[y]) && y != x;
      if txn.claims.value {
        // the other transaction does not hold the default organization, so it claims nothing
        assert DEFAULT_ORGANIZATION in Held(s, txn) && Held(s, txn) !! Held(s, s.txns[y]);
        if s.txns[y].Managing? { StillOther(s, n, s.txns[y], id, m); }
      } else {
        StillOther(s, n, s.txns[y], id, m);
      }
    }
    assert Apart(n) by {
      forall y | y in n.txns ensures Held(n, n.txns[y]) <= Held(s, s.txns[y]) + (if organization == DEFAULT_ORGANIZATION then {organization} else {}) {}
    }
    assert Owners(n);
  }

  lemma TakeKeeps(s: State, x: Id, txn: Txn)
    requires Inv(s) && TxnOk(s, txn)
    requires forall y :: y in s.txns && y != x ==> Held(s, txn) !! Held(s, s.txns[y])
    ensures Inv(s.(txns := s.txns[x := txn]))
  {
    var n := s.(txns := s.txns[x := txn]);
    forall y | y in n.txns ensures TxnOk(n, n.txns[y]) { if y != x { assert TxnOk(s, s.txns[y]); } }
    forall y | y in n.txns ensures Held(n, n.txns[y]) == Held(s, n.txns[y]) {}
  }

  lemma AbortKeeps(s: State, x: Id)
    requires Inv(s)
    ensures Inv(s.(txns := s.txns - {x}))
  {
    var n := s.(txns := s.txns - {x});
    forall y | y in n.txns ensures TxnOk(n, n.txns[y]) && Held(n, n.txns[y]) == Held(s, s.txns[y]) { assert TxnOk(s, s.txns[y]); }
  }

  lemma LockKeeps(s: State, x: Id, txn: Txn)
    requires Inv(s) && x !in s.txns && TxnOk(s, txn) && forall o :: o in Held(s, txn) ==> !Locked(s, o)
    ensures Inv(s.(txns := s.txns[x := txn]))
  {
    forall y | y in s.txns ensures Held(s, txn) !! Held(s, s.txns[y]) {
      forall o | o in Held(s, txn) ensures o !in Held(s, s.txns[y]) { assert !Locked(s, o); }
    }
    TakeKeeps(s, x, txn);
  }

  lemma DecideKeeps(s: State, x: Id, found: Option<Id>)
    requires Inv(s) && Enabled(s, Decide(x, found))
    ensures Inv(Apply(s, Decide(x, found)))
  {
    var txn := s.txns[x];
    assert TxnOk(s, txn);
    if Refusal(s.members, txn.organization, txn.actor, found, txn.change).Some? {
      AbortKeeps(s, x);
    } else {
      AllowedChangeKeepsOwner(s.members, txn.organization, txn.actor, found.value, txn.change);
      TakeKeeps(s, x, txn.(decided := found));
    }
  }

  lemma ReadKeeps(s: State, x: Id)
    requires Inv(s) && Enabled(s, Read(x))
    ensures Inv(Apply(s, Read(x)))
  {
    var free := DEFAULT_ORGANIZATION in s.organizations && MembersOf(s.members, DEFAULT_ORGANIZATION) == {};
    assert OwnersOf(s.members, DEFAULT_ORGANIZATION) <= MembersOf(s.members, DEFAULT_ORGANIZATION);
    TakeKeeps(s, x, s.txns[x].(claims := Some(free)));
  }

  lemma ChangedOwners(members: map<Id, Membership>, k: Id, change: Change, o: Id)
    requires k in members
    ensures OwnersOf(Changed(members, k, change), o) >= OwnersOf(members, o) - {k}
    ensures !LosesOwner(members[k], change) ==> OwnersOf(Changed(members, k, change), o) >= OwnersOf(members, o)
    ensures members[k].organizationId != o ==> OwnersOf(Changed(members, k, change), o) == OwnersOf(members, o)
  {
  }

  lemma CommitChangeKeeps(s: State, x: Id)
    requires Inv(s) && Enabled(s, CommitChange(x))
    ensures Inv(Apply(s, CommitChange(x)))
  {
    var txn := s.txns[x];
    var k := txn.decided.value;
    var n := Apply(s, CommitChange(x));
    assert TxnOk(s, txn);
    forall o | o in n.owned ensures OwnersOf(n.members, o) != {} {
      ChangedOwners(s.members, k, txn.change, o);
      if o !in s.owned { assert k in OwnersOf(n.members, o); }
    }
    forall y | y in n.txns ensures TxnOk(n, n.txns[y]) && Held(n, n.txns[y]) == Held(s, s.txns[y]) {
      assert TxnOk(s, s.txns[y]) && txn.organization in Held(s, txn) && Held(s, txn) !! Held(s, s.txns[y]);
      if s.txns[y].Managing? {
        assert s.txns[y].organization in Held(s, s.txns[y]);
        ChangedOwners(s.members, k, txn.change, s.txns[y].organization);
      }
    }
  }

  lemma StepKeeps(s: State, l: Label)
    requires Inv(s) && Enabled(s, l)
    ensures Inv(Apply(s, l))
    ensures s.owned <= Apply(s, l).owned
  {
    hide Inv;
    match l
    case Add(organization, user, role, id, at) => AddKeeps(s, organization, user, role, id, at);
    case Lock(x, organization, user, change, actor) => LockKeeps(s, x, Managing(organization, user, change, actor, None));
    case Decide(x, found) => DecideKeeps(s, x, found);
    case CommitChange(x) => CommitChangeKeeps(s, x);
    case Register(x, user) => LockKeeps(s, x, Registering(user, None));
    case Read(x) => ReadKeeps(s, x);
    case CommitRegistration(x, id, organization, at) => CommitRegistrationKeeps(s, x, id, organization, at);
    case Abort(x) => AbortKeeps(s, x);
  }

  lemma {:induction false} RunHolds(run: seq<State>, k: nat)
    requires Run(run) && k < |run|
    ensures Inv(run[k])
  {
    if k > 0 {
      RunHolds(run, k - 1);
      assert Step(run[k - 1], run[k - 1 + 1]);
      var l :| Enabled(run[k - 1], l) && run[k] == Apply(run[k - 1], l);
      StepKeeps(run[k - 1], l);
    }
  }

  lemma OwnersAreOwned(s: State, o: Id)
    requires Inv(s)
    ensures OwnersOf(s.members, o) == {} || o in s.owned
  {
    assert forall k :: k in OwnersOf(s.members, o) ==> o in s.owned;
  }

  /** An organization that has an owner has one for the rest of the run, whatever is concurrent. */
  lemma {:induction false} OwnedStaysOwned(run: seq<State>, i: nat, j: nat, o: Id)
    requires Run(run) && i <= j < |run| && OwnersOf(run[i].members, o) != {}
    ensures OwnersOf(run[j].members, o) != {}
  {
    RunHolds(run, i);
    OwnersAreOwned(run[i], o);
    OwnedGrows(run, i, j);
    RunHolds(run, j);
  }

  lemma {:induction false} OwnedGrows(run: seq<State>, i: nat, j: nat)
    requires Run(run) && i <= j < |run|
    ensures run[i].owned <= run[j].owned
    decreases j - i
  {
    if i < j {
      OwnedGrows(run, i, j - 1);
      RunHolds(run, j - 1);
      assert Step(run[j - 1], run[j - 1 + 1]);
      var l :| Enabled(run[j - 1], l) && run[j] == Apply(run[j - 1], l);
      StepKeeps(run[j - 1], l);
    }
  }

  /** The default organization is claimed by one registration at most, and has an owner from then on. */
  lemma DefaultIsClaimedOnce(run: seq<State>, k: nat)
    requires Run(run) && k < |run|
    ensures |run[k].claimants| <= 1
    ensures run[k].claimants != [] ==> OwnersOf(run[k].members, DEFAULT_ORGANIZATION) != {}
  {
    RunHolds(run, k);
  }

  // ----- what a transaction leaves

  /** A change is decided on exactly if its member is there and nothing refuses it at that moment. */
  lemma DecidedIff(s: State, x: Id, found: Option<Id>)
    requires Enabled(s, Decide(x, found))
    ensures var n := Apply(s, Decide(x, found)); var txn := s.txns[x];
      && n.members == s.members
      && (x in n.txns <==>
            && found.Some?
            && var role := s.members[found.value].role;
               && role in RolesOf(txn.actor) && (txn.change.Some? ==> txn.change.value in RolesOf(txn.actor))
               && (role == Owner && txn.change != Some(Owner) ==> OtherOwner(s.members, found.value)))
      && (x in n.txns ==> n.txns[x] == txn.(decided := found))
  {
    RefusalIs(s.members, s.txns[x].organization, s.txns[x].actor, found, s.txns[x].change);
    hide Refusal, RolesOf, OtherOwner;
  }

  /** A decided change is what its commit does to the member it found. */
  lemma DecidedChangeIsMade(s: State, x: Id)
    requires Inv(s) && Enabled(s, CommitChange(x))
    ensures var n := Apply(s, CommitChange(x)); var txn := s.txns[x]; var k := txn.decided.value;
      && x !in n.txns && k in s.members
      && (txn.change.None? ==> n.members == s.members - {k})
      && (txn.change.Some? ==> n.members == s.members[k := s.members[k].(role := txn.change.value)])
  {
    assert TxnOk(s, s.txns[x]);
  }

  /** A committed registration adds its user as owner, of the default organization exactly if it had been found without members. */
  lemma RegistrationOwns(s: State, x: Id, id: Id, organization: Id, at: Time)
    requires Enabled(s, CommitRegistration(x, id, organization, at))
    ensures var n := Apply(s, CommitRegistration(x, id, organization, at));
      && n.members == s.members[id := Membership(organization, s.txns[x].user, Owner, at)] && organization in n.organizations
      && (organization == DEFAULT_ORGANIZATION <==> s.txns[x].claims == Some(true))
  {
  }

  /** A registration finds the default organization free exactly if it is there and nobody belongs to it. */
  lemma FreeIsRead(s: State, x: Id)
    requires Enabled(s, Read(x))
    ensures Apply(s, Read(x)).txns[x].claims == Some(true) <==>
      DEFAULT_ORGANIZATION in s.organizations && forall k :: k in s.members ==> s.members[k].organizationId != DEFAULT_ORGANIZATION
  {
    var mine := MembersOf(s.members, DEFAULT_ORGANIZATION);
    if forall k :: k in s.members ==> s.members[k].organizationId != DEFAULT_ORGANIZATION {
      assert mine == {};
    } else {
      var k :| k in s.members && s.members[k].organizationId == DEFAULT_ORGANIZATION;
      assert k in mine;
    }
  }
}
