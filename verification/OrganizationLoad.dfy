/**
  The browser's organization store and the loader that the other stores share: a result is
  applied only while the load that asked for it is the newest and the organization context
  is still the one it was asked for.
 */
module OrganizationLoad {
  import opened Prelude

  // ----- the organization store

  /** `stored` is the id kept in the browser's local storage. */
  datatype Context = Context(organizations: seq<Id>, current: Option<Id>, version: nat, stored: Option<Id>)

  /** The stored organization if it still exists, else the first one. */
  function Preferred(organizations: seq<Id>, stored: Option<Id>): Option<Id> {
    if stored.Some? && stored.value in organizations then stored
    else if organizations == [] then None else Some(organizations[0])
  }

  function AfterLoad(c: Context, organizations: seq<Id>): Context {
    var current := Preferred(organizations, c.stored);
    Context(organizations, current, if current != c.current then c.version + 1 else c.version, current)
  }

  function AfterSelect(c: Context, organization: Id): Context {
    if organization !in c.organizations then c
    else c.(current := Some(organization), stored := Some(organization),
            version := if c.current != Some(organization) then c.version + 1 else c.version)
  }

  function AfterClear(c: Context): Context {
    Context([], None, c.version + 1, None)
  }

  function AfterCreate(c: Context, organization: Id): Context {
    AfterSelect(c.(organizations := c.organizations + [organization]), organization)
  }

  class OrganizationStore {
    var organizations: seq<Id>
    var currentOrganizationId: Option<Id>
    var contextVersion: nat
    var stored: Option<Id>

    constructor (stored: Option<Id>)
      ensures Contents() == Context([], None, 0, stored)
    {
      organizations, currentOrganizationId, contextVersion, this.stored := [], None, 0, stored;
    }

    function Contents(): Context
      reads this
    {
      Context(organizations, currentOrganizationId, contextVersion, stored)
    }

    method LoadOrganizations(response: seq<Id>)
      modifies this
      ensures Contents() == AfterLoad(old(Contents()), response)
      ensures organizations == response && stored == currentOrganizationId
      ensures currentOrganizationId.None? <==> response == []
      ensures old(stored).Some? && old(stored).value in response ==> currentOrganizationId == old(stored)
      ensures response != [] && (old(stored).None? || old(stored).value !in response) ==> currentOrganizationId == Some(response[0])
      ensures contextVersion == old(contextVersion) + if currentOrganizationId == old(currentOrganizationId) then 0 else 1
    {
      organizations := response;
      var previous := currentOrganizationId;
      if stored.Some? && stored.value in organizations {
        currentOrganizationId := stored;
      } else {
        currentOrganizationId := if organizations == [] then None else Some(organizations[0]);
      }
      if currentOrganizationId != previous { contextVersion := contextVersion + 1; }
      stored := currentOrganizationId;
    }

    method SelectOrganization(organization: Id)
      modifies this
      ensures Contents() == AfterSelect(old(Contents()), organization)
      ensures organizations == old(organizations)
      ensures organization !in organizations ==> Contents() == old(Contents())
      ensures organization in organizations ==> currentOrganizationId == Some(organization) == stored
      ensures contextVersion == old(contextVersion) + if currentOrganizationId == old(currentOrganizationId) then 0 else 1
    {
      if organization !in organizations { return; }
      if currentOrganizationId != Some(organization) {
        contextVersion := contextVersion + 1;
        currentOrganizationId := Some(organization);
      }
      stored := Some(organization);
    }

    method Clear()
      modifies this
      ensures Contents() == AfterClear(old(Contents()))
      ensures organizations == [] && currentOrganizationId.None? && stored.None? && contextVersion > old(contextVersion)
    {
      contextVersion := contextVersion + 1;
      organizations, currentOrganizationId, stored := [], None, None;
    }

    method CreateOrganization(organization: Id)
      modifies this
      ensures Contents() == AfterCreate(old(Contents()), organization)
      ensures organizations == old(organizations) + [organization] && currentOrganizationId == Some(organization) == stored
      ensures contextVersion == old(contextVersion) + if old(currentOrganizationId) == Some(organization) then 0 else 1
    {
      organizations := organizations + [organization];
      SelectOrganization(organization);
    }
  }

  // ----- one store that loads

  /** `token` is the store's entry in the loads map; `data` names the load whose result is shown. */
  datatype View = View(loading: bool, failed: bool, data: Option<Id>, token: Option<Id>)

  /** What a load remembers from its start. */
  datatype Load = Load(token: Id, version: nat, organization: Option<Id>)

  datatype Reply = Data | Failure | Cancelled

  predicate IsCurrent(c: Context, v: View, load: Load) {
    v.token == Some(load.token) && c.version == load.version && c.current == load.organization
  }

  function AfterBegin(v: View, token: Id): View {
    View(true, false, None, Some(token))
  }

  function AfterFinish(c: Context, v: View, load: Load, reply: Reply): View {
    if !IsCurrent(c, v, load) then v
    else
      match reply
      case Data => v.(data := Some(load.token), loading := false)
      case Failure => v.(data := None, failed := true, loading := false)
      case Cancelled => v.(loading := false)
  }

  class LoadingStore {
    const organization: OrganizationStore
    var loading: bool
    var failed: bool
    var data: Option<Id>
    var token: Option<Id>

    constructor (organization: OrganizationStore)
      ensures this.organization == organization && Contents() == View(false, false, None, None)
    {
      this.organization := organization;
      loading, failed, data, token := false, false, None, None;
    }

    function Contents(): View
      reads this
    {
      View(loading, failed, data, token)
    }

    method Clear()
      modifies this
      ensures Contents() == View(false, false, None, None)
    {
      token := None;
      data, loading, failed := None, false, false;
    }

    /** Up to the await. */
    method Begin(newToken: Id) returns (load: Load)
      modifies this
      ensures Contents() == AfterBegin(old(Contents()), newToken)
      ensures loading && !failed && data.None? && token == Some(newToken)
      ensures load == Load(newToken, organization.contextVersion, organization.currentOrganizationId)
    {
      load := Load(newToken, organization.contextVersion, organization.currentOrganizationId);
      token := Some(newToken);
      loading, failed := true, false;
      data := None;
    }

    /** From the await on; a failure is rethrown to the caller whether or not it was shown. */
    method Finish(load: Load, reply: Reply)
      modifies this
      ensures Contents() == AfterFinish(organization.Contents(), old(Contents()), load, reply)
      ensures token == old(token)
      ensures token != Some(load.token) || organization.contextVersion != load.version || organization.currentOrganizationId != load.organization
        ==> Contents() == old(Contents())
      ensures token == Some(load.token) && organization.contextVersion == load.version && organization.currentOrganizationId == load.organization
        ==> !loading && (reply == Data ==> data == Some(load.token) && failed == old(failed))
            && (reply == Failure ==> data.None? && failed) && (reply == Cancelled ==> data == old(data) && failed == old(failed))
    {
      if reply.Data? {
        if IsCurrent(organization.Contents(), Contents(), load) { data := Some(load.token); }
      } else if IsCurrent(organization.Contents(), Contents(), load) && !reply.Cancelled? {
        data := None;
        failed := true;
      }
      if IsCurrent(organization.Contents(), Contents(), load) { loading := false; }
    }
  }

  // ----- runs

  /** `settled` are the loads that finished while current. */
  datatype State = State(context: Context, view: View, loads: map<Id, Load>, used: set<Id>, settled: set<Id>)

  datatype Label =
    | LoadOrganizations(response: seq<Id>)
    | Select(organization: Id)
    | ClearOrganizations
    | Create(organization: Id)
    | ClearView
    | Begin(t: Id)
    | Finish(t: Id, reply: Reply)

  predicate Init(s: State) {
    s.view == View(false, false, None, None) && s.loads == map[] && s.used == {} && s.settled == {}
  }

  predicate Enabled(s: State, l: Label) {
    match l
    case Begin(t) => t !in s.used
    case Finish(t, _) => t in s.loads
    case _ => true
  }

  function Apply(s: State, l: Label): State
    requires Enabled(s, l)
  {
    match l
    case LoadOrganizations(response) => s.(context := AfterLoad(s.context, response))
    case Select(organization) => s.(context := AfterSelect(s.context, organization))
    case ClearOrganizations => s.(context := AfterClear(s.context))
    case Create(organization) => s.(context := AfterCreate(s.context, organization))
    case ClearView => s.(view := View(false, false, None, None))
    case Begin(t) =>
      s.(view := AfterBegin(s.view, t), loads := s.loads[t := Load(t, s.context.version, s.context.current)], used := s.used + {t})
    case Finish(t, reply) =>
      s.(view := AfterFinish(s.context, s.view, s.loads[t], reply), loads := s.loads - {t},
         settled := if IsCurrent(s.context, s.view, s.loads[t]) then s.settled + {t} else s.settled)
  }

  ghost predicate Step(s: State, n: State) {
    exists l :: Enabled(s, l) && n == Apply(s, l)
  }

  ghost predicate Run(run: seq<State>) {
    |run| > 0 && Init(run[0]) && forall i :: 0 <= i < |run| - 1 ==> Step(run[i], run[i + 1])
  }

  ghost predicate Inv(s: State) {
    && s.loads.Keys <= s.used && s.settled <= s.used && s.loads.Keys !! s.settled
    && (forall t :: t in s.loads ==> s.loads[t].token == t && s.loads[t].version <= s.context.version)
    && (s.view.token.Some? ==> s.view.token.value in s.used)
    && (s.view.loading <==> s.view.token.Some? && s.view.token.value !in s.settled)
    && (s.view.data.Some? ==> s.view.data == s.view.token && s.view.data.value in s.settled)
  }

  lemma StepKeeps(s: State, l: Label)
    requires Inv(s) && Enabled(s, l)
    ensures Inv(Apply(s, l))
  {
    if l.Begin? {
      assert forall t :: t in s.loads.Keys ==> t in s.used;
    } else if l.Finish? {
      assert l.t in s.loads.Keys;
    }
  }

  lemma {:induction false} RunHolds(run: seq<State>, k: nat)
    requires Run(run) && k < |run|
    ensures Inv(run[k])
  {
    if k > 0 {
      RunHolds(run, k - 1);
      assert Step(run[k - 1], run[k - 1 + 1]);
      var l :| Enabled(run[k - 1], l) && run[k] == Apply(run[k - 1], l);
      StepKeeps(run[k - 1], l);
    }
  }

  /** The version never decreases, and equal versions mean one unchanged organization. */
  lemma {:induction false} VersionsNameContexts(run: seq<State>, i: nat, j: nat)
    requires Run(run) && i <= j < |run|
    ensures run[i].context.version <= run[j].context.version
    ensures run[i].context.version == run[j].context.version ==> run[i].context.current == run[j].context.current
    decreases j - i
  {
    if i < j {
      VersionsNameContexts(run, i, j - 1);
      assert Step(run[j - 1], run[j - 1 + 1]);
    }
  }

  /** The current organization is one of the list, and the one kept in the browser. */
  predicate Known(c: Context) {
    c.current.Some? ==> c.current.value in c.organizations && c.stored == c.current
  }

  lemma {:induction false} CurrentIsKnown(run: seq<State>, k: nat)
    requires Run(run) && k < |run| && Known(run[0].context)
    ensures Known(run[k].context)
  {
    if k > 0 {
      CurrentIsKnown(run, k - 1);
      assert Step(run[k - 1], run[k - 1 + 1]);
    }
  }

  /** A token that is no longer the newest never becomes the newest again. */
  lemma {:induction false} TokensDoNotReturn(run: seq<State>, i: nat, j: nat, t: Id)
    requires Run(run) && i <= j < |run| && t in run[i].used && run[j].view.token == Some(t)
    ensures run[i].view.token == Some(t) && t in run[j].used
    decreases j - i
  {
    if i < j {
      UsedStays(run, i, j - 1, t);
      assert Step(run[j - 1], run[j - 1 + 1]);
      TokensDoNotReturn(run, i, j - 1, t);
    }
  }

  lemma {:induction false} UsedStays(run: seq<State>, i: nat, j: nat, t: Id)
    requires Run(run) && i <= j < |run| && t in run[i].used
    ensures t in run[j].used
    decreases j - i
  {
    if i < j {
      UsedStays(run, i, j - 1, t);
      assert Step(run[j - 1], run[j - 1 + 1]);
    }
  }

  /** A load in flight is the one that began, with the context of that moment. */
  lemma {:induction false} LoadsRemember(run: seq<State>, i: nat, k: nat, t: Id)
    requires Run(run) && i < k < |run| && t !in run[i].used && t in run[i + 1].used && t in run[k].loads
    ensures run[k].loads[t] == Load(t, run[i].context.version, run[i].context.current)
    decreases k - i
  {
    assert Step(run[k - 1], run[k - 1 + 1]);
    RunHolds(run, k - 1);
    if i + 1 < k {
      UsedStays(run, i + 1, k - 1, t);
      LoadsRemember(run, i, k - 1, t);
    } else {
      assert t !in run[i].loads.Keys;
    }
  }

  /**
    A result that is applied belongs to the newest load since the last clear, and nothing
    changed the organization in between, not even away and back.
   */
  lemma AppliedResultsAreNewest(run: seq<State>, i: nat, k: nat, j: nat, t: Id)
    requires Run(run) && i < j <= k < |run|
    requires t !in run[i].used && t in run[i + 1].used
    requires t in run[k].loads && IsCurrent(run[k].context, run[k].view, run[k].loads[t])
    ensures run[j].view.token == Some(t)
    ensures run[j].context.version == run[i].context.version && run[j].context.current == run[i].context.current
  {
    LoadsRemember(run, i, k, t);
    RunHolds(run, k);
    UsedStays(run, i + 1, j, t);
    TokensDoNotReturn(run, j, k, t);
    VersionsNameContexts(run, i, j);
    VersionsNameContexts(run, j, k);
  }

  /**
    A store shows `loading` exactly while the newest load since its last clear has not
    finished under its own context; a load that finishes after the organization changed
    leaves it loading. Shown data always comes from the newest load.
   */
  lemma LoadingMeans(run: seq<State>, k: nat)
    requires Run(run) && k < |run|
    ensures var v := run[k].view;
      && (v.loading <==> v.token.Some? && v.token.value !in run[k].settled)
      && (v.data.Some? ==> v.data == v.token && !v.loading)
  {
    RunHolds(run, k);
  }

  /** Once its newest load has ended stale, only another load or a clear stops a store from loading. */
  lemma {:induction false} StaleLoadLeavesLoading(run: seq<State>, i: nat, j: nat, t: Id)
    requires Run(run) && i <= j < |run| && run[i].view.token == Some(t) && run[j].view.token == Some(t)
    requires t !in run[i].loads && run[i].view.loading
    ensures t !in run[j].loads && run[j].view.loading
    decreases j - i
  {
    RunHolds(run, i);
    if i < j {
      assert Step(run[j - 1], run[j - 1 + 1]);
      RunHolds(run, j - 1);
      UsedStays(run, i, j - 1, t);
      TokensDoNotReturn(run, j - 1, j, t);
      hide Run, Inv, Step;
      StaleLoadLeavesLoading(run, i, j - 1, t);
      StaleStep(run[j - 1], run[j], t);
    }
  }

  lemma StaleStep(s: State, n: State, t: Id)
    requires Inv(s) && Step(s, n) && s.view.token == Some(t) && n.view.token == Some(t)
    requires t !in s.loads && s.view.loading
    ensures t !in n.loads && n.view.loading
  {
    var l :| Enabled(s, l) && n == Apply(s, l);
  }

  // ----- when a load leaves its store loading

  /** Another organization is current, or the store was cleared. */
  predicate Moves(s: State, n: State) {
    n.context.current != s.context.current || n.context == AfterClear(s.context)
  }

  predicate MovesAt(run: seq<State>, j: nat)
    requires j + 1 < |run|
  {
    Moves(run[j], run[j + 1])
  }

  lemma {:induction false} VersionsCountMoves(run: seq<State>, i: nat, k: nat)
    requires Run(run) && i <= k < |run|
    ensures run[i].context.version != run[k].context.version <==> exists j: nat :: i <= j < k && MovesAt(run, j)
    decreases k - i
  {
    hide Run, MovesAt;
    if i < k {
      VersionsNameContexts(run, i, k - 1);
      VersionMoves(run, k - 1);
      VersionsCountMoves(run, i, k - 1);
      if MovesAt(run, k - 1) {
        assert run[i].context.version != run[k].context.version;
      } else if run[i].context.version != run[k - 1].context.version {
        var j: nat :| i <= j < k - 1 && MovesAt(run, j);
        assert i <= j < k && MovesAt(run, j);
      }
    }
  }

  lemma VersionMoves(run: seq<State>, j: nat)
    requires Run(run) && j + 1 < |run|
    ensures run[j].context.version <= run[j + 1].context.version
    ensures run[j].context.version != run[j + 1].context.version <==> MovesAt(run, j)
  {
    assert Step(run[j], run[j + 1]);
    hide Run;
  }

  /**
    The newest load leaves its store loading exactly if, since it began, the organization
    changed or was cleared: whatever the reply and even if the organization came back.
   */
  lemma LeftLoadingIff(run: seq<State>, i: nat, k: nat, t: Id, reply: Reply)
    requires Run(run) && i < k < |run| && t !in run[i].used && t in run[i + 1].used
    requires t in run[k].loads && run[k].view.token == Some(t)
    ensures var n := Apply(run[k], Finish(t, reply));
      && t !in n.loads && n.view.token == Some(t)
      && (n.view.loading <==> exists j: nat :: i <= j < k && MovesAt(run, j))
  {
    RunHolds(run, k);
    LoadsRemember(run, i, k, t);
    VersionsNameContexts(run, i, k);
    VersionsCountMoves(run, i, k);
    assert t in run[k].loads.Keys;
  }

  function LeftState(n: nat): State {
    var first, second := Context([1], Some(1), 1, Some(1)), Context([2], Some(2), 2, Some(2));
    var loading := View(true, false, None, Some(7));
    match n
    case 0 => State(Context([], None, 0, None), View(false, false, None, None), map[], {}, {})
    case 1 => State(first, View(false, false, None, None), map[], {}, {})
    case 2 => State(first, loading, map[7 := Load(7, 1, Some(1))], {7}, {})
    case 3 => State(second, loading, map[7 := Load(7, 1, Some(1))], {7}, {})
    case _ => State(second, loading, map[], {7}, {})
  }

  function LeftLabel(n: nat): Label {
    match n
    case 0 => LoadOrganizations([1])
    case 1 => Begin(7)
    case 2 => LoadOrganizations([2])
    case _ => Finish(7, Data)
  }

  lemma LeftStep(n: nat)
    requires n < 4
    ensures Enabled(LeftState(n), LeftLabel(n)) && Apply(LeftState(n), LeftLabel(n)) == LeftState(n + 1)
  {
  }

  /** The user's organization is replaced while a load is under way: it ends, the store goes on loading. */
  lemma FinishedButLoading() returns (run: seq<State>)
    ensures Run(run) && |run| == 5 && run[4].view.token == Some(7) && 7 in run[3].loads
    ensures 7 !in run[4].loads && run[4].view.loading
  {
    run := seq(5, (n: nat) => LeftState(n));
    forall i | 0 <= i < |run| - 1 ensures Step(run[i], run[i + 1]) {
      LeftStep(i);
    }
  }
}
