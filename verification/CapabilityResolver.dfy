/**
 Resolving capabilities against a policy snapshot: a memoised recursion over dependencies and the selected alternative,
 which equals the plain recursion and, on an accepted registry, a condition on the required closure.
 */
module CapabilityResolvers {
  import opened Primitives
  import opened Graphs
  import opened CapabilityRegistries
  import opened DependencyRecursion

  datatype Lifecycle = Active | Paused | Revoked
  datatype Administrator = Allow | Deny | Pending
  datatype Approval = Approved | PendingApproval | Rejected

  datatype Scope = Scope(ownerId: string, organizationId: string, installationId: string, environment: Environment)

  datatype Facts = Facts(
    supported: bool, deployed: bool, entitled: bool, administrator: Administrator,
    setup: map<string, bool>, qualification: map<string, bool>, lifecycle: Lifecycle, selected: Option<string>)

  datatype Work = Work(workId: string, workVersion: int, workGeneration: int, agentId: string)

  datatype Budget = Budget(limit: int, reserved: int, spent: int, requested: int, known: bool)

  datatype Grant = Grant(
    scope: Scope, work: Work, policyRevision: int, grantRevision: int, currentGrantRevision: int,
    capabilities: seq<string>, permissions: seq<string>, status: Lifecycle, approval: Approval, expiresAt: int,
    parentAgentId: Option<string>, budget: Budget)

  datatype OwnerPolicy = OwnerPolicy(
    scope: Scope, id: string, revision: int, status: Lifecycle, administration: string, membership: string,
    installation: string, audit: string, expiresAt: int)

  datatype Snapshot = Snapshot(
    registryVersion: string, scope: Scope, revision: int, observedAt: int, expiresAt: int,
    ownerPolicy: Option<OwnerPolicy>, ordinaryDefaults: map<string, Preference>, preferences: map<string, Preference>,
    facts: map<string, Facts>, requestedWork: Option<Work>, authority: Option<Grant>, parentAuthority: Option<Grant>)

  datatype Reason =
    | SnapshotStale | UnsupportedEnvironment | PlatformUnsupported | DeploymentUnavailable | NotEntitled
    | ApprovalPending | AdministratorDenied | SetupMissing(key: string) | QualificationMissing(key: string)
    | RouteRequired | DependencyBlocked(id: string) | NotActive(lifecycle: Option<Lifecycle>) | OwnerDisabled
    | ExactWorkRequired | WorkAuthorityStale | CapabilityNotGranted | PermissionRequired | WorkApprovalRequired
    | BudgetRestricted | ParentRequired | DependencyAuthority(id: string)

  datatype Source = Owner | PlatformOwner | OrdinaryDefault
  datatype Readiness = Ready | SetupRequired | QualificationRequired
  datatype Authority = NotGranted | AwaitingApproval | Authorized
  datatype Label = LabelPaused | LabelRevoked | LabelDisabled | LabelSetupRequired | LabelPending | LabelUnavailable
                 | LabelUnknown | LabelActive | LabelEnabled

  datatype Resolution = Resolution(
    id: string, version: string, registryVersion: string, policyRevision: int, preference: Preference,
    preferenceSource: Source, available: bool, readiness: Readiness, lifecycle: Option<Lifecycle>,
    authority: Authority, administrator: Administrator, eligible: bool, caption: Label, reasons: set<Reason>)

  /** A registry as the resolver indexes it. */
  datatype Catalog = Catalog(version: string, byId: map<string, Descriptor>)

  function CatalogOf(r: Registry): Catalog {
    Catalog(r.version, ById(r.capabilities))
  }

  /** What the resolver relies on: indexed by id, every reference resolvable, no cycle. */
  ghost predicate Grounded(r: Catalog) {
    && (forall id <- r.byId :: r.byId[id].id == id)
    && Closed(EdgesOf(r.byId)) && Acyclic(EdgesOf(r.byId))
  }

  lemma AcceptedIsGrounded(r: Registry)
    requires Accepted(r)
    ensures Grounded(CatalogOf(r))
    ensures forall d <- r.capabilities :: d.id in CatalogOf(r).byId && CatalogOf(r).byId[d.id] == d
  {
    ByIdHolds(r.capabilities);
    forall d | d in r.capabilities ensures d.id in ById(r.capabilities) && ById(r.capabilities)[d.id] == d {
      var i :| 0 <= i < |r.capabilities| && r.capabilities[i] == d;
      ByIdFinds(r.capabilities, i);
    }
  }

  // ---------------------------------------------------------------- one capability on its own

  predicate CompleteScope(s: Scope) {
    s.ownerId != "" && s.organizationId != "" && s.installationId != ""
  }

  predicate SameScope(left: Scope, right: Scope) {
    CompleteScope(left) && left == right
  }

  predicate SameWork(left: Work, right: Work) {
    && left.workId != "" && left.workId == right.workId
    && PositiveSafe(left.workVersion) && left.workVersion == right.workVersion
    && PositiveSafe(left.workGeneration) && left.workGeneration == right.workGeneration
  }

  predicate Amount(n: int) {
    SafeInteger(n) && n >= 0
  }

  function BudgetRemaining(b: Budget): Option<int> {
    if !b.known || !Amount(b.limit) || !Amount(b.reserved) || !Amount(b.spent) || !Amount(b.requested) then None
    else
      var remaining := b.limit - b.reserved - b.spent;
      if SafeInteger(remaining) && remaining >= b.requested then Some(remaining) else None
  }

  predicate GrantCurrent(g: Grant, s: Snapshot, now: int) {
    && SameScope(g.scope, s.scope) && g.status.Active?
    && g.policyRevision == s.revision && PositiveSafe(g.grantRevision) && g.grantRevision == g.currentGrantRevision
    && g.expiresAt > now && g.work.agentId != ""
  }

  predicate Named(text: Option<string>) {
    text.Some? && text.value != ""
  }

  /** A delegated grant stays inside its parent's: capabilities, permissions, expiry and remaining budget. */
  predicate ParentCovers(g: Grant, s: Snapshot, now: int) {
    match s.parentAuthority
    case None => false
    case Some(parent) =>
      && !Named(parent.parentAgentId) && g.parentAgentId == Some(parent.work.agentId)
         && parent.work.agentId != g.work.agentId
      && GrantCurrent(parent, s, now) && SameWork(parent.work, g.work) && parent.approval.Approved?
      && g.expiresAt <= parent.expiresAt
      && (forall c <- g.capabilities :: c in parent.capabilities)
      && (forall p <- g.permissions :: p in parent.permissions)
      && BudgetRemaining(parent.budget).Some? && g.budget.limit <= BudgetRemaining(parent.budget).value
  }

  function When(condition: bool, reason: Reason): seq<Reason> {
    if condition then [reason] else []
  }

  function AuthorityReasons(d: Descriptor, s: Snapshot, now: int): seq<Reason> {
    if s.authority.None? || s.requestedWork.None? then [ExactWorkRequired]
    else
      var grant, work := s.authority.value, s.requestedWork.value;
      When(!GrantCurrent(grant, s, now) || !SameWork(grant.work, work)
            || grant.work.agentId != work.agentId, WorkAuthorityStale)
      + When(d.id !in grant.capabilities, CapabilityNotGranted)
      + When(exists p <- d.permissions :: p !in grant.permissions, PermissionRequired)
      + When(grant.approval.PendingApproval?, ApprovalPending)
      + When(grant.approval.Rejected?, WorkApprovalRequired)
      + When(BudgetRemaining(grant.budget).None?, BudgetRestricted)
      + When(Named(grant.parentAgentId) && !ParentCovers(grant, s, now), ParentRequired)
  }

  predicate CurrentSnapshot(r: Catalog, s: Snapshot, now: int) {
    && PositiveSafe(s.revision) && s.registryVersion == r.version && CompleteScope(s.scope)
    && s.observedAt <= now && s.expiresAt > now
  }

  predicate PlatformDefaults(s: Snapshot, now: int) {
    match s.ownerPolicy
    case None => false
    case Some(p) =>
      && !s.scope.environment.Production? && SameScope(p.scope, s.scope) && p.status.Active? && PositiveSafe(p.revision)
      && p.expiresAt > now
      && Filled(p.id) && Filled(p.administration) && Filled(p.membership) && Filled(p.installation) && Filled(p.audit)
  }

  function PreferenceOf(r: Catalog, d: Descriptor, s: Snapshot, now: int): Preference {
    if d.id in s.preferences then s.preferences[d.id]
    else if CurrentSnapshot(r, s, now) && PlatformDefaults(s, now) then Enabled
    else if d.id in s.ordinaryDefaults then s.ordinaryDefaults[d.id]
    else d.ordinaryDefault
  }

  function FactsOf(s: Snapshot, id: string): Option<Facts> {
    if id in s.facts then Some(s.facts[id]) else None
  }

  function AvailabilityReasons(r: Catalog, d: Descriptor, s: Snapshot, now: int): seq<Reason> {
    var facts := FactsOf(s, d.id);
    When(!CurrentSnapshot(r, s, now), SnapshotStale)
    + When(s.scope.environment !in d.environments, UnsupportedEnvironment)
    + When(facts.None? || !facts.value.supported, PlatformUnsupported)
    + When(facts.None? || !facts.value.deployed, DeploymentUnavailable)
    + When(facts.None? || !facts.value.entitled, NotEntitled)
    + When(facts.Some? && facts.value.administrator.Pending?, ApprovalPending)
    + When(facts.None? || facts.value.administrator.Deny?, AdministratorDenied)
  }

  /** The keys not recorded as true. */
  function Missing(keys: seq<string>, recorded: map<string, bool>): set<string> {
    set k | k in keys && (k !in recorded || !recorded[k])
  }

  function SetupOf(d: Descriptor, s: Snapshot): set<string> {
    Missing(d.setup, if d.id in s.facts then s.facts[d.id].setup else map[])
  }

  function QualificationOf(d: Descriptor, s: Snapshot): set<string> {
    Missing(d.qualification, if d.id in s.facts then s.facts[d.id].qualification else map[])
  }

  function Selected(d: Descriptor, facts: map<string, Facts>): seq<string> {
    if d.id in facts && facts[d.id].selected.Some? && facts[d.id].selected.value in d.alternatives
    then [facts[d.id].selected.value] else []
  }

  predicate RouteMissing(d: Descriptor, s: Snapshot) {
    d.alternatives != [] && Selected(d, s.facts) == []
  }

  /** What a capability needs: its dependencies and the alternative selected for it. */
  function DependencyIds(d: Descriptor, facts: map<string, Facts>): seq<string> {
    d.dependencies + Selected(d, facts)
  }

  function RequiredGraph(r: Catalog, facts: map<string, Facts>): Graph {
    map id | id in r.byId :: DependencyIds(r.byId[id], facts)
  }

  // ---------------------------------------------------------------- one capability and its dependencies

  /** Everything but authority: preference, availability, readiness and lifecycle. */
  predicate PolicyReady(x: Resolution) {
    x.preference.Enabled? && x.available && x.readiness.Ready? && x.lifecycle == Some(Active)
  }

  predicate AllReady(dependencies: seq<Resolution>) {
    forall x <- dependencies :: PolicyReady(x)
  }

  predicate AllAuthorized(dependencies: seq<Resolution>) {
    forall x <- dependencies :: x.authority.Authorized?
  }

  function BlockedReasons(dependencies: seq<Resolution>): set<Reason> {
    set x | x in dependencies && !PolicyReady(x) :: DependencyBlocked(x.id)
  }

  function DependencyAuthorities(dependencies: seq<Resolution>): seq<Reason> {
    if dependencies == [] then []
    else
      var x := dependencies[|dependencies| - 1];
      DependencyAuthorities(dependencies[..|dependencies| - 1])
      + match x.authority
        case Authorized => []
        case AwaitingApproval => [ApprovalPending]
        case NotGranted => [DependencyAuthority(x.id)]
  }

  function ReadinessOf(d: Descriptor, s: Snapshot, dependencies: seq<Resolution>): Readiness {
    if SetupOf(d, s) != {} then SetupRequired
    else if QualificationOf(d, s) != {} then QualificationRequired
    else if !AllReady(dependencies) || RouteMissing(d, s) then SetupRequired
    else Ready
  }

  function GrantReasons(d: Descriptor, s: Snapshot, now: int, dependencies: seq<Resolution>): seq<Reason> {
    AuthorityReasons(d, s, now) + if s.requestedWork.Some? then DependencyAuthorities(dependencies) else []
  }

  function AuthorityOf(current: bool, reasons: seq<Reason>): Authority {
    if !current then NotGranted
    else if reasons == [] then Authorized
    else if forall x <- reasons :: x.ApprovalPending? then AwaitingApproval
    else NotGranted
  }

  function LabelOf(current: bool, facts: Option<Facts>, preference: Preference, available: bool, readiness: Readiness,
                   authority: Authority, eligible: bool): Label
  {
    if facts.Some? && facts.value.lifecycle.Revoked? then LabelRevoked
    else if facts.Some? && facts.value.lifecycle.Paused? then LabelPaused
    else if preference.Disabled? then LabelDisabled
    else if !readiness.Ready? then LabelSetupRequired
    else if current && facts.Some? && facts.value.supported && facts.value.deployed && facts.value.entitled
            && facts.value.administrator.Pending? then LabelPending
    else if !available then LabelUnavailable
    else if facts.None? then LabelUnknown
    else if authority.AwaitingApproval? then LabelPending
    else if eligible then LabelActive else LabelEnabled
  }

  function ReasonSet(reasons: seq<Reason>): set<Reason> {
    set x | x in reasons
  }

  function SetupReasons(keys: set<string>): set<Reason> {
    set k <- keys :: SetupMissing(k)
  }

  function QualificationReasons(keys: set<string>): set<Reason> {
    set k <- keys :: QualificationMissing(k)
  }

  function LifecycleOf(s: Snapshot, id: string): Option<Lifecycle> {
    if id in s.facts then Some(s.facts[id].lifecycle) else None
  }

  /** The reasons that concern neither dependencies nor the grant. */
  function OwnReasons(r: Catalog, s: Snapshot, now: int, d: Descriptor): set<Reason> {
    var lifecycle := LifecycleOf(s, d.id);
    ReasonSet(AvailabilityReasons(r, d, s, now) + When(RouteMissing(d, s), RouteRequired)
              + When(lifecycle != Some(Active), NotActive(lifecycle))
              + When(!PreferenceOf(r, d, s, now).Enabled?, OwnerDisabled))
    + SetupReasons(SetupOf(d, s)) + QualificationReasons(QualificationOf(d, s))
  }

  /** One resolution, given those of its dependencies. */
  function Combine(r: Catalog, s: Snapshot, now: int, d: Descriptor, dependencies: seq<Resolution>): Resolution {
    var current := CurrentSnapshot(r, s, now);
    var facts := FactsOf(s, d.id);
    var preference := PreferenceOf(r, d, s, now);
    var source := if d.id in s.preferences then Owner
                  else if current && PlatformDefaults(s, now) then PlatformOwner else OrdinaryDefault;
    var available := AvailabilityReasons(r, d, s, now) == [];
    var readiness := ReadinessOf(d, s, dependencies);
    var lifecycle := LifecycleOf(s, d.id);
    var authority := AuthorityOf(current, GrantReasons(d, s, now, dependencies));
    var eligible := available && readiness.Ready? && preference.Enabled? && lifecycle == Some(Active)
        && authority.Authorized?;
    var reasons := OwnReasons(r, s, now, d) + BlockedReasons(dependencies)
        + ReasonSet(GrantReasons(d, s, now, dependencies));
    Resolution(d.id, d.version, r.version, s.revision, preference, source, available, readiness, lifecycle, authority,
               if facts.Some? then facts.value.administrator else Deny, eligible,
               LabelOf(current, facts, preference, available, readiness, authority, eligible), reasons)
  }

  // ---------------------------------------------------------------- the recursion

  function NetworkOf(r: Catalog, facts: map<string, Facts>): Network<Descriptor> {
    Network(r.byId, RequiredGraph(r, facts))
  }

  /** The graph the resolver follows is part of the accepted one, so it has no cycle either. */
  lemma RequiredIsWellFounded(r: Catalog, facts: map<string, Facts>)
    requires Grounded(r)
    ensures WellFounded(NetworkOf(r, facts))
  {
    var g, h := EdgesOf(r.byId), RequiredGraph(r, facts);
    forall a, b | Edge(h, a, b) ensures Edge(g, a, b) {
      assert b in g[a];
    }
    SubgraphIsAcyclic(g, h);
    forall a, b | a in h && b in h[a] ensures b in h {
      assert Edge(h, a, b) && Edge(g, a, b);
    }
  }

  function StepOf(r: Catalog, s: Snapshot, now: int): (Descriptor, seq<Resolution>) -> Resolution {
    (d: Descriptor, dependencies: seq<Resolution>) => Combine(r, s, now, d, dependencies)
  }

  /** The resolution of one capability by the plain recursion, which acceptance makes well founded. */
  function ResolutionOf(r: Catalog, s: Snapshot, now: int, id: string): Resolution
    requires Grounded(r) && id in r.byId
  {
    RequiredIsWellFounded(r, s.facts);
    Fold(NetworkOf(r, s.facts), StepOf(r, s, now), id)
  }

  ghost predicate Resolved(r: Catalog, s: Snapshot, now: int, id: string, x: Resolution) {
    Grounded(r) && id in r.byId && x == ResolutionOf(r, s, now, id)
  }

  /** One resolution for each descriptor, in registry order, each that of the plain recursion. */
  method ResolveCapabilities(r: Registry, s: Snapshot, now: int) returns (all: seq<Resolution>)
    requires Accepted(r)
    ensures |all| == |r.capabilities|
    ensures forall i | 0 <= i < |all| :: Resolved(CatalogOf(r), s, now, r.capabilities[i].id, all[i])
  {
    var catalog := CatalogOf(r);
    AcceptedIsGrounded(r);
    RequiredIsWellFounded(catalog, s.facts);
    var resolver := new Resolver(NetworkOf(catalog, s.facts), StepOf(catalog, s, now));
    all := resolver.ResolveAll(IdsOf(r.capabilities));
  }

  // ---------------------------------------------------------------- what eligibility means

  /** Ready by its own facts, setup, preference and lifecycle, whatever it depends on. */
  predicate ReadyAlone(r: Catalog, s: Snapshot, now: int, d: Descriptor) {
    && AvailabilityReasons(r, d, s, now) == []
    && SetupOf(d, s) == {} && QualificationOf(d, s) == {} && !RouteMissing(d, s)
    && PreferenceOf(r, d, s, now).Enabled?
    && d.id in s.facts && s.facts[d.id].lifecycle.Active?
  }

  /** Ready, and granted by the exact Work authority, on its own. */
  predicate EligibleAlone(r: Catalog, s: Snapshot, now: int, d: Descriptor) {
    && ReadyAlone(r, s, now, d)
    && CurrentSnapshot(r, s, now) && AuthorityReasons(d, s, now) == []
  }

  predicate Admissible(x: Resolution) {
    PolicyReady(x) && x.authority.Authorized?
  }

  lemma {:induction false} DependencyAuthoritiesEmpty(dependencies: seq<Resolution>)
    ensures DependencyAuthorities(dependencies) == [] <==> AllAuthorized(dependencies)
  {
    if dependencies != [] {
      var n := |dependencies| - 1;
      DependencyAuthoritiesEmpty(dependencies[..n]);
      assert dependencies == dependencies[..n] + [dependencies[n]];
    }
  }

  /** One level: readiness and eligibility need the same of every dependency, and nothing more. */
  lemma CombineMeans(r: Catalog, s: Snapshot, now: int, d: Descriptor, dependencies: seq<Resolution>)
    ensures var x := Combine(r, s, now, d, dependencies);
            && (PolicyReady(x) <==> ReadyAlone(r, s, now, d) && AllReady(dependencies))
            && (x.eligible <==> Admissible(x))
            && (Admissible(x) <==> EligibleAlone(r, s, now, d) && forall y <- dependencies :: Admissible(y))
  {
    DependencyAuthoritiesEmpty(dependencies);
  }

  /**
   A capability is ready exactly when everything in its required closure (itself, its transitive dependencies and
   selected alternatives) is available, set up, qualified, enabled and active on its own.
   */
  lemma ReadyClosure(r: Catalog, s: Snapshot, now: int, id: string)
    requires Grounded(r) && id in r.byId
    ensures PolicyReady(ResolutionOf(r, s, now, id)) <==>
            forall c <- Closure(RequiredGraph(r, s.facts), id) :: ReadyAlone(r, s, now, r.byId[c])
  {
    RequiredIsWellFounded(r, s.facts);
    forall d, xs
      ensures PolicyReady(StepOf(r, s, now)(d, xs)) <==> ReadyAlone(r, s, now, d) && forall x <- xs :: PolicyReady(x)
    {
      CombineMeans(r, s, now, d, xs);
    }
    FoldClosure(NetworkOf(r, s.facts), StepOf(r, s, now), PolicyReady, d => ReadyAlone(r, s, now, d), id);
  }

  lemma NoReasonListed(reasons: seq<Reason>)
    ensures ReasonSet(reasons) == {} <==> reasons == []
  {
    if reasons != [] {
      assert reasons[0] in ReasonSet(reasons);
    }
  }

  lemma NothingMissing(keys: set<string>)
    ensures SetupReasons(keys) == {} <==> keys == {}
    ensures QualificationReasons(keys) == {} <==> keys == {}
  {
    if k :| k in keys {
      assert SetupMissing(k) in SetupReasons(keys) && QualificationMissing(k) in QualificationReasons(keys);
    }
  }

  lemma NoneBlocked(dependencies: seq<Resolution>)
    ensures BlockedReasons(dependencies) == {} <==> AllReady(dependencies)
  {
    if x :| x in dependencies && !PolicyReady(x) {
      assert DependencyBlocked(x.id) in BlockedReasons(dependencies);
    }
  }

  lemma OwnReasonsExplain(r: Catalog, s: Snapshot, now: int, d: Descriptor)
    ensures OwnReasons(r, s, now, d) == {} <==> ReadyAlone(r, s, now, d)
  {
    var lifecycle := LifecycleOf(s, d.id);
    NoReasonListed(AvailabilityReasons(r, d, s, now) + When(RouteMissing(d, s), RouteRequired)
                   + When(lifecycle != Some(Active), NotActive(lifecycle))
                   + When(!PreferenceOf(r, d, s, now).Enabled?, OwnerDisabled));
    NothingMissing(SetupOf(d, s));
    NothingMissing(QualificationOf(d, s));
  }

  lemma LabelExplains(
    current: bool, facts: Option<Facts>, preference: Preference, available: bool, readiness: Readiness,
    authority: Authority, eligible: bool)
    requires eligible ==>
               && facts.Some? && facts.value.lifecycle.Active? && !facts.value.administrator.Pending?
               && preference.Enabled? && available && readiness.Ready? && authority.Authorized?
    ensures LabelOf(current, facts, preference, available, readiness, authority, eligible) == LabelActive <==> eligible
  {
  }

  lemma AvailableIsAllowed(r: Catalog, d: Descriptor, s: Snapshot, now: int)
    requires AvailabilityReasons(r, d, s, now) == []
    ensures d.id in s.facts && s.facts[d.id].administrator.Allow?
  {
  }

  /** One level: a resolution is eligible exactly when it gives no reason against it. */
  lemma CombineReasons(r: Catalog, s: Snapshot, now: int, d: Descriptor, dependencies: seq<Resolution>)
    ensures var x := Combine(r, s, now, d, dependencies); x.eligible <==> x.reasons == {}
  {
    OwnReasonsExplain(r, s, now, d);
    NoneBlocked(dependencies);
    NoReasonListed(GrantReasons(d, s, now, dependencies));
    CombineMeans(r, s, now, d, dependencies);
  }

  /** And exactly then it reads active. */
  lemma CombineLabel(r: Catalog, s: Snapshot, now: int, d: Descriptor, dependencies: seq<Resolution>)
    ensures var x := Combine(r, s, now, d, dependencies); x.eligible <==> x.caption == LabelActive
  {
    var x := Combine(r, s, now, d, dependencies);
    if AvailabilityReasons(r, d, s, now) == [] {
      AvailableIsAllowed(r, d, s, now);
    }
    LabelExplains(CurrentSnapshot(r, s, now), FactsOf(s, d.id), x.preference, x.available, x.readiness, x.authority,
          x.eligible);
  }

  /** A capability is eligible exactly when its resolution lists no reason, and then it is the one that reads active. */
  lemma ReasonsExplain(r: Catalog, s: Snapshot, now: int, id: string)
    requires Grounded(r) && id in r.byId
    ensures var x := ResolutionOf(r, s, now, id);
            (x.eligible <==> x.reasons == {}) && (x.eligible <==> x.caption == LabelActive)
  {
    RequiredIsWellFounded(r, s.facts);
    var n := NetworkOf(r, s.facts);
    CombineReasons(r, s, now, r.byId[id], FoldFirst(n, StepOf(r, s, now), id, |n.graph[id]|));
    CombineLabel(r, s, now, r.byId[id], FoldFirst(n, StepOf(r, s, now), id, |n.graph[id]|));
  }

  lemma EligibleIsAdmissible(r: Catalog, s: Snapshot, now: int, id: string)
    requires Grounded(r) && id in r.byId
    ensures ResolutionOf(r, s, now, id).eligible <==> Admissible(ResolutionOf(r, s, now, id))
  {
    RequiredIsWellFounded(r, s.facts);
    var n := NetworkOf(r, s.facts);
    CombineMeans(r, s, now, r.byId[id], FoldFirst(n, StepOf(r, s, now), id, |n.graph[id]|));
  }

  /** A capability is eligible exactly when its whole required closure is ready and granted on its own. */
  lemma EligibleClosure(r: Catalog, s: Snapshot, now: int, id: string)
    requires Grounded(r) && id in r.byId
    ensures ResolutionOf(r, s, now, id).eligible <==>
            forall c <- Closure(RequiredGraph(r, s.facts), id) :: EligibleAlone(r, s, now, r.byId[c])
  {
    RequiredIsWellFounded(r, s.facts);
    EligibleIsAdmissible(r, s, now, id);
    forall d, xs
      ensures Admissible(StepOf(r, s, now)(d, xs)) <==> EligibleAlone(r, s, now, d) && forall x <- xs :: Admissible(x)
    {
      CombineMeans(r, s, now, d, xs);
    }
    FoldClosure(NetworkOf(r, s.facts), StepOf(r, s, now), Admissible, d => EligibleAlone(r, s, now, d), id);
  }

  /** An eligible capability has everything it transitively needs eligible too. */
  lemma EligibleIsHereditary(r: Catalog, s: Snapshot, now: int, id: string, c: string)
    requires Grounded(r) && id in r.byId && ResolutionOf(r, s, now, id).eligible
    requires c in Closure(RequiredGraph(r, s.facts), id)
    ensures c in r.byId && ResolutionOf(r, s, now, c).eligible
  {
    var g := RequiredGraph(r, s.facts);
    EligibleClosure(r, s, now, id);
    EligibleClosure(r, s, now, c);
    forall d | d in Closure(g, c) ensures d in Closure(g, id) {
      ReachesTransitive(g, id, c, d);
    }
  }

  /** A delegated grant never exceeds its parent, whose money already committed is kept out of it. */
  predicate InsideParent(g: Grant, parent: Grant) {
    && (forall c <- g.capabilities :: c in parent.capabilities)
    && (forall p <- g.permissions :: p in parent.permissions)
    && g.expiresAt <= parent.expiresAt
    && g.budget.limit + parent.budget.reserved + parent.budget.spent <= parent.budget.limit
    && parent.work.agentId != g.work.agentId && !Named(parent.parentAgentId)
  }

  /**
   Everything an eligible capability transitively needs is granted to the agent with its permissions; and if the grant
   is delegated, granted to the parent too, inside the parent's expiry and uncommitted money.
   */
  lemma GrantCoversClosure(r: Catalog, s: Snapshot, now: int, id: string, c: string)
    requires Grounded(r) && id in r.byId && ResolutionOf(r, s, now, id).eligible
    requires c in Closure(RequiredGraph(r, s.facts), id)
    ensures s.authority.Some? && c in s.authority.value.capabilities && c in r.byId
    ensures forall p <- r.byId[c].permissions :: p in s.authority.value.permissions
    ensures Named(s.authority.value.parentAgentId) ==>
              s.parentAuthority.Some? && InsideParent(s.authority.value, s.parentAuthority.value)
              && c in s.parentAuthority.value.capabilities
              && forall p <- r.byId[c].permissions :: p in s.parentAuthority.value.permissions
  {
    EligibleClosure(r, s, now, id);
    AuthorityMeans(r.byId[c], s, now);
  }

  /**
   No reason against the grant means exactly that it is current, exact, approved, sufficient and within any parent.
   */
  lemma AuthorityMeans(d: Descriptor, s: Snapshot, now: int)
    ensures AuthorityReasons(d, s, now) == [] <==>
            && s.authority.Some? && s.requestedWork.Some?
            && var g := s.authority.value;
               && GrantCurrent(g, s, now) && SameWork(g.work, s.requestedWork.value)
               && g.work.agentId == s.requestedWork.value.agentId
               && d.id in g.capabilities && (forall p <- d.permissions :: p in g.permissions)
               && g.approval.Approved? && BudgetRemaining(g.budget).Some?
               && (Named(g.parentAgentId) ==> ParentCovers(g, s, now))
  {
  }

  // ---------------------------------------------------------------- disabling one capability

  function Disable(s: Snapshot, c: string): Snapshot {
    s.(preferences := s.preferences[c := Disabled])
  }

  /** Alone, disabling c makes c ineligible and concerns no other capability. */
  lemma DisableAlone(r: Catalog, s: Snapshot, now: int, c: string, d: Descriptor)
    ensures EligibleAlone(r, Disable(s, c), now, d) <==> EligibleAlone(r, s, now, d) && d.id != c
    ensures ReadyAlone(r, Disable(s, c), now, d) <==> ReadyAlone(r, s, now, d) && d.id != c
  {
  }

  lemma DisableAuthority(s: Snapshot, now: int, c: string, d: Descriptor)
    ensures AuthorityReasons(d, Disable(s, c), now) == AuthorityReasons(d, s, now)
  {
  }

  lemma DisableCombine(r: Catalog, s: Snapshot, now: int, c: string, d: Descriptor, dependencies: seq<Resolution>)
    requires d.id != c
    ensures Combine(r, Disable(s, c), now, d, dependencies) == Combine(r, s, now, d, dependencies)
  {
    var s' := Disable(s, c);
    DisableAuthority(s, now, c, d);
    assert GrantReasons(d, s', now, dependencies) == GrantReasons(d, s, now, dependencies);
    assert AvailabilityReasons(r, d, s', now) == AvailabilityReasons(r, d, s, now);
    assert PreferenceOf(r, d, s', now) == PreferenceOf(r, d, s, now);
    assert ReadinessOf(d, s', dependencies) == ReadinessOf(d, s, dependencies);
    assert SetupOf(d, s') == SetupOf(d, s) && QualificationOf(d, s') == QualificationOf(d, s);
  }

  /**
   Disabling one capability removes from the eligible ones exactly those whose required closure contains it, and
   changes no resolution outside them.
   */
  lemma DisableExactly(r: Catalog, s: Snapshot, now: int, c: string, id: string)
    requires Grounded(r) && id in r.byId
    ensures var needs := c in Closure(RequiredGraph(r, s.facts), id);
            && (ResolutionOf(r, Disable(s, c), now, id).eligible <==> ResolutionOf(r, s, now, id).eligible && !needs)
            && (!needs ==> ResolutionOf(r, Disable(s, c), now, id) == ResolutionOf(r, s, now, id))
  {
    if c in Closure(RequiredGraph(r, s.facts), id) {
      EligibleClosure(r, Disable(s, c), now, id);
      DisableAlone(r, s, now, c, r.byId[c]);
    } else {
      RequiredIsWellFounded(r, s.facts);
      var n := NetworkOf(r, s.facts);
      forall other, xs | other in n.nodes && other != c
        ensures StepOf(r, s, now)(n.nodes[other], xs) == StepOf(r, Disable(s, c), now)(n.nodes[other], xs)
      {
        DisableCombine(r, s, now, c, r.byId[other], xs);
      }
      FoldElsewhere(n, StepOf(r, s, now), StepOf(r, Disable(s, c), now), c, id);
    }
  }
}
