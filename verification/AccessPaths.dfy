/** Privilege escalation paths: what the finders report is exactly what the tenant graph holds. */
module AccessPaths {
  import opened Documents
  import opened Sequences

  const DIRECTORY_READ_WRITE := "19dbc75e-c2e2-444c-a770-ec596d67a9eb"
  const ROLE_MANAGEMENT := "9e3f62cf-ca93-4989-b6ce-bf83d28f9fe8"
  const MAIL_READ_WRITE := "e2a3a72e-5f79-4c64-b1b1-878b674786c9"
  const MAIL_SEND := "b633e1c5-b582-4048-a93e-9f11b44c7e96"
  const APP_ROLE_ASSIGNMENT := "06b708a9-e830-4db3-a914-8e69da51d44f"
  const APPLICATION_READ_WRITE := "1bfefb4e-e0b5-418b-a88f-73c46d2cc8e9"

  /** The permissions and roles the analysis looks for. */
  datatype Lists = Lists(highRisk: set<string>, criticalPermissions: set<string>, criticalRoles: set<string>,
                         modifyRoles: set<string>, adminRoles: set<string>)

  const LISTS := Lists(
    {DIRECTORY_READ_WRITE, ROLE_MANAGEMENT, MAIL_READ_WRITE, MAIL_SEND, APP_ROLE_ASSIGNMENT, APPLICATION_READ_WRITE},
    {ROLE_MANAGEMENT, APP_ROLE_ASSIGNMENT},
    {"global administrator", "privileged role administrator"},
    {"application administrator", "cloud application administrator"},
    {"global administrator", "privileged role administrator", "privileged authentication administrator",
     "application administrator", "cloud application administrator", "security administrator",
     "user administrator", "exchange administrator", "sharepoint administrator",
     "conditional access administrator", "authentication administrator", "intune administrator"})

  /** The critical permissions and roles, and the roles that may modify applications, are all listed. */
  lemma CriticalIsListed()
    ensures LISTS.criticalPermissions <= LISTS.highRisk
    ensures LISTS.criticalRoles <= LISTS.adminRoles && LISTS.modifyRoles <= LISTS.adminRoles
  {
  }

  /** An application registration: its application id and its object id. */
  datatype App = App(appId: string, id: string)

  /** The tenant graph; the pairs are dictionary entries in order. `lower` is the lower-casing of names. */
  datatype TenantGraph = TenantGraph(
    appOwners: seq<(string, seq<string>)>, spOwners: seq<(string, seq<string>)>,
    groupOwners: seq<(string, seq<string>)>,
    groupRoles: map<string, seq<string>>, identityGroups: map<string, seq<string>>, apps: seq<App>,
    spByAppId: map<string, string>, spAppRoles: map<string, seq<string>>, spDirectoryRoles: map<string, seq<string>>,
    identityRoles: map<string, seq<string>>, lower: string -> string, lists: Lists)

  datatype Node = Identity(id: string) | Application(id: string) | ServicePrincipal(id: string) | Group(id: string)
                | Permission(id: string) | DirectoryRole(name: string) | AnyApplication

  datatype EdgeType = OwnsApp | AppHasSp | SpHasAppRole | SpHasDirectoryRole | OwnsGroup | MemberOfGroup | GroupHasRole
                    | OwnsSp | HasDirectoryRole | CanModifyAnyApp

  datatype Step = Step(edge: EdgeType, node: Node)

  datatype Kind = AppOwnerToPermission | AppOwnerToRole | GroupOwnerToRole | GroupMemberToRole
                | SpOwnerToPermission | SpOwnerToRole | AppAdminToPermission | AppAdminToRole

  datatype Risk = NoRisk | MediumRisk | HighRisk | CriticalRisk

  datatype Path = Path(kind: Kind, source: string, steps: seq<Step>, risk: Risk)

  function Entry(m: map<string, seq<string>>, key: string): seq<string> {
    if key in m then m[key] else []
  }

  /** The first registration with the object id. */
  function AppWith(apps: seq<App>, id: string): Option<App> {
    if apps == [] then None else if apps[0].id == id then Some(apps[0]) else AppWith(apps[1..], id)
  }

  /** The service principal of an application object. */
  function SpOf(g: TenantGraph, appObject: string): Option<string> {
    var app := AppWith(g.apps, appObject);
    if app.Some? && app.value.appId in g.spByAppId then Some(g.spByAppId[app.value.appId]) else None
  }

  // ---- The graph as a relation, independent of the finders ----

  predicate Owns(owners: seq<(string, seq<string>)>, owner: string, thing: string) {
    exists i | 0 <= i < |owners| :: owners[i].0 == thing && owner in owners[i].1
  }

  /** The tenant holds this edge. */
  predicate Edge(g: TenantGraph, x: Node, edge: EdgeType, y: Node) {
    match edge
    case OwnsApp => x.Identity? && y.Application? && Owns(g.appOwners, x.id, y.id)
    case AppHasSp =>
      && y.ServicePrincipal?
      && ((x.Application? && SpOf(g, x.id) == Some(y.id)) ||
          (x.AnyApplication? && exists a | a in g.apps :: a.appId in g.spByAppId && g.spByAppId[a.appId] == y.id))
    case SpHasAppRole => x.ServicePrincipal? && y.Permission? && y.id in Entry(g.spAppRoles, x.id)
    case SpHasDirectoryRole => x.ServicePrincipal? && y.DirectoryRole? && y.name in Entry(g.spDirectoryRoles, x.id)
    case OwnsGroup => x.Identity? && y.Group? && Owns(g.groupOwners, x.id, y.id)
    case MemberOfGroup => x.Identity? && y.Group? && y.id in Entry(g.identityGroups, x.id)
    case GroupHasRole => x.Group? && y.DirectoryRole? && y.name in Entry(g.groupRoles, x.id)
    case OwnsSp => x.Identity? && y.ServicePrincipal? && Owns(g.spOwners, x.id, y.id)
    case HasDirectoryRole => x.Identity? && y.DirectoryRole? && y.name in Entry(g.identityRoles, x.id)
    case CanModifyAnyApp => x.DirectoryRole? && x.name in g.lists.modifyRoles && y.AnyApplication?
  }

  /** Consecutive steps are edges. */
  predicate Linked(g: TenantGraph, from: Node, steps: seq<Step>)
    decreases |steps|
  {
    steps == [] || (Edge(g, from, steps[0].edge, steps[0].node) && Linked(g, steps[0].node, steps[1..]))
  }

  /** The edge types each kind of path follows. */
  function Shape(kind: Kind): seq<EdgeType> {
    match kind
    case AppOwnerToPermission => [OwnsApp, AppHasSp, SpHasAppRole]
    case AppOwnerToRole => [OwnsApp, AppHasSp, SpHasDirectoryRole]
    case GroupOwnerToRole => [OwnsGroup, GroupHasRole]
    case GroupMemberToRole => [MemberOfGroup, GroupHasRole]
    case SpOwnerToPermission => [OwnsSp, SpHasAppRole]
    case SpOwnerToRole => [OwnsSp, SpHasDirectoryRole]
    case AppAdminToPermission => [HasDirectoryRole, CanModifyAnyApp, AppHasSp, SpHasAppRole]
    case AppAdminToRole => [HasDirectoryRole, CanModifyAnyApp, AppHasSp, SpHasDirectoryRole]
  }

  predicate HasShape(steps: seq<Step>, shape: seq<EdgeType>) {
    |steps| == |shape| && forall i | 0 <= i < |shape| :: steps[i].edge == shape[i]
  }

  /** The permission or role a path ends in. */
  function TargetName(n: Node): string {
    if n.Permission? then n.id else if n.DirectoryRole? then n.name else ""
  }

  predicate EndsInPermission(kind: Kind) {
    kind == AppOwnerToPermission || kind == SpOwnerToPermission || kind == AppAdminToPermission
  }

  /** The ends each kind of path is reported for. */
  predicate Listed(g: TenantGraph, kind: Kind, name: string) {
    match kind
    case AppOwnerToPermission => name in g.lists.highRisk
    case SpOwnerToPermission => name in g.lists.highRisk
    case AppOwnerToRole => true
    case SpOwnerToRole => true
    case GroupOwnerToRole => g.lower(name) in g.lists.adminRoles
    case GroupMemberToRole => g.lower(name) in g.lists.adminRoles
    case AppAdminToPermission => name in g.lists.criticalPermissions
    case AppAdminToRole => g.lower(name) in g.lists.criticalRoles
  }

  /** Its end is one of the critical permissions or roles. */
  predicate CriticalEnd(g: TenantGraph, kind: Kind, name: string) {
    if EndsInPermission(kind) then name in g.lists.criticalPermissions else g.lower(name) in g.lists.criticalRoles
  }

  /** A membership path is never more than high. */
  function RiskOf(g: TenantGraph, kind: Kind, name: string): Risk {
    if kind != GroupMemberToRole && CriticalEnd(g, kind, name) then CriticalRisk else HighRisk
  }

  /** A chain of edges from the identity, of one of the eight shapes, to a listed end. */
  predicate IsPath(g: TenantGraph, who: string, p: Path) {
    && p.source == who && HasShape(p.steps, Shape(p.kind)) && Linked(g, Identity(who), p.steps)
    && Listed(g, p.kind, TargetName(p.steps[|p.steps| - 1].node))
    && p.risk == RiskOf(g, p.kind, TargetName(p.steps[|p.steps| - 1].node))
  }

  /** The role by which an application administrator path claims to modify applications. */
  predicate ByRole(p: Path, role: string) {
    p.kind == AppAdminToPermission || p.kind == AppAdminToRole ==>
      |p.steps| > 0 && p.steps[0].node == DirectoryRole(role)
  }

  // ---- The eight findings, spelled out from the graph's own entries ----

  predicate ListsOwner(owners: seq<(string, seq<string>)>, who: string, thing: string) {
    exists i | 0 <= i < |owners| :: owners[i].0 == thing && who in owners[i].1
  }

  /** `sp` is the service principal of the first registration with this object id. */
  predicate Serves(g: TenantGraph, app: string, sp: string) {
    exists k: nat | k < |g.apps| :: FirstWith(g, k, app) && g.apps[k].appId in g.spByAppId.Keys &&
                                    g.spByAppId[g.apps[k].appId] == sp
  }

  predicate FirstWith(g: TenantGraph, k: nat, app: string)
    requires k < |g.apps|
  {
    g.apps[k].id == app && forall j | 0 <= j < k :: g.apps[j].id != app
  }

  /** Some registration has this service principal. */
  predicate Registered(g: TenantGraph, sp: string) {
    exists k: nat | k < |g.apps| :: g.apps[k].appId in g.spByAppId.Keys && g.spByAppId[g.apps[k].appId] == sp
  }

  /** `name` is among the values under `key`. */
  predicate Has(m: map<string, seq<string>>, key: string, name: string) {
    key in m && name in m[key]
  }

  function Graded(critical: bool): Risk {
    if critical then CriticalRisk else HighRisk
  }

  predicate AppFinding(g: TenantGraph, who: string, p: Path, app: string, sp: string, name: string) {
    && ListsOwner(g.appOwners, who, app) && Serves(g, app, sp)
    && if p.kind == AppOwnerToPermission
       then Has(g.spAppRoles, sp, name) && name in g.lists.highRisk &&
            p == Path(AppOwnerToPermission, who,
                      [Step(OwnsApp, Application(app)), Step(AppHasSp, ServicePrincipal(sp)),
                       Step(SpHasAppRole, Permission(name))],
                      Graded(name in g.lists.criticalPermissions))
       else Has(g.spDirectoryRoles, sp, name) &&
            p == Path(AppOwnerToRole, who,
                      [Step(OwnsApp, Application(app)), Step(AppHasSp, ServicePrincipal(sp)),
                       Step(SpHasDirectoryRole, DirectoryRole(name))],
                      Graded(g.lower(name) in g.lists.criticalRoles))
  }

  predicate GroupFinding(g: TenantGraph, who: string, p: Path, group: string, name: string) {
    && Has(g.groupRoles, group, name) && g.lower(name) in g.lists.adminRoles
    && if p.kind == GroupOwnerToRole
       then ListsOwner(g.groupOwners, who, group) &&
            p == Path(GroupOwnerToRole, who,
                      [Step(OwnsGroup, Group(group)), Step(GroupHasRole, DirectoryRole(name))],
                      Graded(g.lower(name) in g.lists.criticalRoles))
       else Has(g.identityGroups, who, group) &&
            p == Path(GroupMemberToRole, who,
                      [Step(MemberOfGroup, Group(group)), Step(GroupHasRole, DirectoryRole(name))],
                      HighRisk)
  }

  predicate SpFinding(g: TenantGraph, who: string, p: Path, sp: string, name: string) {
    && ListsOwner(g.spOwners, who, sp)
    && if p.kind == SpOwnerToPermission
       then Has(g.spAppRoles, sp, name) && name in g.lists.highRisk &&
            p == Path(SpOwnerToPermission, who,
                      [Step(OwnsSp, ServicePrincipal(sp)), Step(SpHasAppRole, Permission(name))],
                      Graded(name in g.lists.criticalPermissions))
       else Has(g.spDirectoryRoles, sp, name) &&
            p == Path(SpOwnerToRole, who,
                      [Step(OwnsSp, ServicePrincipal(sp)), Step(SpHasDirectoryRole, DirectoryRole(name))],
                      Graded(g.lower(name) in g.lists.criticalRoles))
  }

  predicate AdminFinding(g: TenantGraph, who: string, p: Path, role: string, sp: string, name: string) {
    && Has(g.identityRoles, who, role) && role in g.lists.modifyRoles && Registered(g, sp)
    && if p.kind == AppAdminToPermission
       then Has(g.spAppRoles, sp, name) && name in g.lists.criticalPermissions &&
            p == Path(AppAdminToPermission, who,
                      [Step(HasDirectoryRole, DirectoryRole(role)), Step(CanModifyAnyApp, AnyApplication),
                       Step(AppHasSp, ServicePrincipal(sp)), Step(SpHasAppRole, Permission(name))],
                      CriticalRisk)
       else Has(g.spDirectoryRoles, sp, name) && g.lower(name) in g.lists.criticalRoles &&
            p == Path(AppAdminToRole, who,
                      [Step(HasDirectoryRole, DirectoryRole(role)), Step(CanModifyAnyApp, AnyApplication),
                       Step(AppHasSp, ServicePrincipal(sp)), Step(SpHasDirectoryRole, DirectoryRole(name))],
                      CriticalRisk)
  }

  /** What the analysis is to report: one path for each chain of entries of one of the eight kinds that ends in a
      permission or role listed for that kind. */
  ghost predicate Finding(g: TenantGraph, who: string, p: Path) {
    match p.kind
    case AppOwnerToPermission => exists app, sp, name :: AppFinding(g, who, p, app, sp, name)
    case AppOwnerToRole => exists app, sp, name :: AppFinding(g, who, p, app, sp, name)
    case GroupOwnerToRole => exists group, name :: GroupFinding(g, who, p, group, name)
    case GroupMemberToRole => exists group, name :: GroupFinding(g, who, p, group, name)
    case SpOwnerToPermission => exists sp, name :: SpFinding(g, who, p, sp, name)
    case SpOwnerToRole => exists sp, name :: SpFinding(g, who, p, sp, name)
    case AppAdminToPermission => exists role, sp, name :: AdminFinding(g, who, p, role, sp, name)
    case AppAdminToRole => exists role, sp, name :: AdminFinding(g, who, p, role, sp, name)
  }

  lemma {:induction false} FirstRegistration(apps: seq<App>, id: string, k: nat)
    requires k < |apps| && apps[k].id == id && forall j | 0 <= j < k :: apps[j].id != id
    ensures AppWith(apps, id) == Some(apps[k])
  {
    if k > 0 {
      FirstRegistration(apps[1..], id, k - 1);
    }
  }

  lemma {:induction false} RegistrationFound(apps: seq<App>, id: string) returns (k: nat)
    requires AppWith(apps, id).Some?
    ensures k < |apps| && apps[k] == AppWith(apps, id).value && apps[k].id == id
    ensures forall j | 0 <= j < k :: apps[j].id != id
  {
    if apps[0].id == id {
      k := 0;
    } else {
      k := RegistrationFound(apps[1..], id);
      k := k + 1;
    }
  }

  lemma ServesExactly(g: TenantGraph, app: string, sp: string)
    ensures Serves(g, app, sp) <==> SpOf(g, app) == Some(sp)
  {
    if Serves(g, app, sp) {
      var k: nat :| k < |g.apps| && FirstWith(g, k, app) && g.apps[k].appId in g.spByAppId.Keys &&
                    g.spByAppId[g.apps[k].appId] == sp;
      FirstRegistration(g.apps, app, k);
    }
    if SpOf(g, app) == Some(sp) {
      var k := RegistrationFound(g.apps, app);
      assert FirstWith(g, k, app);
    }
  }

  lemma RegisteredExactly(g: TenantGraph, sp: string)
    ensures Registered(g, sp) <==> Edge(g, AnyApplication, AppHasSp, ServicePrincipal(sp))
  {
    if Registered(g, sp) {
      var k: nat :| k < |g.apps| && g.apps[k].appId in g.spByAppId.Keys && g.spByAppId[g.apps[k].appId] == sp;
      assert g.apps[k] in g.apps;
    }
    if a :| a in g.apps && a.appId in g.spByAppId && g.spByAppId[a.appId] == sp {
      var k: nat :| k < |g.apps| && g.apps[k] == a;
    }
  }

  lemma AppFindings(g: TenantGraph, who: string, p: Path)
    requires p.kind == AppOwnerToPermission || p.kind == AppOwnerToRole
    ensures Finding(g, who, p) <==> IsPath(g, who, p)
  {
    if app, sp, name :| AppFinding(g, who, p, app, sp, name) {
      ServesExactly(g, app, sp);
      ThreeSteps(g, Identity(who), p.steps);
    }
    if IsPath(g, who, p) {
      ThreeSteps(g, Identity(who), p.steps);
      var app, sp, name := p.steps[0].node.id, p.steps[1].node.id, TargetName(p.steps[2].node);
      ServesExactly(g, app, sp);
      assert p.steps == [p.steps[0], p.steps[1], p.steps[2]];
      assert AppFinding(g, who, p, app, sp, name);
    }
  }

  lemma GroupFindings(g: TenantGraph, who: string, p: Path)
    requires p.kind == GroupOwnerToRole || p.kind == GroupMemberToRole
    ensures Finding(g, who, p) <==> IsPath(g, who, p)
  {
    if group, name :| GroupFinding(g, who, p, group, name) {
      TwoSteps(g, Identity(who), p.steps);
    }
    if IsPath(g, who, p) {
      TwoSteps(g, Identity(who), p.steps);
      assert p.steps == [p.steps[0], p.steps[1]];
      assert GroupFinding(g, who, p, p.steps[0].node.id, TargetName(p.steps[1].node));
    }
  }

  lemma SpFindings(g: TenantGraph, who: string, p: Path)
    requires p.kind == SpOwnerToPermission || p.kind == SpOwnerToRole
    ensures Finding(g, who, p) <==> IsPath(g, who, p)
  {
    if sp, name :| SpFinding(g, who, p, sp, name) {
      TwoSteps(g, Identity(who), p.steps);
    }
    if IsPath(g, who, p) {
      TwoSteps(g, Identity(who), p.steps);
      assert p.steps == [p.steps[0], p.steps[1]];
      assert SpFinding(g, who, p, p.steps[0].node.id, TargetName(p.steps[1].node));
    }
  }

  /** The steps of an administrator's finding. */
  function AdminSteps(role: string, sp: string, last: Step): (r: seq<Step>)
    ensures |r| == 4 && r == AdminPrefix(role, sp) + [last]
  {
    [Step(HasDirectoryRole, DirectoryRole(role)), Step(CanModifyAnyApp, AnyApplication),
     Step(AppHasSp, ServicePrincipal(sp)), last]
  }

  lemma AdminLinked(g: TenantGraph, who: string, role: string, sp: string, last: Step)
    requires Has(g.identityRoles, who, role) && role in g.lists.modifyRoles && Registered(g, sp)
    ensures Linked(g, Identity(who), AdminSteps(role, sp, last)) <==>
            Edge(g, ServicePrincipal(sp), last.edge, last.node)
  {
    RegisteredExactly(g, sp);
    FourSteps(g, Identity(who), AdminSteps(role, sp, last));
  }

  lemma AdminFindingIsPath(g: TenantGraph, who: string, p: Path, role: string, sp: string, name: string)
    requires (p.kind == AppAdminToPermission || p.kind == AppAdminToRole) && AdminFinding(g, who, p, role, sp, name)
    ensures IsPath(g, who, p)
  {
    AdminLinked(g, who, role, sp, p.steps[3]);
    assert p.steps == AdminSteps(role, sp, p.steps[3]);
  }

  lemma AdminFindingOf(g: TenantGraph, who: string, p: Path, role: string, sp: string, name: string)
    requires p.kind == AppAdminToPermission || p.kind == AppAdminToRole
    requires p == PathTo(g, p.kind, who, AdminPrefix(role, sp), name) && Listed(g, p.kind, name)
    requires role in Entry(g.identityRoles, who) && role in g.lists.modifyRoles && Registered(g, sp)
    requires name in Entry(if p.kind == AppAdminToPermission then g.spAppRoles else g.spDirectoryRoles, sp)
    ensures AdminFinding(g, who, p, role, sp, name)
  {
    assert p.steps == AdminSteps(role, sp, Step(LastEdge(p.kind), Target(p.kind, name)));
  }

  lemma AdminPathIsFinding(g: TenantGraph, who: string, role: string, p: Path)
    requires (p.kind == AppAdminToPermission || p.kind == AppAdminToRole) && IsPath(g, who, p) && ByRole(p, role)
    ensures exists sp, name :: AdminFinding(g, who, p, role, sp, name)
  {
    var sp, name := AdminNodes(g, who, role, p);
    RegisteredExactly(g, sp);
    AdminFindingOf(g, who, p, role, sp, name);
  }

  lemma SomeRole(g: TenantGraph, who: string, p: Path) returns (role: string)
    requires (p.kind == AppAdminToPermission || p.kind == AppAdminToRole) && IsPath(g, who, p)
    ensures ByRole(p, role)
  {
    FourSteps(g, Identity(who), p.steps);
    role := p.steps[0].node.name;
  }

  /** A chain of tenant edges of one of the eight shapes to a listed end is a finding, and conversely. */
  lemma FindingsArePaths(g: TenantGraph, who: string, p: Path)
    ensures Finding(g, who, p) <==> IsPath(g, who, p)
  {
    match p.kind
    case AppOwnerToPermission => AppFindings(g, who, p);
    case AppOwnerToRole => AppFindings(g, who, p);
    case GroupOwnerToRole => GroupFindings(g, who, p);
    case GroupMemberToRole => GroupFindings(g, who, p);
    case SpOwnerToPermission => SpFindings(g, who, p);
    case SpOwnerToRole => SpFindings(g, who, p);
    case AppAdminToPermission => AdminFindings(g, who, p);
    case AppAdminToRole => AdminFindings(g, who, p);
  }

  lemma AdminFindings(g: TenantGraph, who: string, p: Path)
    requires p.kind == AppAdminToPermission || p.kind == AppAdminToRole
    ensures Finding(g, who, p) <==> IsPath(g, who, p)
  {
    if role, sp, name :| AdminFinding(g, who, p, role, sp, name) {
      AdminFindingIsPath(g, who, p, role, sp, name);
    }
    if IsPath(g, who, p) {
      var role := SomeRole(g, who, p);
      AdminPathIsFinding(g, who, role, p);
    }
  }

  /** The list holds exactly the findings of these two kinds. */
  ghost predicate FindingsOf(g: TenantGraph, who: string, a: Kind, b: Kind, paths: seq<Path>) {
    forall p :: p in paths <==> Finding(g, who, p) && (p.kind == a || p.kind == b)
  }

  lemma PathsFound(g: TenantGraph, who: string, a: Kind, b: Kind, paths: seq<Path>)
    requires forall p :: p in paths <==> IsPath(g, who, p) && (p.kind == a || p.kind == b)
    ensures FindingsOf(g, who, a, b, paths)
  {
    forall p ensures p in paths <==> Finding(g, who, p) && (p.kind == a || p.kind == b) {
      FindingsArePaths(g, who, p);
    }
  }

  /** A finding; one of an application administrator by the role that stands for all such roles. */
  ghost predicate Reported(g: TenantGraph, who: string, role: string, p: Path) {
    && Finding(g, who, p)
    && (p.kind == AppAdminToPermission || p.kind == AppAdminToRole ==>
          exists sp, name :: AdminFinding(g, who, p, role, sp, name))
  }

  lemma ReportedExactly(g: TenantGraph, who: string, role: string, p: Path)
    ensures Reported(g, who, role, p) <==> IsPath(g, who, p) && ByRole(p, role)
  {
    FindingsArePaths(g, who, p);
    if (p.kind == AppAdminToPermission || p.kind == AppAdminToRole) && IsPath(g, who, p) {
      AdminRoleOf(g, who, role, p);
    }
  }

  lemma AdminRoleOf(g: TenantGraph, who: string, role: string, p: Path)
    requires (p.kind == AppAdminToPermission || p.kind == AppAdminToRole) && IsPath(g, who, p)
    ensures ByRole(p, role) <==> exists sp, name :: AdminFinding(g, who, p, role, sp, name)
  {
    if ByRole(p, role) {
      AdminPathIsFinding(g, who, role, p);
    }
    if sp, name :| AdminFinding(g, who, p, role, sp, name) {
      assert p.steps[0].node == DirectoryRole(role);
    }
  }

  // ---- The finders ----

  function Target(kind: Kind, name: string): Node {
    if EndsInPermission(kind) then Permission(name) else DirectoryRole(name)
  }

  function LastEdge(kind: Kind): EdgeType {
    Shape(kind)[|Shape(kind)| - 1]
  }

  function PathTo(g: TenantGraph, kind: Kind, who: string, prefix: seq<Step>, name: string): Path {
    Path(kind, who, prefix + [Step(LastEdge(kind), Target(kind, name))], RiskOf(g, kind, name))
  }

  /** The path reaches one of the listed names behind the prefix. */
  predicate EndsOf(g: TenantGraph, kind: Kind, who: string, prefix: seq<Step>, names: seq<string>, p: Path) {
    exists name | name in names :: Listed(g, kind, name) && p == PathTo(g, kind, who, prefix, name)
  }

  /** The innermost loop: one path for each listed permission or role at the end of a common prefix. */
  method AddEnds(g: TenantGraph, kind: Kind, who: string, prefix: seq<Step>, names: seq<string>, paths: seq<Path>)
    returns (r: seq<Path>)
    ensures forall p :: p in r <==> p in paths || EndsOf(g, kind, who, prefix, names, p)
  {
    r := paths;
    for k := 0 to |names|
      invariant forall p :: p in r <==> p in paths || EndsOf(g, kind, who, prefix, names[..k], p)
    {
      assert names[..k + 1] == names[..k] + [names[k]];
      if Listed(g, kind, names[k]) {
        r := r + [PathTo(g, kind, who, prefix, names[k])];
      }
    }
    assert names[..|names|] == names;
  }

  function AppPrefix(app: string, sp: string): seq<Step> {
    [Step(OwnsApp, Application(app)), Step(AppHasSp, ServicePrincipal(sp))]
  }

  /** The path starts with ownership of the application of this entry. */
  predicate FromApp(g: TenantGraph, who: string, entry: (string, seq<string>), p: Path) {
    who in entry.1 && SpOf(g, entry.0).Some? &&
    var sp := SpOf(g, entry.0).value;
    EndsOf(g, AppOwnerToPermission, who, AppPrefix(entry.0, sp), Entry(g.spAppRoles, sp), p) ||
    EndsOf(g, AppOwnerToRole, who, AppPrefix(entry.0, sp), Entry(g.spDirectoryRoles, sp), p)
  }

  lemma TwoSteps(g: TenantGraph, from: Node, steps: seq<Step>)
    requires |steps| == 2
    ensures Linked(g, from, steps) <==>
            Edge(g, from, steps[0].edge, steps[0].node) && Edge(g, steps[0].node, steps[1].edge, steps[1].node)
  {
    var rest := steps[1..];
    assert rest[1..] == [] && Linked(g, rest[0].node, rest[1..]);
    assert Linked(g, steps[0].node, rest) <==> Edge(g, steps[0].node, rest[0].edge, rest[0].node);
  }

  lemma ThreeSteps(g: TenantGraph, from: Node, steps: seq<Step>)
    requires |steps| == 3
    ensures Linked(g, from, steps) <==>
            && Edge(g, from, steps[0].edge, steps[0].node) && Edge(g, steps[0].node, steps[1].edge, steps[1].node)
            && Edge(g, steps[1].node, steps[2].edge, steps[2].node)
  {
    TwoSteps(g, steps[0].node, steps[1..]);
  }

  lemma AppOwnerSound(g: TenantGraph, who: string, i: nat, p: Path)
    requires i < |g.appOwners| && FromApp(g, who, g.appOwners[i], p)
    ensures IsPath(g, who, p) && (p.kind == AppOwnerToPermission || p.kind == AppOwnerToRole)
  {
    assert |p.steps| == 3;
    ThreeSteps(g, Identity(who), p.steps);
  }

  lemma AppOwnerComplete(g: TenantGraph, who: string, p: Path)
    requires IsPath(g, who, p) && (p.kind == AppOwnerToPermission || p.kind == AppOwnerToRole)
    ensures exists i | 0 <= i < |g.appOwners| :: FromApp(g, who, g.appOwners[i], p)
  {
    ThreeSteps(g, Identity(who), p.steps);
    var app, sp, end := p.steps[0].node.id, p.steps[1].node.id, p.steps[2].node;
    var i :| 0 <= i < |g.appOwners| && g.appOwners[i].0 == app && who in g.appOwners[i].1;
    assert p == PathTo(g, p.kind, who, AppPrefix(app, sp), TargetName(end)) by {
      assert p.steps == [p.steps[0], p.steps[1]] + [p.steps[2]];
    }
    assert FromApp(g, who, g.appOwners[i], p);
  }

  /** `_find_app_ownership_paths` */
  method FindAppOwnershipPaths(g: TenantGraph, who: string) returns (paths: seq<Path>)
    ensures forall p :: p in paths <==>
            IsPath(g, who, p) && (p.kind == AppOwnerToPermission || p.kind == AppOwnerToRole)
    ensures FindingsOf(g, who, AppOwnerToPermission, AppOwnerToRole, paths)
  {
    paths := [];
    for k := 0 to |g.appOwners|
      invariant forall p :: p in paths <==> exists i | 0 <= i < k :: FromApp(g, who, g.appOwners[i], p)
    {
      var (app, owners) := g.appOwners[k];
      if who !in owners || SpOf(g, app).None? {
        continue;
      }
      var sp := SpOf(g, app).value;
      paths := AddEnds(g, AppOwnerToPermission, who, AppPrefix(app, sp), Entry(g.spAppRoles, sp), paths);
      paths := AddEnds(g, AppOwnerToRole, who, AppPrefix(app, sp), Entry(g.spDirectoryRoles, sp), paths);
    }
    forall p ensures p in paths <==> IsPath(g, who, p) && (p.kind == AppOwnerToPermission || p.kind == AppOwnerToRole) {
      if p in paths {
        var i :| 0 <= i < |g.appOwners| && FromApp(g, who, g.appOwners[i], p);
        AppOwnerSound(g, who, i, p);
      }
      if IsPath(g, who, p) && (p.kind == AppOwnerToPermission || p.kind == AppOwnerToRole) {
        AppOwnerComplete(g, who, p);
      }
    }
    PathsFound(g, who, AppOwnerToPermission, AppOwnerToRole, paths);
  }

  // ---- Groups ----

  predicate FromGroup(g: TenantGraph, kind: Kind, who: string, group: string, p: Path) {
    EndsOf(g, kind, who, [Step(Shape(kind)[0], Group(group))], Entry(g.groupRoles, group), p)
  }

  predicate OwnedGroup(g: TenantGraph, who: string, entry: (string, seq<string>), p: Path) {
    who in entry.1 && FromGroup(g, GroupOwnerToRole, who, entry.0, p)
  }

  lemma GroupPath(g: TenantGraph, kind: Kind, who: string, group: string, p: Path)
    requires kind == GroupOwnerToRole || kind == GroupMemberToRole
    requires Edge(g, Identity(who), Shape(kind)[0], Group(group))
    ensures FromGroup(g, kind, who, group, p) <==>
            IsPath(g, who, p) && p.kind == kind && p.steps[0].node == Group(group)
  {
    if FromGroup(g, kind, who, group, p) || (IsPath(g, who, p) && p.kind == kind && p.steps[0].node == Group(group)) {
      assert |p.steps| == 2;
      TwoSteps(g, Identity(who), p.steps);
      assert p.steps == [p.steps[0]] + [p.steps[1]];
    }
    if IsPath(g, who, p) && p.kind == kind && p.steps[0].node == Group(group) {
      assert p == PathTo(g, kind, who, [Step(Shape(kind)[0], Group(group))], TargetName(p.steps[1].node));
    }
  }

  /** `_find_group_paths` */
  method FindGroupPaths(g: TenantGraph, who: string) returns (paths: seq<Path>)
    ensures forall p :: p in paths <==> IsPath(g, who, p) && (p.kind == GroupOwnerToRole || p.kind == GroupMemberToRole)
    ensures FindingsOf(g, who, GroupOwnerToRole, GroupMemberToRole, paths)
  {
    paths := [];
    for k := 0 to |g.groupOwners|
      invariant forall p :: p in paths <==> exists i | 0 <= i < k :: OwnedGroup(g, who, g.groupOwners[i], p)
    {
      var (group, owners) := g.groupOwners[k];
      if who in owners {
        paths := AddEnds(g, GroupOwnerToRole, who, [Step(OwnsGroup, Group(group))], Entry(g.groupRoles, group), paths);
      }
    }
    ghost var owned := paths;
    var groups := Entry(g.identityGroups, who);
    for k := 0 to |groups|
      invariant forall p :: p in paths <==>
                  p in owned || exists i | 0 <= i < k :: FromGroup(g, GroupMemberToRole, who, groups[i], p)
    {
      paths := AddEnds(g, GroupMemberToRole, who, [Step(MemberOfGroup, Group(groups[k]))],
                       Entry(g.groupRoles, groups[k]), paths);
    }
    forall p ensures p in owned <==> IsPath(g, who, p) && p.kind == GroupOwnerToRole {
      OwnedGroupPaths(g, who, p);
    }
    forall p ensures (exists i | 0 <= i < |groups| :: FromGroup(g, GroupMemberToRole, who, groups[i], p)) <==>
                     IsPath(g, who, p) && p.kind == GroupMemberToRole
    {
      MemberGroupPaths(g, who, p);
    }
    PathsFound(g, who, GroupOwnerToRole, GroupMemberToRole, paths);
  }

  lemma OwnedGroupPaths(g: TenantGraph, who: string, p: Path)
    ensures (exists i | 0 <= i < |g.groupOwners| :: OwnedGroup(g, who, g.groupOwners[i], p)) <==>
            IsPath(g, who, p) && p.kind == GroupOwnerToRole
  {
    if i :| 0 <= i < |g.groupOwners| && OwnedGroup(g, who, g.groupOwners[i], p) {
      GroupPath(g, GroupOwnerToRole, who, g.groupOwners[i].0, p);
    }
    if IsPath(g, who, p) && p.kind == GroupOwnerToRole {
      var group := p.steps[0].node.id;
      var i :| 0 <= i < |g.groupOwners| && g.groupOwners[i].0 == group && who in g.groupOwners[i].1;
      GroupPath(g, GroupOwnerToRole, who, group, p);
      assert OwnedGroup(g, who, g.groupOwners[i], p);
    }
  }

  lemma MemberGroupPaths(g: TenantGraph, who: string, p: Path)
    ensures var groups := Entry(g.identityGroups, who);
            (exists i | 0 <= i < |groups| :: FromGroup(g, GroupMemberToRole, who, groups[i], p)) <==>
            IsPath(g, who, p) && p.kind == GroupMemberToRole
  {
    var groups := Entry(g.identityGroups, who);
    if i :| 0 <= i < |groups| && FromGroup(g, GroupMemberToRole, who, groups[i], p) {
      GroupPath(g, GroupMemberToRole, who, groups[i], p);
    }
    if IsPath(g, who, p) && p.kind == GroupMemberToRole {
      var group := p.steps[0].node.id;
      var i :| 0 <= i < |groups| && groups[i] == group;
      GroupPath(g, GroupMemberToRole, who, group, p);
      assert FromGroup(g, GroupMemberToRole, who, groups[i], p);
    }
  }

  // ---- Service principals ----

  predicate FromSp(g: TenantGraph, who: string, entry: (string, seq<string>), p: Path) {
    who in entry.1 &&
    var prefix := [Step(OwnsSp, ServicePrincipal(entry.0))];
    (EndsOf(g, SpOwnerToPermission, who, prefix, Entry(g.spAppRoles, entry.0), p) ||
     EndsOf(g, SpOwnerToRole, who, prefix, Entry(g.spDirectoryRoles, entry.0), p))
  }

  lemma SpOwnerSound(g: TenantGraph, who: string, i: nat, p: Path)
    requires i < |g.spOwners| && FromSp(g, who, g.spOwners[i], p)
    ensures IsPath(g, who, p) && (p.kind == SpOwnerToPermission || p.kind == SpOwnerToRole)
  {
    assert |p.steps| == 2;
    TwoSteps(g, Identity(who), p.steps);
  }

  lemma SpOwnerComplete(g: TenantGraph, who: string, p: Path)
    requires IsPath(g, who, p) && (p.kind == SpOwnerToPermission || p.kind == SpOwnerToRole)
    ensures exists i | 0 <= i < |g.spOwners| :: FromSp(g, who, g.spOwners[i], p)
  {
    TwoSteps(g, Identity(who), p.steps);
    var sp, end := p.steps[0].node.id, p.steps[1].node;
    var i :| 0 <= i < |g.spOwners| && g.spOwners[i].0 == sp && who in g.spOwners[i].1;
    assert p == PathTo(g, p.kind, who, [Step(OwnsSp, ServicePrincipal(sp))], TargetName(end)) by {
      assert p.steps == [p.steps[0]] + [p.steps[1]];
    }
    assert FromSp(g, who, g.spOwners[i], p);
  }

  /** `_find_sp_ownership_paths` */
  method FindSpOwnershipPaths(g: TenantGraph, who: string) returns (paths: seq<Path>)
    ensures forall p :: p in paths <==> IsPath(g, who, p) && (p.kind == SpOwnerToPermission || p.kind == SpOwnerToRole)
    ensures FindingsOf(g, who, SpOwnerToPermission, SpOwnerToRole, paths)
  {
    paths := [];
    for k := 0 to |g.spOwners|
      invariant forall p :: p in paths <==> exists i | 0 <= i < k :: FromSp(g, who, g.spOwners[i], p)
    {
      var (sp, owners) := g.spOwners[k];
      if who in owners {
        var prefix := [Step(OwnsSp, ServicePrincipal(sp))];
        paths := AddEnds(g, SpOwnerToPermission, who, prefix, Entry(g.spAppRoles, sp), paths);
        paths := AddEnds(g, SpOwnerToRole, who, prefix, Entry(g.spDirectoryRoles, sp), paths);
      }
    }
    forall p ensures p in paths <==> IsPath(g, who, p) && (p.kind == SpOwnerToPermission || p.kind == SpOwnerToRole) {
      if p in paths {
        var i :| 0 <= i < |g.spOwners| && FromSp(g, who, g.spOwners[i], p);
        SpOwnerSound(g, who, i, p);
      }
      if IsPath(g, who, p) && (p.kind == SpOwnerToPermission || p.kind == SpOwnerToRole) {
        SpOwnerComplete(g, who, p);
      }
    }
    PathsFound(g, who, SpOwnerToPermission, SpOwnerToRole, paths);
  }

  // ---- Application administrators ----

  function AdminPrefix(role: string, sp: string): seq<Step> {
    [Step(HasDirectoryRole, DirectoryRole(role)), Step(CanModifyAnyApp, AnyApplication),
     Step(AppHasSp, ServicePrincipal(sp))]
  }

  predicate ViaApp(g: TenantGraph, who: string, role: string, app: App, p: Path) {
    app.appId in g.spByAppId &&
    var sp := g.spByAppId[app.appId];
    EndsOf(g, AppAdminToPermission, who, AdminPrefix(role, sp), Entry(g.spAppRoles, sp), p) ||
    EndsOf(g, AppAdminToRole, who, AdminPrefix(role, sp), Entry(g.spDirectoryRoles, sp), p)
  }

  lemma FourSteps(g: TenantGraph, from: Node, steps: seq<Step>)
    requires |steps| == 4
    ensures Linked(g, from, steps) <==>
            && Edge(g, from, steps[0].edge, steps[0].node) && Edge(g, steps[0].node, steps[1].edge, steps[1].node)
            && Edge(g, steps[1].node, steps[2].edge, steps[2].node) &&
              Edge(g, steps[2].node, steps[3].edge, steps[3].node)
  {
    ThreeSteps(g, steps[0].node, steps[1..]);
  }

  lemma AdminPathTo(g: TenantGraph, who: string, role: string, app: App, kind: Kind, name: string)
    requires role in Entry(g.identityRoles, who) && role in g.lists.modifyRoles
    requires app in g.apps && app.appId in g.spByAppId && Listed(g, kind, name)
    requires (kind == AppAdminToPermission && name in Entry(g.spAppRoles, g.spByAppId[app.appId])) ||
             (kind == AppAdminToRole && name in Entry(g.spDirectoryRoles, g.spByAppId[app.appId]))
    ensures IsPath(g, who, PathTo(g, kind, who, AdminPrefix(role, g.spByAppId[app.appId]), name))
  {
    var p := PathTo(g, kind, who, AdminPrefix(role, g.spByAppId[app.appId]), name);
    FourSteps(g, Identity(who), p.steps);
    assert Edge(g, AnyApplication, AppHasSp, ServicePrincipal(g.spByAppId[app.appId]));
  }

  lemma AdminSound(g: TenantGraph, who: string, role: string, i: nat, p: Path)
    requires role in Entry(g.identityRoles, who) && role in g.lists.modifyRoles
    requires i < |g.apps| && ViaApp(g, who, role, g.apps[i], p)
    ensures IsPath(g, who, p) && (p.kind == AppAdminToPermission || p.kind == AppAdminToRole) && ByRole(p, role)
  {
    var sp := g.spByAppId[g.apps[i].appId];
    assert g.apps[i] in g.apps;
    if EndsOf(g, AppAdminToPermission, who, AdminPrefix(role, sp), Entry(g.spAppRoles, sp), p) {
      var name :| name in Entry(g.spAppRoles, sp) && Listed(g, AppAdminToPermission, name) &&
                  p == PathTo(g, AppAdminToPermission, who, AdminPrefix(role, sp), name);
      AdminPathTo(g, who, role, g.apps[i], AppAdminToPermission, name);
    } else {
      var name :| name in Entry(g.spDirectoryRoles, sp) && Listed(g, AppAdminToRole, name) &&
                  p == PathTo(g, AppAdminToRole, who, AdminPrefix(role, sp), name);
      AdminPathTo(g, who, role, g.apps[i], AppAdminToRole, name);
    }
  }

  /** The nodes of an administrator's path. */
  lemma AdminNodes(g: TenantGraph, who: string, role: string, p: Path) returns (sp: string, name: string)
    requires IsPath(g, who, p) && (p.kind == AppAdminToPermission || p.kind == AppAdminToRole) && ByRole(p, role)
    ensures role in Entry(g.identityRoles, who) && role in g.lists.modifyRoles
    ensures Edge(g, AnyApplication, AppHasSp, ServicePrincipal(sp)) && Listed(g, p.kind, name)
    ensures name in Entry(if p.kind == AppAdminToPermission then g.spAppRoles else g.spDirectoryRoles, sp)
    ensures p == PathTo(g, p.kind, who, AdminPrefix(role, sp), name)
  {
    FourSteps(g, Identity(who), p.steps);
    sp, name := p.steps[2].node.id, TargetName(p.steps[3].node);
    assert p.steps == AdminPrefix(role, sp) + [p.steps[3]];
  }

  lemma AdminComplete(g: TenantGraph, who: string, role: string, p: Path)
    requires IsPath(g, who, p) && (p.kind == AppAdminToPermission || p.kind == AppAdminToRole) && ByRole(p, role)
    ensures exists i | 0 <= i < |g.apps| :: ViaApp(g, who, role, g.apps[i], p)
    ensures role in Entry(g.identityRoles, who) && role in g.lists.modifyRoles
  {
    var sp, name := AdminNodes(g, who, role, p);
    var a :| a in g.apps && a.appId in g.spByAppId && g.spByAppId[a.appId] == sp;
    var i :| 0 <= i < |g.apps| && g.apps[i] == a;
    assert ViaApp(g, who, role, g.apps[i], p);
  }

  predicate IsAdminPath(g: TenantGraph, who: string, role: string, p: Path) {
    IsPath(g, who, p) && (p.kind == AppAdminToPermission || p.kind == AppAdminToRole) && ByRole(p, role)
  }

  lemma NoAdminNoPath(g: TenantGraph, who: string, role: string, p: Path)
    requires forall r | r in g.lists.modifyRoles :: r !in Entry(g.identityRoles, who)
    ensures !IsAdminPath(g, who, role, p)
  {
    if IsAdminPath(g, who, role, p) {
      AdminComplete(g, who, role, p);
    }
  }

  lemma AdminPathsFound(g: TenantGraph, who: string, role: string, paths: seq<Path>)
    requires forall p :: p in paths <==> IsAdminPath(g, who, role, p)
    ensures forall p :: p in paths <==>
            Reported(g, who, role, p) && (p.kind == AppAdminToPermission || p.kind == AppAdminToRole)
  {
    forall p
      ensures p in paths <==>
              Reported(g, who, role, p) && (p.kind == AppAdminToPermission || p.kind == AppAdminToRole)
    {
      ReportedExactly(g, who, role, p);
    }
  }

  /** `_find_implicit_role_paths`: of the roles that may modify applications one, whichever the set gives first,
      stands for all. */
  method FindImplicitRolePaths(g: TenantGraph, who: string) returns (paths: seq<Path>, role: string)
    ensures forall p :: p in paths <==> IsAdminPath(g, who, role, p)
    ensures forall p :: p in paths <==>
            Reported(g, who, role, p) && (p.kind == AppAdminToPermission || p.kind == AppAdminToRole)
    ensures (exists r :: r in Entry(g.identityRoles, who) && r in g.lists.modifyRoles) ==>
              role in Entry(g.identityRoles, who) && role in g.lists.modifyRoles
  {
    paths, role := [], "";
    var names := set r | r in Entry(g.identityRoles, who) && r in g.lists.modifyRoles;
    if names == {} {
      assert forall r | r in g.lists.modifyRoles :: r in Entry(g.identityRoles, who) ==> r in names;
      forall p ensures !IsAdminPath(g, who, role, p) {
        NoAdminNoPath(g, who, role, p);
      }
      AdminPathsFound(g, who, role, paths);
      return;
    }
    var adminRole :| adminRole in names;
    role := adminRole;
    for k := 0 to |g.apps|
      invariant forall p :: p in paths <==> exists i | 0 <= i < k :: ViaApp(g, who, adminRole, g.apps[i], p)
    {
      if g.apps[k].appId in g.spByAppId {
        var sp := g.spByAppId[g.apps[k].appId];
        paths := AddEnds(g, AppAdminToPermission, who, AdminPrefix(adminRole, sp), Entry(g.spAppRoles, sp), paths);
        paths := AddEnds(g, AppAdminToRole, who, AdminPrefix(adminRole, sp), Entry(g.spDirectoryRoles, sp), paths);
      }
    }
    forall p ensures p in paths <==> IsAdminPath(g, who, role, p) {
      if p in paths {
        var i :| 0 <= i < |g.apps| && ViaApp(g, who, adminRole, g.apps[i], p);
        AdminSound(g, who, adminRole, i, p);
      }
      if IsAdminPath(g, who, role, p) {
        AdminComplete(g, who, role, p);
      }
    }
    AdminPathsFound(g, who, role, paths);
  }

  // ---- What is loaded ----

  datatype Profile = Profile(objectId: string, roles: seq<string>, groups: seq<string>, servicePrincipal: bool)

  function LowerAll(names: seq<string>, lower: string -> string): seq<string> {
    seq(|names|, i requires 0 <= i < |names| => lower(names[i]))
  }

  function AdminRole(lower: string -> string, adminRoles: set<string>): string -> bool {
    (n: string) => lower(n) in adminRoles
  }

  /** The lower-cased roles of the last profile with the object id. */
  function RolesOf(profiles: seq<Profile>, id: string, lower: string -> string): seq<string> {
    if profiles == [] then []
    else
      var p := profiles[|profiles| - 1];
      if p.objectId == id then LowerAll(p.roles, lower) else RolesOf(profiles[..|profiles| - 1], id, lower)
  }

  /** The groups of all profiles with the object id. */
  function GroupsOf(profiles: seq<Profile>, id: string): seq<string> {
    if profiles == [] then []
    else
      var p := profiles[|profiles| - 1];
      GroupsOf(profiles[..|profiles| - 1], id) + (if p.objectId == id then p.groups else [])
  }

  /** The administrator roles, spelled as held, of the last service principal with the object id that has any. */
  function SpRolesOf(profiles: seq<Profile>, id: string, lower: string -> string,
                     adminRoles: set<string>): seq<string> {
    if profiles == [] then []
    else
      var p := profiles[|profiles| - 1];
      var held := Filter(AdminRole(lower, adminRoles), p.roles);
      if p.objectId == id && p.servicePrincipal && held != [] then held
      else SpRolesOf(profiles[..|profiles| - 1], id, lower, adminRoles)
  }

  lemma {:induction false} SpRolesAreAdmin(profiles: seq<Profile>, id: string, lower: string -> string,
                                           adminRoles: set<string>)
    ensures forall n | n in SpRolesOf(profiles, id, lower, adminRoles) :: lower(n) in adminRoles
  {
    if profiles != [] {
      SpRolesAreAdmin(profiles[..|profiles| - 1], id, lower, adminRoles);
      var roles := profiles[|profiles| - 1].roles;
      forall n | n in Filter(AdminRole(lower, adminRoles), roles) ensures lower(n) in adminRoles {
        FilterMember(AdminRole(lower, adminRoles), roles, n);
      }
    }
  }

  /** Profile `k` is the last with its object id. */
  predicate LastProfile(profiles: seq<Profile>, k: nat) {
    k < |profiles| && forall j | k < j < |profiles| :: profiles[j].objectId != profiles[k].objectId
  }

  /** Profile `k` is a service principal with an administrator role, and the last such one of its object id. */
  predicate LastAdmin(profiles: seq<Profile>, k: nat, lower: string -> string, adminRoles: set<string>) {
    && k < |profiles| && HoldsAdmin(profiles[k], lower, adminRoles)
    && forall j | k < j < |profiles| && profiles[j].objectId == profiles[k].objectId ::
         !HoldsAdmin(profiles[j], lower, adminRoles)
  }

  predicate HoldsAdmin(p: Profile, lower: string -> string, adminRoles: set<string>) {
    p.servicePrincipal && exists n | n in p.roles :: lower(n) in adminRoles
  }

  /** An object id has the lower-cased roles of its last profile, the groups of all its profiles, and the administrator
      roles, as spelled, of the last of them that is a service principal with any. */
  ghost predicate Loaded(profiles: seq<Profile>, lower: string -> string, adminRoles: set<string>,
                         roles: map<string, seq<string>>, groups: map<string, seq<string>>,
                         spRoles: map<string, seq<string>>) {
    && (forall k: nat | LastProfile(profiles, k) ::
        LowerOf(Entry(roles, profiles[k].objectId), profiles[k].roles, lower))
    && (forall id, n :: n in Entry(groups, id) <==> exists p | p in profiles :: p.objectId == id && n in p.groups)
    && (forall k: nat | LastAdmin(profiles, k, lower, adminRoles) ::
          Entry(spRoles, profiles[k].objectId) == Filter((n: string) => lower(n) in adminRoles, profiles[k].roles))
    && (forall id | Entry(spRoles, id) != [] ::
          exists k: nat :: LastAdmin(profiles, k, lower, adminRoles) && profiles[k].objectId == id)
  }

  predicate LowerOf(names: seq<string>, spelled: seq<string>, lower: string -> string) {
    |names| == |spelled| && forall i | 0 <= i < |names| :: names[i] == lower(spelled[i])
  }

  lemma {:induction false} RolesOfLast(profiles: seq<Profile>, k: nat, lower: string -> string)
    requires LastProfile(profiles, k)
    ensures RolesOf(profiles, profiles[k].objectId, lower) == LowerAll(profiles[k].roles, lower)
    decreases |profiles|
  {
    var n := |profiles| - 1;
    if k < n {
      RolesOfLast(profiles[..n], k, lower);
    }
  }

  lemma {:induction false} GroupsOfAll(profiles: seq<Profile>, id: string, n: string)
    ensures n in GroupsOf(profiles, id) <==> exists p | p in profiles :: p.objectId == id && n in p.groups
    decreases |profiles|
  {
    if profiles != [] {
      var k := |profiles| - 1;
      assert profiles == profiles[..k] + [profiles[k]];
      GroupsOfAll(profiles[..k], id, n);
    }
  }

  lemma AdminFilter(p: Profile, lower: string -> string, adminRoles: set<string>)
    ensures Filter(AdminRole(lower, adminRoles), p.roles) == Filter((n: string) => lower(n) in adminRoles, p.roles)
    ensures p.servicePrincipal ==>
              (Filter(AdminRole(lower, adminRoles), p.roles) != [] <==> HoldsAdmin(p, lower, adminRoles))
  {
    var held := Filter(AdminRole(lower, adminRoles), p.roles);
    FilterSame(AdminRole(lower, adminRoles), (n: string) => lower(n) in adminRoles, p.roles);
    forall n ensures n in held <==> n in p.roles && lower(n) in adminRoles {
      FilterMember(AdminRole(lower, adminRoles), p.roles, n);
    }
    assert held != [] ==> held[0] in held;
  }

  lemma {:induction false} SpRolesOfLast(profiles: seq<Profile>, k: nat, lower: string -> string,
                                         adminRoles: set<string>)
    requires LastAdmin(profiles, k, lower, adminRoles)
    ensures SpRolesOf(profiles, profiles[k].objectId, lower, adminRoles) ==
            Filter((n: string) => lower(n) in adminRoles, profiles[k].roles)
    decreases |profiles|
  {
    var n := |profiles| - 1;
    AdminFilter(profiles[n], lower, adminRoles);
    if k < n {
      SpRolesOfLast(profiles[..n], k, lower, adminRoles);
    }
  }

  lemma {:induction false} SpRolesFrom(profiles: seq<Profile>, id: string, lower: string -> string,
                                       adminRoles: set<string>) returns (k: nat)
    requires SpRolesOf(profiles, id, lower, adminRoles) != []
    ensures LastAdmin(profiles, k, lower, adminRoles) && profiles[k].objectId == id
    decreases |profiles|
  {
    var n := |profiles| - 1;
    AdminFilter(profiles[n], lower, adminRoles);
    if profiles[n].objectId == id && HoldsAdmin(profiles[n], lower, adminRoles) {
      k := n;
    } else {
      k := SpRolesFrom(profiles[..n], id, lower, adminRoles);
    }
  }

  lemma IdentitiesLoaded(profiles: seq<Profile>, lower: string -> string, adminRoles: set<string>,
                         roles: map<string, seq<string>>, groups: map<string, seq<string>>,
                         spRoles: map<string, seq<string>>)
    requires forall id :: Entry(roles, id) == RolesOf(profiles, id, lower)
    requires forall id :: Entry(groups, id) == GroupsOf(profiles, id)
    requires forall id :: Entry(spRoles, id) == SpRolesOf(profiles, id, lower, adminRoles)
    ensures Loaded(profiles, lower, adminRoles, roles, groups, spRoles)
  {
    forall k: nat | LastProfile(profiles, k)
      ensures LowerOf(Entry(roles, profiles[k].objectId), profiles[k].roles, lower)
    {
      RolesOfLast(profiles, k, lower);
    }
    forall id, n ensures n in Entry(groups, id) <==> exists p | p in profiles :: p.objectId == id && n in p.groups {
      GroupsOfAll(profiles, id, n);
    }
    forall k: nat | LastAdmin(profiles, k, lower, adminRoles)
      ensures Entry(spRoles, profiles[k].objectId) == Filter((n: string) => lower(n) in adminRoles, profiles[k].roles)
    {
      SpRolesOfLast(profiles, k, lower, adminRoles);
    }
    forall id | Entry(spRoles, id) != []
      ensures exists k: nat :: LastAdmin(profiles, k, lower, adminRoles) && profiles[k].objectId == id
    {
      var k := SpRolesFrom(profiles, id, lower, adminRoles);
    }
  }

  /** The identities' part of `_load_tenant_graph`. */
  method LoadIdentities(profiles: seq<Profile>, lower: string -> string, adminRoles: set<string>)
    returns (roles: map<string, seq<string>>, groups: map<string, seq<string>>, spRoles: map<string, seq<string>>)
    ensures forall id :: Entry(roles, id) == RolesOf(profiles, id, lower)
    ensures forall id :: Entry(groups, id) == GroupsOf(profiles, id)
    ensures forall id :: Entry(spRoles, id) == SpRolesOf(profiles, id, lower, adminRoles)
    ensures Loaded(profiles, lower, adminRoles, roles, groups, spRoles)
  {
    roles, groups, spRoles := map[], map[], map[];
    for k := 0 to |profiles|
      invariant forall id :: Entry(roles, id) == RolesOf(profiles[..k], id, lower)
      invariant forall id :: Entry(groups, id) == GroupsOf(profiles[..k], id)
      invariant forall id :: Entry(spRoles, id) == SpRolesOf(profiles[..k], id, lower, adminRoles)
    {
      assert profiles[..k + 1][..k] == profiles[..k];
      var p := profiles[k];
      roles := roles[p.objectId := LowerAll(p.roles, lower)];
      groups := groups[p.objectId := Entry(groups, p.objectId) + p.groups];
      var held := Filter(AdminRole(lower, adminRoles), p.roles);
      if p.servicePrincipal && held != [] {
        spRoles := spRoles[p.objectId := held];
      }
    }
    assert profiles[..|profiles|] == profiles;
    IdentitiesLoaded(profiles, lower, adminRoles, roles, groups, spRoles);
  }

  /** In a graph loaded so, every path ends in a high-risk permission or an administrator role. */
  lemma EndsArePrivileged(g: TenantGraph, profiles: seq<Profile>, who: string, p: Path)
    requires forall id :: Entry(g.spDirectoryRoles, id) == SpRolesOf(profiles, id, g.lower, g.lists.adminRoles)
    requires IsPath(g, who, p) && g.lists == LISTS
    ensures var end := p.steps[|p.steps| - 1].node;
            (end.Permission? && end.id in g.lists.highRisk) ||
              (end.DirectoryRole? && g.lower(end.name) in g.lists.adminRoles)
  {
    LinkedAt(g, Identity(who), p.steps, |p.steps| - 1);
    CriticalIsListed();
    var last := |p.steps| - 1;
    if p.steps[last].edge == SpHasDirectoryRole {
      SpRolesAreAdmin(profiles, p.steps[last - 1].node.id, g.lower, g.lists.adminRoles);
    }
  }

  // ---- One identity's analysis ----

  /** The ids joined by the separator. */
  function Join(ids: seq<string>): string {
    if ids == [] then "" else if |ids| == 1 then ids[0] else ids[0] + "|" + Join(ids[1..])
  }

  function KindName(kind: Kind): string {
    match kind
    case AppOwnerToPermission => "app_owner_to_app_perm"
    case AppOwnerToRole => "app_owner_to_dir_role"
    case GroupOwnerToRole => "group_owner_to_role"
    case GroupMemberToRole => "group_member_to_role"
    case SpOwnerToPermission => "sp_owner_to_app_perm"
    case SpOwnerToRole => "sp_owner_to_dir_role"
    case AppAdminToPermission => "app_admin_to_critical_perm"
    case AppAdminToRole => "app_admin_to_critical_role"
  }

  /** What the path id is hashed from: the ids of its nodes and its kind, joined. */
  function IdOf(p: Path): string {
    Join([p.source] + NodeIds(p.steps)) + "|" + KindName(p.kind)
  }

  function NodeId(n: Node): string {
    match n
    case DirectoryRole(name) => "role_" + name
    case AnyApplication => "implicit_can_modify_any_app"
    case Identity(id) => id
    case Application(id) => id
    case ServicePrincipal(id) => id
    case Group(id) => id
    case Permission(id) => id
  }

  function NodeIds(steps: seq<Step>): (r: seq<string>)
    ensures |r| == |steps| && forall i | 0 <= i < |steps| :: r[i] == NodeId(steps[i].node)
  {
    if steps == [] then [] else [NodeId(steps[0].node)] + NodeIds(steps[1..])
  }

  lemma RoleIdTellsName(a: string, b: string)
    requires "role_" + a == "role_" + b
    ensures a == b
  {
    assert ("role_" + a)[5..] == a && ("role_" + b)[5..] == b;
  }

  /** Two edges of one type end in nodes of one sort, except that all application administrators share a node. */
  lemma SameEdgeSameNode(g: TenantGraph, x: Node, y: Node, edge: EdgeType, m: Node, n: Node)
    requires Edge(g, x, edge, m) && Edge(g, y, edge, n) && NodeId(m) == NodeId(n)
    ensures m == n
  {
    if m.DirectoryRole? && n.DirectoryRole? {
      RoleIdTellsName(m.name, n.name);
    }
  }

  lemma {:induction false} LinkedAt(g: TenantGraph, from: Node, steps: seq<Step>, i: nat)
    requires Linked(g, from, steps) && i < |steps|
    ensures Edge(g, if i == 0 then from else steps[i - 1].node, steps[i].edge, steps[i].node)
    decreases i
  {
    if i > 0 {
      LinkedAt(g, steps[0].node, steps[1..], i - 1);
    }
  }

  // ---- What the joined ids tell ----

  predicate Plain(id: string) {
    '|' !in id
  }

  /** What stands before the first separator. */
  lemma FirstPart(a: string, b: string, x: string, y: string)
    requires Plain(a) && Plain(b) && a + "|" + x == b + "|" + y
    ensures a == b && x == y
  {
    var s := a + "|" + x;
    assert s[|a|] == '|' && s[|b|] == '|';
    assert forall i | 0 <= i < |a| :: s[i] == a[i] && a[i] in a;
    assert forall i | 0 <= i < |b| :: s[i] == b[i] && b[i] in b;
    assert |a| == |b|;
    assert a == s[..|a|] && b == s[..|b|];
    assert x == s[|a| + 1..] && y == s[|b| + 1..];
  }

  /** What stands behind the last separator. */
  lemma LastPart(x: string, y: string, a: string, b: string)
    requires Plain(a) && Plain(b) && x + "|" + a == y + "|" + b
    ensures x == y && a == b
  {
    var s := x + "|" + a;
    LastBar(x, a);
    LastBar(y, b);
    assert |x| == |y|;
    assert x == s[..|x|] && y == s[..|y|];
    assert a == s[|x| + 1..] && b == s[|y| + 1..];
  }

  lemma LastBar(x: string, a: string)
    requires Plain(a)
    ensures var s := x + "|" + a;
            |x| < |s| && s[|x|] == '|' && forall i | |x| < i < |s| :: s[i] != '|'
  {
    var s := x + "|" + a;
    forall i | |x| < i < |s| ensures s[i] != '|' {
      assert s[i] == a[i - |x| - 1] && a[i - |x| - 1] in a;
    }
  }

  lemma KindsDiffer(a: Kind, b: Kind)
    requires KindName(a) == KindName(b)
    ensures a == b
  {
    assert KindName(a)[0] == KindName(b)[0] && |KindName(a)| == |KindName(b)|;
    assert KindName(a)[6] == KindName(b)[6] && KindName(a)[|KindName(a)| - 1] == KindName(b)[|KindName(b)| - 1];
    assert KindName(a)[|KindName(a)| - 4] == KindName(b)[|KindName(b)| - 4];
  }

  lemma KindIsPlain(kind: Kind)
    ensures Plain(KindName(kind))
  {
  }

  /** Joined ids are told apart when none but the last holds the separator. */
  lemma {:induction false} JoinTells(a: seq<string>, b: seq<string>)
    requires |a| == |b| > 0 && Join(a) == Join(b)
    requires forall i | 0 <= i < |a| - 1 :: Plain(a[i]) && Plain(b[i])
    ensures a == b
  {
    if |a| > 1 {
      FirstPart(a[0], b[0], Join(a[1..]), Join(b[1..]));
      JoinTells(a[1..], b[1..]);
      assert a == [a[0]] + a[1..] && b == [b[0]] + b[1..];
    }
  }

  lemma JoinOneMore(id: string, ids: seq<string>)
    requires ids != []
    ensures Join([id] + ids) == id + "|" + Join(ids)
  {
    assert ([id] + ids)[1..] == ids;
  }

  /** No application, service principal, group or role that modifies applications has the separator in its id. */
  predicate PlainIds(g: TenantGraph) {
    && (forall i | 0 <= i < |g.appOwners| :: Plain(g.appOwners[i].0))
    && (forall i | 0 <= i < |g.spOwners| :: Plain(g.spOwners[i].0))
    && (forall i | 0 <= i < |g.groupOwners| :: Plain(g.groupOwners[i].0))
    && (forall who | who in g.identityGroups :: forall id | id in g.identityGroups[who] :: Plain(id))
    && (forall appId | appId in g.spByAppId :: Plain(g.spByAppId[appId]))
    && (forall role | role in g.lists.modifyRoles :: Plain(role))
  }

  /** Edges that do not end in a permission or role end in such an id. */
  predicate Inner(edge: EdgeType) {
    edge == OwnsApp || edge == AppHasSp || edge == OwnsGroup || edge == MemberOfGroup || edge == OwnsSp ||
      edge == CanModifyAnyApp
  }

  lemma InnerEdge(g: TenantGraph, x: Node, edge: EdgeType, y: Node)
    requires PlainIds(g) && Edge(g, x, edge, y) && Inner(edge)
    ensures Plain(NodeId(y))
  {
    if edge == MemberOfGroup {
      assert x.id in g.identityGroups && y.id in g.identityGroups[x.id];
    }
  }

  lemma RoleEdge(g: TenantGraph, x: Node, y: Node)
    requires PlainIds(g) && Edge(g, x, CanModifyAnyApp, y)
    ensures Plain(NodeId(x))
  {
    assert NodeId(x) == "role_" + x.name;
  }

  lemma InnerShape(kind: Kind, i: nat)
    requires i < |Shape(kind)| - 1
    ensures Inner(Shape(kind)[i]) || (Shape(kind)[i] == HasDirectoryRole && Shape(kind)[i + 1] == CanModifyAnyApp)
  {
  }

  /** On a path every node but the last has such an id. */
  lemma InnerIsPlain(g: TenantGraph, who: string, p: Path, i: nat)
    requires PlainIds(g) && IsPath(g, who, p) && i < |p.steps| - 1
    ensures Plain(NodeId(p.steps[i].node))
  {
    InnerShape(p.kind, i);
    LinkedAt(g, Identity(who), p.steps, i);
    if Inner(p.steps[i].edge) {
      InnerEdge(g, if i == 0 then Identity(who) else p.steps[i - 1].node, p.steps[i].edge, p.steps[i].node);
    } else {
      LinkedAt(g, Identity(who), p.steps, i + 1);
      RoleEdge(g, p.steps[i].node, p.steps[i + 1].node);
    }
  }

  lemma KindPart(p: Path, q: Path)
    requires IdOf(p) == IdOf(q)
    ensures p.kind == q.kind && Join([p.source] + NodeIds(p.steps)) == Join([q.source] + NodeIds(q.steps))
  {
    KindIsPlain(p.kind);
    KindIsPlain(q.kind);
    LastPart(Join([p.source] + NodeIds(p.steps)), Join([q.source] + NodeIds(q.steps)), KindName(p.kind),
             KindName(q.kind));
    KindsDiffer(p.kind, q.kind);
  }

  lemma NodesPart(who: string, a: seq<string>, b: seq<string>)
    requires |a| == |b| > 0 && Join([who] + a) == Join([who] + b)
    requires forall i | 0 <= i < |a| - 1 :: Plain(a[i]) && Plain(b[i])
    ensures a == b
  {
    JoinOneMore(who, a);
    JoinOneMore(who, b);
    SamePrefix(who + "|", Join(a), Join(b));
    JoinTells(a, b);
  }

  /** Equal ids of one identity's paths come from equal kinds and equal nodes. */
  lemma IdParts(g: TenantGraph, who: string, p: Path, q: Path)
    requires PlainIds(g) && IsPath(g, who, p) && IsPath(g, who, q) && IdOf(p) == IdOf(q)
    ensures p.kind == q.kind && NodeIds(p.steps) == NodeIds(q.steps)
  {
    KindPart(p, q);
    var a, b := NodeIds(p.steps), NodeIds(q.steps);
    forall i | 0 <= i < |a| - 1 ensures Plain(a[i]) && Plain(b[i]) {
      InnerIsPlain(g, who, p, i);
      InnerIsPlain(g, who, q, i);
    }
    NodesPart(who, a, b);
  }

  lemma SamePrefix(x: string, a: string, b: string)
    requires x + a == x + b
    ensures a == b
  {
    assert a == (x + a)[|x|..] && b == (x + b)[|x|..];
  }

  /** Among the paths of one identity the id tells paths apart, if no id in the graph holds the separator; the
      permission or role at the end may. */
  lemma IdTellsPaths(g: TenantGraph, who: string, p: Path, q: Path)
    requires PlainIds(g) && IsPath(g, who, p) && IsPath(g, who, q) && IdOf(p) == IdOf(q)
    ensures p == q
  {
    IdParts(g, who, p, q);
    SameNodes(g, who, p, q);
  }

  lemma SameNodes(g: TenantGraph, who: string, p: Path, q: Path)
    requires IsPath(g, who, p) && IsPath(g, who, q) && p.kind == q.kind && NodeIds(p.steps) == NodeIds(q.steps)
    ensures p == q
  {
    forall i | 0 <= i < |p.steps| ensures p.steps[i] == q.steps[i] {
      LinkedAt(g, Identity(who), p.steps, i);
      LinkedAt(g, Identity(who), q.steps, i);
      assert NodeId(p.steps[i].node) == NodeIds(p.steps)[i] == NodeIds(q.steps)[i] == NodeId(q.steps[i].node);
      SameEdgeSameNode(g, if i == 0 then Identity(who) else p.steps[i - 1].node,
                       if i == 0 then Identity(who) else q.steps[i - 1].node,
                       p.steps[i].edge, p.steps[i].node, q.steps[i].node);
    }
    assert p.steps == q.steps;
  }

  /** With the separator in an application's id two paths can share one: an application `a|b` over a service principal
      `c`, and `a` over `b|c`. */
  function Clashing(who: string, a: string, b: string, c: string, permission: string): TenantGraph {
    TenantGraph([(a + "|" + b, [who]), (a, [who])], [], [], map[], map[], [App("1", a + "|" + b), App("2", a)],
                map["1" := c, "2" := b + "|" + c], map[c := [permission], b + "|" + c := [permission]], map[], map[],
                (name: string) => name, LISTS)
  }

  function OwnedApp(who: string, app: string, sp: string, permission: string, risk: Risk): Path {
    Path(AppOwnerToPermission, who,
         [Step(OwnsApp, Application(app)), Step(AppHasSp, ServicePrincipal(sp)),
          Step(SpHasAppRole, Permission(permission))],
         risk)
  }

  lemma OwnedAppId(who: string, app: string, sp: string, permission: string, risk: Risk)
    ensures IdOf(OwnedApp(who, app, sp, permission, risk)) ==
            who + "|" + (app + "|" + (sp + "|" + permission)) + "|" + KindName(AppOwnerToPermission)
  {
    var p := OwnedApp(who, app, sp, permission, risk);
    var ids := [app, sp, permission];
    assert NodeIds(p.steps) == ids;
    assert ids[1..] == [sp, permission] && [sp, permission][1..] == [permission];
    assert Join([permission]) == permission && Join([sp, permission]) == sp + "|" + permission;
    assert Join(ids) == app + "|" + Join([sp, permission]);
    JoinOneMore(who, ids);
  }

  lemma OwnedAppIsPath(g: TenantGraph, who: string, app: string, sp: string, permission: string)
    requires Owns(g.appOwners, who, app) && SpOf(g, app) == Some(sp) && permission in Entry(g.spAppRoles, sp)
    requires permission in g.lists.highRisk
    ensures IsPath(g, who, OwnedApp(who, app, sp, permission, RiskOf(g, AppOwnerToPermission, permission)))
  {
    var steps := OwnedApp(who, app, sp, permission, HighRisk).steps;
    assert steps[1..][1..] == [steps[2]] && [steps[2]][1..] == [] && steps[1..][0] == steps[1];
    assert Linked(g, ServicePrincipal(sp), [steps[2]]);
    assert Linked(g, Application(app), steps[1..]);
  }

  lemma ClashingEdges(who: string, a: string, b: string, c: string, permission: string)
    ensures var g := Clashing(who, a, b, c, permission);
            && Owns(g.appOwners, who, a + "|" + b) && SpOf(g, a + "|" + b) == Some(c)
            && Owns(g.appOwners, who, a) && SpOf(g, a) == Some(b + "|" + c)
            && permission in Entry(g.spAppRoles, c) && permission in Entry(g.spAppRoles, b + "|" + c)
  {
    var g := Clashing(who, a, b, c, permission);
    assert g.appOwners[0] == (a + "|" + b, [who]) && g.appOwners[1] == (a, [who]);
    assert |a + "|" + b| > |a| && |b + "|" + c| > |c|;
    assert g.apps[1..] == [App("2", a)];
    assert AppWith(g.apps[1..], a) == Some(App("2", a));
  }

  lemma ClashingIds(who: string, a: string, b: string, c: string, permission: string, risk: Risk)
    ensures IdOf(OwnedApp(who, a + "|" + b, c, permission, risk)) ==
            IdOf(OwnedApp(who, a, b + "|" + c, permission, risk))
    ensures OwnedApp(who, a + "|" + b, c, permission, risk) != OwnedApp(who, a, b + "|" + c, permission, risk)
  {
    OwnedAppId(who, a + "|" + b, c, permission, risk);
    OwnedAppId(who, a, b + "|" + c, permission, risk);
    assert a + "|" + b + "|" + (c + "|" + permission) == a + "|" + (b + "|" + c + "|" + permission);
    assert |a + "|" + b| > |a|;
    assert OwnedApp(who, a + "|" + b, c, permission, risk).steps[0].node !=
           OwnedApp(who, a, b + "|" + c, permission, risk).steps[0].node;
  }

  lemma IdsCanClash(who: string, a: string, b: string, c: string, permission: string)
    requires permission in LISTS.highRisk
    ensures var g := Clashing(who, a, b, c, permission);
            exists p, q :: IsPath(g, who, p) && IsPath(g, who, q) && p != q && IdOf(p) == IdOf(q)
  {
    var g := Clashing(who, a, b, c, permission);
    var risk := RiskOf(g, AppOwnerToPermission, permission);
    var p, q := OwnedApp(who, a + "|" + b, c, permission, risk), OwnedApp(who, a, b + "|" + c, permission, risk);
    ClashingEdges(who, a, b, c, permission);
    OwnedAppIsPath(g, who, a + "|" + b, c, permission);
    OwnedAppIsPath(g, who, a, b + "|" + c, permission);
    ClashingIds(who, a, b, c, permission, risk);
  }

  datatype Analysis = Analysis(paths: seq<Path>, critical: nat, high: nat, medium: nat, highest: Risk)

  function WithRisk(risk: Risk): Path -> bool {
    (p: Path) => p.risk == risk
  }

  /** `r` has one of `paths` for each of their ids, which are `seen`. */
  ghost predicate Deduped(idOf: Path -> string, paths: seq<Path>, seen: set<string>, r: seq<Path>) {
    && (forall p | p in r :: p in paths)
    && (forall p | p in paths :: idOf(p) in seen)
    && (forall id | id in seen :: exists q | q in r :: idOf(q) == id)
    && (forall q | q in r :: idOf(q) in seen)
    && (forall i, j | 0 <= i < j < |r| :: idOf(r[i]) != idOf(r[j]))
  }

  lemma DedupedStep(idOf: Path -> string, paths: seq<Path>, p: Path, seen: set<string>, r: seq<Path>)
    requires Deduped(idOf, paths, seen, r)
    ensures if idOf(p) in seen then Deduped(idOf, paths + [p], seen, r)
            else Deduped(idOf, paths + [p], seen + {idOf(p)}, r + [p])
  {
    if idOf(p) !in seen {
      assert forall i | 0 <= i < |r| :: r[i] in r;
      forall id | id in seen + {idOf(p)} ensures exists q | q in r + [p] :: idOf(q) == id {
        if id in seen {
          var q :| q in r && idOf(q) == id;
          assert q in r + [p];
        } else {
          assert p in r + [p];
        }
      }
    }
  }

  /** One of these has the id of `p`. */
  predicate Represented(idOf: Path -> string, p: Path, paths: seq<Path>) {
    exists q | q in paths :: idOf(q) == idOf(p)
  }

  predicate IdsDiffer(idOf: Path -> string, paths: seq<Path>) {
    forall i, j | 0 <= i < j < |paths| :: idOf(paths[i]) != idOf(paths[j])
  }

  /** One path for each id of `paths`, and nothing else. */
  ghost predicate Deduplicated(idOf: Path -> string, paths: seq<Path>, r: seq<Path>) {
    && (forall p | p in r :: p in paths)
    && (forall p | p in paths :: Represented(idOf, p, r))
    && IdsDiffer(idOf, r)
  }

  lemma DedupedAll(idOf: Path -> string, paths: seq<Path>, seen: set<string>, r: seq<Path>)
    requires Deduped(idOf, paths, seen, r)
    ensures Deduplicated(idOf, paths, r)
  {
  }

  /** The deduplicating loop keeps the first path of each id. */
  method Deduplicate(paths: seq<Path>) returns (r: seq<Path>)
    ensures Deduplicated(IdOf, paths, r)
  {
    var seen: set<string> := {};
    r := [];
    for k := 0 to |paths|
      invariant Deduped(IdOf, paths[..k], seen, r)
    {
      assert paths[..k + 1] == paths[..k] + [paths[k]];
      DedupedStep(IdOf, paths[..k], paths[k], seen, r);
      var id := IdOf(paths[k]);
      if id !in seen {
        seen := seen + {id};
        r := r + [paths[k]];
      }
    }
    assert paths[..|paths|] == paths;
    DedupedAll(IdOf, paths, seen, r);
  }

  /** The paths of the identity by that role, and nothing else. */
  ghost predicate AllPaths(g: TenantGraph, who: string, role: string, paths: seq<Path>) {
    forall p :: p in paths <==> IsPath(g, who, p) && ByRole(p, role)
  }

  /** All paths of one identity, possibly repeated. */
  method FindPaths(g: TenantGraph, who: string) returns (paths: seq<Path>, role: string)
    ensures AllPaths(g, who, role, paths)
    ensures (exists r :: r in Entry(g.identityRoles, who) && r in g.lists.modifyRoles) ==>
              role in Entry(g.identityRoles, who) && role in g.lists.modifyRoles
  {
    paths := FindAppOwnershipPaths(g, who);
    var more := FindGroupPaths(g, who);
    paths := paths + more;
    more := FindSpOwnershipPaths(g, who);
    paths := paths + more;
    more, role := FindImplicitRolePaths(g, who);
    paths := paths + more;
  }

  method CountPaths(paths: seq<Path>) returns (analysis: Analysis)
    requires Risky(paths)
    ensures analysis.paths == paths
    ensures analysis.critical + analysis.high == |paths| && analysis.medium == 0
    ensures analysis.critical == Count(WithRisk(CriticalRisk), paths)
    ensures analysis.highest == if exists p | p in paths :: p.risk == CriticalRisk then CriticalRisk
                                else if paths != [] then HighRisk else NoRisk
  {
    var critical := CountRisk(paths, CriticalRisk);
    var high := CountRisk(paths, HighRisk);
    var medium := CountRisk(paths, MediumRisk);
    RisksAddUp(paths);
    CountAsFilter(WithRisk(CriticalRisk), paths);
    ghost var worst := Filter(WithRisk(CriticalRisk), paths);
    forall p ensures p in worst <==> p in paths && p.risk == CriticalRisk {
      FilterMember(WithRisk(CriticalRisk), paths, p);
    }
    assert critical > 0 ==> worst[0] in worst;
    var highest := NoRisk;
    if critical > 0 {
      highest := CriticalRisk;
    } else if high > 0 {
      highest := HighRisk;
    } else if medium > 0 {
      highest := MediumRisk;
    }
    analysis := Analysis(paths, critical, high, medium, highest);
  }

  predicate OwnIds(idOf: Path -> string, paths: seq<Path>) {
    forall p, q | p in paths && q in paths && idOf(p) == idOf(q) :: p == q
  }

  lemma PathsHaveOwnIds(g: TenantGraph, who: string, paths: seq<Path>)
    requires PlainIds(g) && forall p | p in paths :: IsPath(g, who, p)
    ensures OwnIds(IdOf, paths)
  {
    forall p, q | p in paths && q in paths && IdOf(p) == IdOf(q) ensures p == q {
      IdTellsPaths(g, who, p, q);
    }
  }

  lemma NothingLost(idOf: Path -> string, paths: seq<Path>, deduped: seq<Path>)
    requires OwnIds(idOf, paths) && Deduplicated(idOf, paths, deduped)
    ensures forall p | p in paths :: p in deduped
  {
    forall p | p in paths ensures p in deduped {
      assert Represented(idOf, p, deduped);
      var q :| q in deduped && idOf(q) == idOf(p);
      assert q in paths;
    }
  }

  /** These are paths of the identity by that role, one for each id. */
  ghost predicate OnePerId(g: TenantGraph, who: string, role: string, paths: seq<Path>) {
    && (forall p | p in paths :: IsPath(g, who, p) && ByRole(p, role))
    && (forall p | IsPath(g, who, p) && ByRole(p, role) :: Represented(IdOf, p, paths))
    && IdsDiffer(IdOf, paths)
  }

  /** All that is listed is to be reported; all that is to be reported is listed if no inner id holds the separator. */
  ghost predicate ListsReported(g: TenantGraph, who: string, role: string, paths: seq<Path>) {
    && (forall p | p in paths :: Reported(g, who, role, p))
    && (PlainIds(g) ==> forall p | Reported(g, who, role, p) :: p in paths)
  }

  predicate Risky(paths: seq<Path>) {
    forall p | p in paths :: p.risk == CriticalRisk || p.risk == HighRisk
  }

  lemma DedupedOnePerId(g: TenantGraph, who: string, role: string, paths: seq<Path>, deduped: seq<Path>)
    requires AllPaths(g, who, role, paths) && Deduplicated(IdOf, paths, deduped)
    ensures OnePerId(g, who, role, deduped) && Risky(deduped)
  {
  }

  lemma DedupedIsReported(g: TenantGraph, who: string, role: string, paths: seq<Path>, deduped: seq<Path>)
    requires forall p :: p in paths <==> Reported(g, who, role, p)
    requires forall p | p in deduped :: p in paths
    requires PlainIds(g) ==> forall p | p in paths :: p in deduped
    ensures ListsReported(g, who, role, deduped)
  {
  }

  lemma DedupedPaths(g: TenantGraph, who: string, role: string, paths: seq<Path>, deduped: seq<Path>)
    requires AllPaths(g, who, role, paths) && Deduplicated(IdOf, paths, deduped)
    ensures ListsReported(g, who, role, deduped)
  {
    if PlainIds(g) {
      PathsHaveOwnIds(g, who, paths);
      NothingLost(IdOf, paths, deduped);
    }
    forall p ensures p in paths <==> Reported(g, who, role, p) {
      ReportedExactly(g, who, role, p);
    }
    DedupedIsReported(g, who, role, paths, deduped);
  }

  /** The body of `analyze_tenant` for one identity: one path of each id and nothing but paths of the identity, all of
      them if no id holds the separator; the counts add up, and the highest risk is the highest there is. */
  method Analyze(g: TenantGraph, who: string) returns (analysis: Analysis, role: string)
    ensures OnePerId(g, who, role, analysis.paths) && ListsReported(g, who, role, analysis.paths)
    ensures (exists r :: r in Entry(g.identityRoles, who) && r in g.lists.modifyRoles) ==>
              role in Entry(g.identityRoles, who) && role in g.lists.modifyRoles
    ensures analysis.critical + analysis.high == |analysis.paths| && analysis.medium == 0
    ensures analysis.critical == Count(WithRisk(CriticalRisk), analysis.paths)
    ensures analysis.highest == if exists p | p in analysis.paths :: p.risk == CriticalRisk then CriticalRisk
                                else if analysis.paths != [] then HighRisk else NoRisk
  {
    var paths;
    paths, role := FindPaths(g, who);
    var deduped := Deduplicate(paths);
    DedupedOnePerId(g, who, role, paths, deduped);
    DedupedPaths(g, who, role, paths, deduped);
    analysis := CountPaths(deduped);
  }

  method CountRisk(paths: seq<Path>, risk: Risk) returns (n: nat)
    ensures n == Count(WithRisk(risk), paths)
  {
    n := 0;
    for k := 0 to |paths|
      invariant n == Count(WithRisk(risk), paths[..k])
    {
      assert paths[..k + 1] == paths[..k] + [paths[k]];
      CountStep(WithRisk(risk), paths[..k], paths[k]);
      if paths[k].risk == risk {
        n := n + 1;
      }
    }
    assert paths[..|paths|] == paths;
  }

  lemma {:induction false} RisksAddUp(paths: seq<Path>)
    requires forall p | p in paths :: p.risk == CriticalRisk || p.risk == HighRisk
    ensures Count(WithRisk(CriticalRisk), paths) + Count(WithRisk(HighRisk), paths) == |paths|
    ensures Count(WithRisk(MediumRisk), paths) == 0
  {
    if paths != [] {
      var n := |paths| - 1;
      assert paths == paths[..n] + [paths[n]];
      assert paths[n] in paths;
      RisksAddUp(paths[..n]);
    }
  }
}
