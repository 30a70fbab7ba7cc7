/** The profile compiler (internal/generator/generator.go): the functions that say what
    each loop of `build` produces, and the methods that run those loops. */
module Generator {
  import opened Prelude
  import opened Text
  import opened Sorting
  import opened Model
  import opened Names

  // ---------------------------------------------------------------- the generated document

  datatype Proxy = Proxy(name: string, entry: Raw)

  datatype Health = Health(url: string, interval: int, tolerance: Option<int>)

  datatype ProxyGroup = ProxyGroup(name: string, kind: GroupType, members: seq<string>, health: Option<Health>)

  datatype RuleType =
    | R_DOMAIN | R_DOMAIN_SUFFIX | R_DOMAIN_KEYWORD | R_GEOSITE | R_GEOIP
    | R_IP_CIDR | R_SRC_IP_CIDR | R_DST_PORT | R_RULE_SET

  /** One line of the rules section; the final line matches everything. */
  datatype Rule = Rule(kind: RuleType, value: string, policy: string) | Final(policy: string)

  datatype Profile = Profile(
    proxies: seq<Proxy>, groups: seq<ProxyGroup>, ruleProviders: Option<map<string, string>>,
    rules: seq<Rule>, geositeUrl: string, geoipUrl: string)

  datatype LostReason =
    | ServerGone(serverId: string) | GroupNotUsable(groupId: string, name: string)
    | GroupGone(groupId: string) | BadTargetType(kind: TargetType)

  datatype Lost = Lost(routeId: string, reason: LostReason)

  datatype Problem =
    | EmptyRaw(serverId: string)
    | ReservedPrefix(groupId: string) | SelfReference(groupId: string)
    | MemberNotFound(groupId: string, member: string) | NoMembers(groupId: string)
    | BadGroupType(groupId: string)
    | NoConditions(routeId: string) | BadCondition(routeId: string, condition: Condition)
    | BadAdditions(routeId: string, key: string)
    | BadProvider(routeId: string, provider: string) | ProviderReused(routeId: string, provider: string)
    | DefaultPolicyLost(targetId: string) | BadGeositeUrl | BadGeoipUrl
    | MissingPayloads(names: set<string>)

  datatype Problems = Problems(lost: seq<Lost>, invalid: seq<Problem>)

  const HEALTH_URL := "https://www.gstatic.com/generate_204"
  const SERVICE_PREFIX := "rt:"
  const DEFAULT_GROUP := "rt:default"
  const ROUTE_INTERVAL := 60
  const USER_INTERVAL := 300
  const USER_TOLERANCE := 50

  function ServiceName(routeId: string): string {
    SERVICE_PREFIX + routeId
  }

  // ---------------------------------------------------------------- active pool and proxies

  /** IDs of the sources that contribute servers, with their display names. */
  function ActiveSources(sources: seq<Source>): map<string, string> {
    if |sources| == 0 then map[]
    else
      var m := ActiveSources(sources[..|sources| - 1]);
      var src := sources[|sources| - 1];
      if src.kind.Manual? || src.enabled then m[src.id := src.name] else m
  }

  predicate InPool(active: map<string, string>, srv: Server) {
    srv.sourceId in active && !srv.stale
  }

  predicate Emitted(active: map<string, string>, srv: Server) {
    InPool(active, srv) && |srv.raw| > 0
  }

  function Display(active: map<string, string>, srv: Server): string
    requires InPool(active, srv)
  {
    srv.name + " [" + active[srv.sourceId] + "]"
  }

  function ServerDisplays(active: map<string, string>, servers: seq<Server>): seq<string> {
    if |servers| == 0 then []
    else
      var prev, srv := ServerDisplays(active, servers[..|servers| - 1]), servers[|servers| - 1];
      if Emitted(active, srv) then prev + [Display(active, srv)] else prev
  }

  function LastName(active: map<string, string>, servers: seq<Server>): string
    requires |servers| > 0 && Emitted(active, servers[|servers| - 1])
  {
    UniqueOf(ServerDisplays(active, servers[..|servers| - 1]), Display(active, servers[|servers| - 1]))
  }

  /** Server ID to proxy name. */
  function ServerNames(active: map<string, string>, servers: seq<Server>): map<string, string> {
    if |servers| == 0 then map[]
    else
      var prev, srv := ServerNames(active, servers[..|servers| - 1]), servers[|servers| - 1];
      if Emitted(active, srv) then prev[srv.id := LastName(active, servers)] else prev
  }

  function Proxies(active: map<string, string>, servers: seq<Server>): seq<Proxy> {
    if |servers| == 0 then []
    else
      var prev, srv := Proxies(active, servers[..|servers| - 1]), servers[|servers| - 1];
      if Emitted(active, srv) then
        var name := LastName(active, servers);
        prev + [Proxy(name, srv.raw["name" := Str(name)])]
      else prev
  }

  function ServerProblems(active: map<string, string>, servers: seq<Server>): seq<Problem> {
    if |servers| == 0 then []
    else
      var prev, srv := ServerProblems(active, servers[..|servers| - 1]), servers[|servers| - 1];
      if InPool(active, srv) && |srv.raw| == 0 then prev + [EmptyRaw(srv.id)] else prev
  }

  // ---------------------------------------------------------------- user groups

  function GroupDisplays(groups: seq<Group>): (r: seq<string>)
    ensures |r| == |groups|
  {
    if |groups| == 0 then [] else GroupDisplays(groups[..|groups| - 1]) + [groups[|groups| - 1].name]
  }

  /** Group ID to proxy-group name; issued are the names requested for proxies. */
  function GroupNames(issued: seq<string>, groups: seq<Group>): map<string, string> {
    if |groups| == 0 then map[]
    else
      var init, g := groups[..|groups| - 1], groups[|groups| - 1];
      GroupNames(issued, init)[g.id := UniqueOf(issued + GroupDisplays(init), g.name)]
  }

  function PrefixProblems(groups: seq<Group>): seq<Problem> {
    if |groups| == 0 then []
    else
      var prev, g := PrefixProblems(groups[..|groups| - 1]), groups[|groups| - 1];
      if HasPrefix(g.name, SERVICE_PREFIX) then prev + [ReservedPrefix(g.id)] else prev
  }

  function GroupsById(groups: seq<Group>): map<string, Group> {
    if |groups| == 0 then map[]
    else GroupsById(groups[..|groups| - 1])[groups[|groups| - 1].id := groups[|groups| - 1]]
  }

  /** Everything the later passes look up. */
  datatype Context = Context(
    lib: Library, settings: Settings, servers: map<string, string>, groups: map<string, string>,
    groupsById: map<string, Group>, badAdditions: set<string>)

  /** The name a group member resolves to; an empty name counts as absent. */
  function MemberName(ctx: Context, gid: string, m: string): Option<string> {
    if m == gid then None
    else if m in ctx.servers && ctx.servers[m] != "" then Some(ctx.servers[m])
    else if m in ctx.groups && ctx.groups[m] != "" then Some(ctx.groups[m])
    else None
  }

  function MemberNames(ctx: Context, gid: string, members: seq<string>): seq<string> {
    if |members| == 0 then []
    else
      var prev, m := MemberNames(ctx, gid, members[..|members| - 1]), members[|members| - 1];
      match MemberName(ctx, gid, m) case Some(n) => prev + [n] case None => prev
  }

  function MemberProblems(ctx: Context, gid: string, members: seq<string>): seq<Problem> {
    if |members| == 0 then []
    else
      var prev, m := MemberProblems(ctx, gid, members[..|members| - 1]), members[|members| - 1];
      if MemberName(ctx, gid, m).Some? then prev
      else prev + [if m == gid then SelfReference(gid) else MemberNotFound(gid, m)]
  }

  function GroupInterval(settings: Settings): int {
    if settings.delayTestIntervalSec > 0 then settings.delayTestIntervalSec else USER_INTERVAL
  }

  function GroupHealth(settings: Settings, kind: GroupType): Option<Health> {
    match kind
    case UrlTest => Some(Health(HEALTH_URL, GroupInterval(settings), Some(USER_TOLERANCE)))
    case Fallback => Some(Health(HEALTH_URL, GroupInterval(settings), None))
    case LoadBalance => Some(Health(HEALTH_URL, GroupInterval(settings), None))
    case _ => None
  }

  function UserGroup(ctx: Context, g: Group): ProxyGroup
    requires g.id in ctx.groups
  {
    var members := MemberNames(ctx, g.id, g.members);
    ProxyGroup(ctx.groups[g.id], g.kind, if members == [] then ["DIRECT"] else members,
               GroupHealth(ctx.settings, g.kind))
  }

  function GroupProblems(ctx: Context, g: Group): seq<Problem> {
    MemberProblems(ctx, g.id, g.members)
    + (if MemberNames(ctx, g.id, g.members) == [] then [NoMembers(g.id)] else [])
    + (if g.kind.UnknownGroupType? then [BadGroupType(g.id)] else [])
  }

  predicate GroupsNamed(ctx: Context, groups: seq<Group>) {
    forall g | g in groups :: g.id in ctx.groups
  }

  function UserGroups(ctx: Context, groups: seq<Group>): seq<ProxyGroup>
    requires GroupsNamed(ctx, groups)
  {
    if |groups| == 0 then []
    else UserGroups(ctx, groups[..|groups| - 1]) + [UserGroup(ctx, groups[|groups| - 1])]
  }

  function AllGroupProblems(ctx: Context, groups: seq<Group>): seq<Problem> {
    if |groups| == 0 then []
    else AllGroupProblems(ctx, groups[..|groups| - 1]) + GroupProblems(ctx, groups[|groups| - 1])
  }

  // ---------------------------------------------------------------- conditions and providers

  /** The rule type a condition is printed with, or None when it is rejected. */
  function ConditionRule(c: Condition): Option<RuleType> {
    if ContainsAny(c.value, ",:\n\r") then None
    else match c.kind
      case Domain => Some(R_DOMAIN)
      case DomainSuffix => Some(R_DOMAIN_SUFFIX)
      case DomainKeyword => Some(R_DOMAIN_KEYWORD)
      case Geosite => if c.value == "" then None else Some(R_GEOSITE)
      case GeoIp => Some(R_GEOIP)
      case IpCidr => Some(R_IP_CIDR)
      case SrcDevice => if c.value == "" then None else Some(R_SRC_IP_CIDR)
      case DstPort => Some(R_DST_PORT)
      case UnknownCond(_) => None
  }

  predicate DomainChar(c: char) {
    'a' <= c <= 'z' || 'A' <= c <= 'Z' || '0' <= c <= '9' || c == '-' || c == '.'
  }

  predicate ValidAddition(lib: Library, key: string, v: string) {
    !ContainsAny(v, ",:\n\r") &&
    if HasPrefix(key, "geosite:") then
      v != "" && !ContainsAny(v, " \t/") && !HasPrefix(v, ".") && forall i | 0 <= i < |v| :: DomainChar(v[i])
    else
      HasPrefix(key, "geoip:") && lib.isCidr(v)
  }

  predicate ValidProvider(p: string) {
    p != "" && forall i | 0 <= i < |p| :: DomainChar(p[i]) && p[i] != '.'
  }

  function BadAdditionKeys(lib: Library, additions: map<string, seq<string>>): set<string> {
    set key | key in additions && exists v | v in additions[key] :: !ValidAddition(lib, key, v)
  }

  /** The additions key of a geodata condition; "" for the other kinds. */
  function AdditionKey(lib: Library, c: Condition): string {
    match c.kind
    case Geosite => "geosite:" + lib.lower(c.value)
    case GeoIp => "geoip:" + c.value
    case _ => ""
  }

  function Extras(ctx: Context, c: Condition): seq<string> {
    var key := AdditionKey(ctx.lib, c);
    if key in ctx.settings.additions && key != "" then ctx.settings.additions[key] else []
  }

  function ExtraType(c: Condition): RuleType {
    if c.kind.Geosite? then R_DOMAIN_SUFFIX else R_IP_CIDR
  }

  function ExtraRules(c: Condition, extras: seq<string>, policy: string): (r: seq<Rule>)
    ensures |r| == |extras|
  {
    if |extras| == 0 then []
    else ExtraRules(c, extras[..|extras| - 1], policy) + [Rule(ExtraType(c), extras[|extras| - 1], policy)]
  }

  function ConditionRules(ctx: Context, rid: string, c: Condition): seq<Rule> {
    match ConditionRule(c)
    case Some(kind) =>
      [Rule(kind, c.value, ServiceName(rid))] + ExtraRules(c, Extras(ctx, c), ServiceName(rid))
    case None => []
  }

  function ConditionProblems(ctx: Context, rid: string, c: Condition): seq<Problem> {
    if ConditionRule(c).None? then [BadCondition(rid, c)]
    else
      var key := AdditionKey(ctx.lib, c);
      if key != "" && key in ctx.badAdditions then [BadAdditions(rid, key)] else []
  }

  function AllConditionRules(ctx: Context, rid: string, cs: seq<Condition>): seq<Rule> {
    if |cs| == 0 then []
    else AllConditionRules(ctx, rid, cs[..|cs| - 1]) + ConditionRules(ctx, rid, cs[|cs| - 1])
  }

  function AllConditionProblems(ctx: Context, rid: string, cs: seq<Condition>): seq<Problem> {
    if |cs| == 0 then []
    else AllConditionProblems(ctx, rid, cs[..|cs| - 1]) + ConditionProblems(ctx, rid, cs[|cs| - 1])
  }

  function UsesGeosite(cs: seq<Condition>): bool {
    exists c | c in cs :: ConditionRule(c) == Some(R_GEOSITE)
  }

  function ValidOnes(ps: seq<string>): set<string> {
    set p | p in ps && ValidProvider(p)
  }

  function ProviderRules(rid: string, used: set<string>, ps: seq<string>): seq<Rule> {
    if |ps| == 0 then []
    else
      var init, p := ps[..|ps| - 1], ps[|ps| - 1];
      ProviderRules(rid, used, init)
      + (if ValidProvider(p) && p !in used + ValidOnes(init) then [Rule(R_RULE_SET, p, ServiceName(rid))] else [])
  }

  function ProviderProblems(rid: string, used: set<string>, ps: seq<string>): seq<Problem> {
    if |ps| == 0 then []
    else
      var init, p := ps[..|ps| - 1], ps[|ps| - 1];
      ProviderProblems(rid, used, init)
      + (if !ValidProvider(p) then [BadProvider(rid, p)]
         else if p in used + ValidOnes(init) then [ProviderReused(rid, p)] else [])
  }

  // ---------------------------------------------------------------- routes

  function Resolve(ctx: Context, t: Target): Option<string> {
    match t.kind
    case ToDirect => Some("DIRECT")
    case ToReject => Some("REJECT")
    case ToServer => if t.id in ctx.servers then Some(ctx.servers[t.id]) else None
    case ToGroup => if t.id in ctx.groups then Some(ctx.groups[t.id]) else None
    case UnknownTarget(_) => None
  }

  function TargetDetail(ctx: Context, t: Target): LostReason {
    match t.kind
    case ToServer => ServerGone(t.id)
    case ToGroup =>
      if t.id in ctx.groupsById then GroupNotUsable(t.id, ctx.groupsById[t.id].name) else GroupGone(t.id)
    case _ => BadTargetType(t.kind)
  }

  function Failover(rt: Route): string {
    if rt.onUnavailable == "direct" then "DIRECT" else "REJECT"
  }

  function ServiceGroup(rt: Route, target: string): ProxyGroup {
    ProxyGroup(ServiceName(rt.id), Fallback,
               if Failover(rt) != target then [target, Failover(rt)] else [target],
               Some(Health(HEALTH_URL, ROUTE_INTERVAL, None)))
  }

  predicate Live(ctx: Context, rt: Route) {
    rt.enabled && Resolve(ctx, rt.target).Some?
  }

  predicate Emits(ctx: Context, rt: Route) {
    Live(ctx, rt) && (|rt.conditions| > 0 || |rt.providers| > 0)
  }

  function LostTargets(ctx: Context, routes: seq<Route>): seq<Lost> {
    if |routes| == 0 then []
    else
      var prev, rt := LostTargets(ctx, routes[..|routes| - 1]), routes[|routes| - 1];
      if rt.enabled && Resolve(ctx, rt.target).None? then prev + [Lost(rt.id, TargetDetail(ctx, rt.target))] else prev
  }

  function ServiceGroups(ctx: Context, routes: seq<Route>): seq<ProxyGroup> {
    if |routes| == 0 then []
    else
      var prev, rt := ServiceGroups(ctx, routes[..|routes| - 1]), routes[|routes| - 1];
      if Live(ctx, rt) then prev + [ServiceGroup(rt, Resolve(ctx, rt.target).value)] else prev
  }

  function UsedProviders(ctx: Context, routes: seq<Route>): set<string> {
    if |routes| == 0 then {}
    else
      var prev, rt := UsedProviders(ctx, routes[..|routes| - 1]), routes[|routes| - 1];
      if Emits(ctx, rt) then prev + ValidOnes(rt.providers) else prev
  }

  function NeedGeosite(ctx: Context, routes: seq<Route>): bool {
    if |routes| == 0 then false
    else
      var rt := routes[|routes| - 1];
      NeedGeosite(ctx, routes[..|routes| - 1]) || (Emits(ctx, rt) && UsesGeosite(rt.conditions))
  }

  function RouteRules(ctx: Context, used: set<string>, rt: Route): seq<Rule> {
    if Emits(ctx, rt) then
      AllConditionRules(ctx, rt.id, rt.conditions) + ProviderRules(rt.id, used, rt.providers)
    else []
  }

  function RouteProblems(ctx: Context, used: set<string>, rt: Route): seq<Problem> {
    if Emits(ctx, rt) then
      AllConditionProblems(ctx, rt.id, rt.conditions) + ProviderProblems(rt.id, used, rt.providers)
    else if Live(ctx, rt) then [NoConditions(rt.id)]
    else []
  }

  function Rules(ctx: Context, routes: seq<Route>): seq<Rule> {
    if |routes| == 0 then []
    else
      var init := routes[..|routes| - 1];
      Rules(ctx, init) + RouteRules(ctx, UsedProviders(ctx, init), routes[|routes| - 1])
  }

  function AllRouteProblems(ctx: Context, routes: seq<Route>): seq<Problem> {
    if |routes| == 0 then []
    else
      var init := routes[..|routes| - 1];
      AllRouteProblems(ctx, init) + RouteProblems(ctx, UsedProviders(ctx, init), routes[|routes| - 1])
  }

  // ---------------------------------------------------------------- geodata URLs

  function GeoUrl(kind: string, source: string, customUrl: string): Option<string> {
    match source
    case "runetfreedom" =>
      Some("https://raw.githubusercontent.com/runetfreedom/russia-v2ray-rules-dat/release/" + kind + ".dat")
    case "metacubex" =>
      Some("https://github.com/MetaCubeX/meta-rules-dat/releases/download/latest/" + kind + ".dat")
    case "custom" =>
      if HasPrefix(customUrl, "http://") || HasPrefix(customUrl, "https://") then Some(customUrl) else None
    case _ => None
  }

  function GeositeUrl(s: Settings): Option<string> {
    GeoUrl("geosite", s.geositeSource, s.geositeCustomUrl)
  }

  function GeoipUrl(s: Settings): Option<string> {
    GeoUrl("geoip", s.geoipSource, s.geoipCustomUrl)
  }

  // ---------------------------------------------------------------- the whole translation

  function ContextOf(lib: Library, st: State): Context {
    var active := ActiveSources(st.sources);
    Context(lib, st.settings, ServerNames(active, st.servers),
            GroupNames(ServerDisplays(active, st.servers), st.groups),
            GroupsById(st.groups), BadAdditionKeys(lib, st.settings.additions))
  }

  lemma {:induction false} GroupNamesKeys(issued: seq<string>, groups: seq<Group>)
    ensures GroupNames(issued, groups).Keys == set g | g in groups :: g.id
  {
    if |groups| > 0 {
      var init, g := groups[..|groups| - 1], groups[|groups| - 1];
      assert groups == init + [g];
      GroupNamesKeys(issued, init);
    }
  }

  lemma ContextNamesGroups(lib: Library, st: State)
    ensures GroupsNamed(ContextOf(lib, st), st.groups)
  {
    GroupNamesKeys(ServerDisplays(ActiveSources(st.sources), st.servers), st.groups);
  }

  function SortedRoutes(st: State): seq<Route> {
    SortByKey(RouteKey, st.routes)
  }

  function DefaultProblems(ctx: Context): seq<Problem> {
    if Resolve(ctx, ctx.settings.defaultPolicy).Some? then []
    else [DefaultPolicyLost(ctx.settings.defaultPolicy.id)]
  }

  /** The problem report before the geodata URLs are looked at. */
  function Report(lib: Library, st: State): Problems {
    var ctx := ContextOf(lib, st);
    Problems(LostTargets(ctx, SortedRoutes(st)),
             ServerProblems(ActiveSources(st.sources), st.servers) + PrefixProblems(st.groups)
             + AllGroupProblems(ctx, st.groups) + AllRouteProblems(ctx, SortedRoutes(st)) + DefaultProblems(ctx))
  }

  function GeoProblems(s: Settings): seq<Problem> {
    (if GeositeUrl(s).None? then [BadGeositeUrl] else []) + (if GeoipUrl(s).None? then [BadGeoipUrl] else [])
  }

  function DefaultGroup(ctx: Context): ProxyGroup {
    var dp := Resolve(ctx, ctx.settings.defaultPolicy);
    ProxyGroup(DEFAULT_GROUP, Select, [if dp.Some? then dp.value else "DIRECT"], None)
  }

  function ProviderPath(p: string): string {
    "./providers/" + p + ".yaml"
  }

  function RuleProviders(ctx: Context, routes: seq<Route>): Option<map<string, string>> {
    var used := UsedProviders(ctx, routes);
    if NeedGeosite(ctx, routes) || used != {} then Some(map p | p in used :: ProviderPath(p)) else None
  }

  function Compiled(lib: Library, st: State): Result<Profile, Problems> {
    var report := Report(lib, st);
    if report.lost != [] || report.invalid != [] then Err(report)
    else if GeoProblems(st.settings) != [] then Err(Problems([], GeoProblems(st.settings)))
    else
      var ctx, routes := ContextOf(lib, st), SortedRoutes(st);
      ContextNamesGroups(lib, st);
      Ok(Profile(Proxies(ActiveSources(st.sources), st.servers),
                 UserGroups(ctx, st.groups) + ServiceGroups(ctx, routes) + [DefaultGroup(ctx)],
                 RuleProviders(ctx, routes),
                 Rules(ctx, routes) + [Final(DEFAULT_GROUP)],
                 GeositeUrl(st.settings).value, GeoipUrl(st.settings).value))
  }
}
