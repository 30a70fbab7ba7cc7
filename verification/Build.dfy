/** `build` and GenerateWithProviders (internal/generator/generator.go:155-172, 191-489) as the
    loops they are, each proved against the function that says what it produces. */
module Build {
  import opened Prelude
  import opened Text
  import opened Sorting
  import opened Model
  import opened Names
  import opened Generator

  method IndexSources(sources: seq<Source>) returns (enabled: set<string>, names: map<string, string>)
    ensures names == ActiveSources(sources) && enabled == names.Keys
  {
    enabled, names := {}, map[];
    for i := 0 to |sources|
      invariant names == ActiveSources(sources[..i]) && enabled == names.Keys
    {
      var src := sources[i];
      Prefixes(sources, i);
      if src.kind.Manual? || src.enabled {
        enabled := enabled + {src.id};
        names := names[src.id := src.name];
      }
    }
    assert sources[..|sources|] == sources;
  }

  method CollectProxies(active: map<string, string>, servers: seq<Server>, table: NameTable)
    returns (names: map<string, string>, proxies: seq<Proxy>, problems: seq<Problem>)
    requires table.Valid() && table.issued == []
    modifies table
    ensures table.Valid() && table.issued == ServerDisplays(active, servers)
    ensures names == ServerNames(active, servers)
    ensures proxies == Proxies(active, servers)
    ensures problems == ServerProblems(active, servers)
  {
    names, proxies, problems := map[], [], [];
    for i := 0 to |servers|
      invariant table.Valid() && table.issued == ServerDisplays(active, servers[..i])
      invariant names == ServerNames(active, servers[..i])
      invariant proxies == Proxies(active, servers[..i])
      invariant problems == ServerProblems(active, servers[..i])
    {
      var srv := servers[i];
      Prefixes(servers, i);
      if srv.sourceId !in active || srv.stale { continue; }
      if |srv.raw| == 0 {
        problems := problems + [EmptyRaw(srv.id)];
        continue;
      }
      var display := table.UniqueName(srv.name + " [" + active[srv.sourceId] + "]");
      names := names[srv.id := display];
      proxies := proxies + [Proxy(display, srv.raw["name" := Str(display)])];
    }
    assert servers[..|servers|] == servers;
  }

  method IndexGroups(groups: seq<Group>) returns (byId: map<string, Group>)
    ensures byId == GroupsById(groups)
  {
    byId := map[];
    for i := 0 to |groups|
      invariant byId == GroupsById(groups[..i])
    {
      Prefixes(groups, i);
      byId := byId[groups[i].id := groups[i]];
    }
    assert groups[..|groups|] == groups;
  }

  lemma GroupStep(issued: seq<string>, groups: seq<Group>, i: nat)
    requires i < |groups|
    ensures var g, asked := groups[i], issued + GroupDisplays(groups[..i]);
      && GroupNames(issued, groups[..i + 1]) == GroupNames(issued, groups[..i])[g.id := UniqueOf(asked, g.name)]
      && issued + GroupDisplays(groups[..i + 1]) == asked + [g.name]
  {
    Prefixes(groups, i);
  }

  method NameGroups(groups: seq<Group>, table: NameTable)
    returns (names: map<string, string>, problems: seq<Problem>)
    requires table.Valid()
    modifies table
    ensures names == GroupNames(old(table.issued), groups)
    ensures problems == PrefixProblems(groups)
  {
    names, problems := map[], [];
    ghost var issued := table.issued;
    assert issued == issued + GroupDisplays(groups[..0]);
    for i := 0 to |groups|
      invariant table.Valid() && table.issued == issued + GroupDisplays(groups[..i])
      invariant names == GroupNames(issued, groups[..i])
      invariant problems == PrefixProblems(groups[..i])
    {
      var g := groups[i];
      if HasPrefix(g.name, SERVICE_PREFIX) { problems := problems + [ReservedPrefix(g.id)]; }
      assert problems == PrefixProblems(groups[..i + 1]) by { Prefixes(groups, i); }
      var name := table.UniqueName(g.name);
      names := names[g.id := name];
      GroupStep(issued, groups, i);
    }
    assert groups[..|groups|] == groups;
  }

  method ResolveGroup(ctx: Context, g: Group) returns (grp: ProxyGroup, problems: seq<Problem>)
    requires g.id in ctx.groups
    ensures grp == UserGroup(ctx, g) && problems == GroupProblems(ctx, g)
  {
    var members := [];
    problems := [];
    for i := 0 to |g.members|
      invariant members == MemberNames(ctx, g.id, g.members[..i])
      invariant problems == MemberProblems(ctx, g.id, g.members[..i])
    {
      var m := g.members[i];
      Prefixes(g.members, i);
      if m == g.id {
        problems := problems + [SelfReference(g.id)];
      } else if m in ctx.servers && ctx.servers[m] != "" {
        members := members + [ctx.servers[m]];
      } else if m in ctx.groups && ctx.groups[m] != "" {
        members := members + [ctx.groups[m]];
      } else {
        problems := problems + [MemberNotFound(g.id, m)];
      }
    }
    assert g.members[..|g.members|] == g.members;
    if |members| == 0 {
      members := ["DIRECT"];
      problems := problems + [NoMembers(g.id)];
    }
    var health := None;
    match g.kind {
      case UrlTest => health := Some(Health(HEALTH_URL, GroupInterval(ctx.settings), Some(USER_TOLERANCE)));
      case Fallback => health := Some(Health(HEALTH_URL, GroupInterval(ctx.settings), None));
      case LoadBalance => health := Some(Health(HEALTH_URL, GroupInterval(ctx.settings), None));
      case Select =>
      case UnknownGroupType(_) => problems := problems + [BadGroupType(g.id)];
    }
    grp := ProxyGroup(ctx.groups[g.id], g.kind, members, health);
  }

  method ResolveGroups(ctx: Context, groups: seq<Group>) returns (grps: seq<ProxyGroup>, problems: seq<Problem>)
    requires GroupsNamed(ctx, groups)
    ensures grps == UserGroups(ctx, groups) && problems == AllGroupProblems(ctx, groups)
  {
    grps, problems := [], [];
    for i := 0 to |groups|
      invariant grps == UserGroups(ctx, groups[..i])
      invariant problems == AllGroupProblems(ctx, groups[..i])
    {
      Prefixes(groups, i);
      var grp, ps := ResolveGroup(ctx, groups[i]);
      grps, problems := grps + [grp], problems + ps;
    }
    assert groups[..|groups|] == groups;
  }

  method CheckAdditions(lib: Library, additions: map<string, seq<string>>) returns (bad: set<string>)
    ensures bad == BadAdditionKeys(lib, additions)
  {
    bad := {};
    var left := additions.Keys;
    while left != {}
      invariant left <= additions.Keys
      invariant bad == set key | key in additions.Keys - left
          && exists v | v in additions[key] :: !ValidAddition(lib, key, v)
    {
      var key :| key in left;
      var entries := additions[key];
      var ok := true;
      for i := 0 to |entries|
        invariant ok <==> forall v | v in entries[..i] :: ValidAddition(lib, key, v)
      {
        Prefixes(entries, i);
        if !ValidAddition(lib, key, entries[i]) {
          ok := false;
          assert entries[i] in entries;
          break;
        }
      }
      assert entries[..|entries|] == entries;
      if !ok { bad := bad + {key}; }
      left := left - {key};
    }
  }

  /** The lines of one accepted condition: its own, then one per geodata addition. */
  method EmitCondition(ctx: Context, rid: string, c: Condition, kind: RuleType)
    returns (lines: seq<Rule>, problems: seq<Problem>)
    requires ConditionRule(c) == Some(kind)
    ensures lines == ConditionRules(ctx, rid, c)
    ensures problems == ConditionProblems(ctx, rid, c)
  {
    var policy := ServiceName(rid);
    lines, problems := [Rule(kind, c.value, policy)], [];
    var key := AdditionKey(ctx.lib, c);
    if key != "" {
      if key in ctx.badAdditions { problems := [BadAdditions(rid, key)]; }
      var extras := if key in ctx.settings.additions then ctx.settings.additions[key] else [];
      for j := 0 to |extras|
        invariant lines == [Rule(kind, c.value, policy)] + ExtraRules(c, extras[..j], policy)
      {
        Prefixes(extras, j);
        lines := lines + [Rule(if c.kind.Geosite? then R_DOMAIN_SUFFIX else R_IP_CIDR, extras[j], policy)];
      }
      assert extras[..|extras|] == extras;
    }
  }

  method EmitConditions(ctx: Context, rt: Route) returns (rules: seq<Rule>, geosite: bool, problems: seq<Problem>)
    ensures rules == AllConditionRules(ctx, rt.id, rt.conditions)
    ensures geosite == UsesGeosite(rt.conditions)
    ensures problems == AllConditionProblems(ctx, rt.id, rt.conditions)
  {
    rules, geosite, problems := [], false, [];
    for i := 0 to |rt.conditions|
      invariant rules == AllConditionRules(ctx, rt.id, rt.conditions[..i])
      invariant geosite == UsesGeosite(rt.conditions[..i])
      invariant problems == AllConditionProblems(ctx, rt.id, rt.conditions[..i])
    {
      var c := rt.conditions[i];
      Prefixes(rt.conditions, i);
      var kind := ConditionRule(c);
      if kind.None? {
        problems := problems + [BadCondition(rt.id, c)];
      } else {
        if kind.value.R_GEOSITE? { geosite := true; }
        var lines, ps := EmitCondition(ctx, rt.id, c, kind.value);
        rules, problems := rules + lines, problems + ps;
      }
    }
    assert rt.conditions[..|rt.conditions|] == rt.conditions;
  }

  method EmitProviders(rid: string, used: set<string>, ps: seq<string>)
    returns (rules: seq<Rule>, nowUsed: set<string>, problems: seq<Problem>)
    ensures rules == ProviderRules(rid, used, ps)
    ensures nowUsed == used + ValidOnes(ps)
    ensures problems == ProviderProblems(rid, used, ps)
  {
    rules, nowUsed, problems := [], used, [];
    for i := 0 to |ps|
      invariant rules == ProviderRules(rid, used, ps[..i])
      invariant nowUsed == used + ValidOnes(ps[..i])
      invariant problems == ProviderProblems(rid, used, ps[..i])
    {
      var p := ps[i];
      Prefixes(ps, i);
      if !ValidProvider(p) {
        problems := problems + [BadProvider(rid, p)];
      } else if p in nowUsed {
        problems := problems + [ProviderReused(rid, p)];
      } else {
        nowUsed := nowUsed + {p};
        rules := rules + [Rule(R_RULE_SET, p, ServiceName(rid))];
      }
    }
    assert ps[..|ps|] == ps;
  }

  /** The body of the route loop: what one route adds to each output. */
  method EmitRoute(ctx: Context, used: set<string>, rt: Route)
    returns (groups: seq<ProxyGroup>, rules: seq<Rule>, geosite: bool, nowUsed: set<string>,
             lost: seq<Lost>, problems: seq<Problem>)
    ensures groups == if Live(ctx, rt) then [ServiceGroup(rt, Resolve(ctx, rt.target).value)] else []
    ensures rules == RouteRules(ctx, used, rt)
    ensures geosite == (Emits(ctx, rt) && UsesGeosite(rt.conditions))
    ensures nowUsed == if Emits(ctx, rt) then used + ValidOnes(rt.providers) else used
    ensures lost == if rt.enabled && Resolve(ctx, rt.target).None?
                    then [Lost(rt.id, TargetDetail(ctx, rt.target))] else []
    ensures problems == RouteProblems(ctx, used, rt)
  {
    groups, rules, geosite, nowUsed, lost, problems := [], [], false, used, [], [];
    if !rt.enabled { return; }
    var target := Resolve(ctx, rt.target);
    if target.None? {
      lost := [Lost(rt.id, TargetDetail(ctx, rt.target))];
      return;
    }
    var failover := if rt.onUnavailable == "direct" then "DIRECT" else "REJECT";
    var members := [target.value];
    if failover != target.value { members := members + [failover]; }
    groups := [ProxyGroup(ServiceName(rt.id), Fallback, members, Some(Health(HEALTH_URL, ROUTE_INTERVAL, None)))];
    assert members == ServiceGroup(rt, target.value).members;
    if |rt.conditions| == 0 && |rt.providers| == 0 {
      problems := [NoConditions(rt.id)];
      return;
    }
    rules, geosite, problems := EmitConditions(ctx, rt);
    var prules, pused, pproblems := EmitProviders(rt.id, used, rt.providers);
    rules, nowUsed, problems := rules + prules, pused, problems + pproblems;
  }

  method EmitRoutes(ctx: Context, routes: seq<Route>)
    returns (groups: seq<ProxyGroup>, rules: seq<Rule>, geosite: bool, used: set<string>,
             lost: seq<Lost>, problems: seq<Problem>)
    ensures groups == ServiceGroups(ctx, routes)
    ensures rules == Rules(ctx, routes)
    ensures geosite == NeedGeosite(ctx, routes)
    ensures used == UsedProviders(ctx, routes)
    ensures lost == LostTargets(ctx, routes)
    ensures problems == AllRouteProblems(ctx, routes)
  {
    groups, rules, geosite, used, lost, problems := [], [], false, {}, [], [];
    for i := 0 to |routes|
      invariant groups == ServiceGroups(ctx, routes[..i])
      invariant rules == Rules(ctx, routes[..i])
      invariant geosite == NeedGeosite(ctx, routes[..i])
      invariant used == UsedProviders(ctx, routes[..i])
      invariant lost == LostTargets(ctx, routes[..i])
      invariant problems == AllRouteProblems(ctx, routes[..i])
    {
      Prefixes(routes, i);
      var g, r, geo, u, l, p := EmitRoute(ctx, used, routes[i]);
      groups, rules, geosite, used, lost, problems := groups + g, rules + r, geosite || geo, u, lost + l, problems + p;
    }
    assert routes[..|routes|] == routes;
  }

  /** The first two sections of `build`: names for the active pool and the user groups. */
  method AssignNames(lib: Library, st: State)
    returns (ctx: Context, proxies: seq<Proxy>, problems: seq<Problem>)
    ensures ctx == ContextOf(lib, st)
    ensures proxies == Proxies(ActiveSources(st.sources), st.servers)
    ensures problems == ServerProblems(ActiveSources(st.sources), st.servers) + PrefixProblems(st.groups)
  {
    var enabled, active := IndexSources(st.sources);
    var table := new NameTable();
    var names, ps, serverProblems := CollectProxies(active, st.servers, table);
    var byId := IndexGroups(st.groups);
    var groupNames, prefixProblems := NameGroups(st.groups, table);
    var bad := CheckAdditions(lib, st.settings.additions);
    ctx := Context(lib, st.settings, names, groupNames, byId, bad);
    proxies, problems := ps, serverProblems + prefixProblems;
  }

  method ResolveUrls(s: Settings) returns (geosite: Option<string>, geoip: Option<string>, problems: seq<Problem>)
    ensures geosite == GeositeUrl(s) && geoip == GeoipUrl(s) && problems == GeoProblems(s)
  {
    problems := [];
    geosite := GeositeUrl(s);
    if geosite.None? { problems := problems + [BadGeositeUrl]; }
    geoip := GeoipUrl(s);
    if geoip.None? { problems := problems + [BadGeoipUrl]; }
  }

  /** The `build` function. */
  method Compile(lib: Library, st: State) returns (r: Result<Profile, Problems>)
    ensures r == Compiled(lib, st)
  {
    var ctx, proxies, invalid := AssignNames(lib, st);
    ContextNamesGroups(lib, st);
    var userGroups, groupProblems := ResolveGroups(ctx, st.groups);
    var routes := SortByKey(RouteKey, st.routes);
    var services, rules, geosite, used, lost, routeProblems := EmitRoutes(ctx, routes);
    invalid := invalid + groupProblems + routeProblems;

    var dp := Resolve(ctx, st.settings.defaultPolicy);
    var policy := "DIRECT";
    if dp.Some? { policy := dp.value; } else { invalid := invalid + [DefaultPolicyLost(st.settings.defaultPolicy.id)]; }
    assert invalid == Report(lib, st).invalid;
    if lost != [] || invalid != [] { return Err(Problems(lost, invalid)); }

    var geositeUrl, geoipUrl, geo := ResolveUrls(st.settings);
    if geo != [] { return Err(Problems([], geo)); }
    var providers := None;
    if geosite || used != {} { providers := Some(map p | p in used :: ProviderPath(p)); }
    r := Ok(Profile(proxies, userGroups + services + [ProxyGroup(DEFAULT_GROUP, Select, [policy], None)],
                    providers, rules + [Final(DEFAULT_GROUP)], geositeUrl.value, geoipUrl.value));
  }

  /** known is None when the existence check of provider payloads is off. */
  function Checked(r: Result<Profile, Problems>, known: Option<set<string>>): Result<Profile, Problems> {
    if r.Ok? && known.Some? && r.value.ruleProviders.Some? && r.value.ruleProviders.value.Keys - known.value != {} then
      Err(Problems([], [MissingPayloads(r.value.ruleProviders.value.Keys - known.value)]))
    else r
  }

  method GenerateWithProviders(lib: Library, st: State, known: Option<set<string>>)
    returns (r: Result<Profile, Problems>)
    ensures r == Checked(Compiled(lib, st), known)
  {
    r := Compile(lib, st);
    if r.Ok? && known.Some? {
      var missing := {};
      if r.value.ruleProviders.Some? { missing := r.value.ruleProviders.value.Keys - known.value; }
      if missing != {} { r := Err(Problems([], [MissingPayloads(missing)])); }
    }
  }
}
