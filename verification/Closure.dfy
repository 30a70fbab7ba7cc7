/** Structure of a compiled profile: every reference lands on something emitted, and groups carry
    what their definition says. */
module Closure {
  import opened Prelude
  import opened Text
  import opened Model
  import opened Generator
  import opened WellFormedness
  import opened Meaning

  // ---------------------------------------------------------------- membership of the parts

  lemma {:induction false} NamedServerIsProxy(active: map<string, string>, servers: seq<Server>, id: string)
    requires id in ServerNames(active, servers)
    ensures exists p | p in Proxies(active, servers) :: p.name == ServerNames(active, servers)[id]
  {
    var init, srv := servers[..|servers| - 1], servers[|servers| - 1];
    if Emitted(active, srv) && srv.id == id {
      assert Proxies(active, servers)[|Proxies(active, init)|].name == LastName(active, servers);
    } else {
      NamedServerIsProxy(active, init, id);
      var p :| p in Proxies(active, init) && p.name == ServerNames(active, init)[id];
      assert p in Proxies(active, servers);
    }
  }

  lemma {:induction false} UserGroupsAre(ctx: Context, groups: seq<Group>)
    requires GroupsNamed(ctx, groups)
    ensures |UserGroups(ctx, groups)| == |groups|
    ensures forall i | 0 <= i < |groups| :: UserGroups(ctx, groups)[i] == UserGroup(ctx, groups[i])
  {
    if |groups| > 0 { UserGroupsAre(ctx, groups[..|groups| - 1]); }
  }

  lemma {:induction false} ServiceGroupsAre(ctx: Context, routes: seq<Route>, x: ProxyGroup)
    ensures x in ServiceGroups(ctx, routes)
        <==> exists rt | rt in routes && Live(ctx, rt) :: x == ServiceGroup(rt, Resolve(ctx, rt.target).value)
  {
    if |routes| > 0 {
      var init, rt := routes[..|routes| - 1], routes[|routes| - 1];
      assert routes == init + [rt];
      ServiceGroupsAre(ctx, init, x);
    }
  }

  lemma {:induction false} RulesAre(ctx: Context, routes: seq<Route>, r: Rule)
    requires AllRouteProblems(ctx, routes) == []
    ensures r in Rules(ctx, routes) <==> exists rt | rt in routes && Emits(ctx, rt) :: LineOfRoute(ctx, rt, r)
  {
    hide LineOfRoute;
    if |routes| > 0 {
      var init, rt := routes[..|routes| - 1], routes[|routes| - 1];
      assert routes == init + [rt];
      RulesAre(ctx, init, r);
      if Emits(ctx, rt) { RouteLines(ctx, UsedProviders(ctx, init), rt, r); }
    }
  }

  lemma AllProvidersValid(ctx: Context, used: set<string>, rt: Route, p: string)
    requires Emits(ctx, rt) && RouteProblems(ctx, used, rt) == []
    ensures p in ValidOnes(rt.providers) <==> p in rt.providers
  {
    ProvidersIff(rt.id, used, rt.providers);
  }

  lemma {:induction false} UsedProvidersAre(ctx: Context, routes: seq<Route>, p: string)
    requires AllRouteProblems(ctx, routes) == []
    ensures p in UsedProviders(ctx, routes) <==> exists rt | rt in routes && Emits(ctx, rt) :: p in rt.providers
  {
    hide RouteProblems, Emits, ValidOnes;
    if |routes| > 0 {
      var init, rt := routes[..|routes| - 1], routes[|routes| - 1];
      assert routes == init + [rt];
      UsedProvidersAre(ctx, init, p);
      if Emits(ctx, rt) { AllProvidersValid(ctx, UsedProviders(ctx, init), rt, p); }
    }
  }

  lemma {:induction false} MemberNamesAt(ctx: Context, gid: string, members: seq<string>)
    requires MemberProblems(ctx, gid, members) == []
    ensures |MemberNames(ctx, gid, members)| == |members|
    ensures forall i | 0 <= i < |members| :: MemberName(ctx, gid, members[i]) == Some(MemberNames(ctx, gid, members)[i])
  {
    if |members| > 0 { MemberNamesAt(ctx, gid, members[..|members| - 1]); }
  }

  // ---------------------------------------------------------------- what success gives

  /** No check complained. */
  ghost predicate Clean(ctx: Context, st: State) {
    && AllRouteProblems(ctx, SortedRoutes(st)) == []
    && (forall g | g in st.groups ::
          !HasPrefix(g.name, "rt:") && MemberProblems(ctx, g.id, g.members) == []
              && MemberNames(ctx, g.id, g.members) != [])
    && Resolve(ctx, st.settings.defaultPolicy).Some?
    && (forall rt | rt in st.routes && rt.enabled :: Emits(ctx, rt))
  }

  /** The look-up tables belong to this state. */
  ghost predicate Tables(ctx: Context, st: State) {
    && ctx.settings == st.settings
    && ctx.servers == ServerNames(ActiveSources(st.sources), st.servers)
    && ctx.groups == GroupNames(ServerDisplays(ActiveSources(st.sources), st.servers), st.groups)
    && GroupsNamed(ctx, st.groups)
    && (forall id | id in ctx.groups :: HasGroup(st, id))
  }

  ghost predicate Assembled(ctx: Context, st: State, p: Profile) {
    && Tables(ctx, st) && Clean(ctx, st)
    && p.proxies == Proxies(ActiveSources(st.sources), st.servers)
    && p.groups == UserGroups(ctx, st.groups) + ServiceGroups(ctx, SortedRoutes(st)) + [DefaultGroup(ctx)]
    && p.rules == Rules(ctx, SortedRoutes(st)) + [Final(DEFAULT_GROUP)]
    && p.ruleProviders == RuleProviders(ctx, SortedRoutes(st))
  }

  lemma ContextTables(lib: Library, st: State)
    ensures Tables(ContextOf(lib, st), st)
  {
    GroupNamesKeys(ServerDisplays(ActiveSources(st.sources), st.servers), st.groups);
  }

  lemma CleanReport(lib: Library, st: State)
    requires Report(lib, st) == Problems([], [])
    ensures Clean(ContextOf(lib, st), st)
  {
    var ctx := ContextOf(lib, st);
    assert AllRouteProblems(ctx, SortedRoutes(st)) == [] && AllGroupProblems(ctx, st.groups) == [];
    AllGroupProblemsIff(ctx, st.groups);
    ReportEmptyIff(lib, st);
    forall rt | rt in st.routes && rt.enabled ensures Emits(ctx, rt) { TargetIff(lib, st, rt.target); }
    assert Resolve(ctx, st.settings.defaultPolicy).Some? by { TargetIff(lib, st, st.settings.defaultPolicy); }
  }

  lemma SuccessAssembles(lib: Library, st: State)
    requires Compiled(lib, st).Ok?
    ensures Assembled(ContextOf(lib, st), st, Compiled(lib, st).value)
  {
    assert Report(lib, st) == Problems([], []);
    CleanReport(lib, st);
    ContextTables(lib, st);
  }

  ghost predicate IsProxy(p: Profile, name: string) {
    exists x | x in p.proxies :: x.name == name
  }

  ghost predicate IsGroup(p: Profile, name: string) {
    exists g | g in p.groups :: g.name == name
  }

  ghost predicate IsUserGroup(ctx: Context, st: State, name: string) {
    exists g | g in st.groups && g.id in ctx.groups :: ctx.groups[g.id] == name
  }

  ghost predicate FromGroup(ctx: Context, st: State, x: ProxyGroup) {
    exists g | g in st.groups && g.id in ctx.groups :: x == UserGroup(ctx, g)
  }

  lemma UserGroupsMember(ctx: Context, groups: seq<Group>, x: ProxyGroup)
    requires GroupsNamed(ctx, groups)
    ensures x in UserGroups(ctx, groups) <==> exists g | g in groups :: x == UserGroup(ctx, g)
  {
    UserGroupsAre(ctx, groups);
    if g :| g in groups && x == UserGroup(ctx, g) {
      var i :| 0 <= i < |groups| && groups[i] == g;
      assert UserGroups(ctx, groups)[i] == x;
    }
  }

  ghost predicate FromRoute(ctx: Context, st: State, x: ProxyGroup) {
    exists rt | rt in st.routes && Live(ctx, rt) :: x == ServiceGroup(rt, Resolve(ctx, rt.target).value)
  }

  lemma ServiceGroupsMember(ctx: Context, st: State, x: ProxyGroup)
    ensures x in ServiceGroups(ctx, SortedRoutes(st)) <==> FromRoute(ctx, st, x)
  {
    ServiceGroupsAre(ctx, SortedRoutes(st), x);
    SameMembers(SortedRoutes(st), st.routes);
  }

  /** Where the groups of a profile come from. */
  lemma GroupOrigin(ctx: Context, st: State, p: Profile, x: ProxyGroup)
    requires Assembled(ctx, st, p)
    ensures x in p.groups <==>
      FromGroup(ctx, st, x) || FromRoute(ctx, st, x) || x == DefaultGroup(ctx)
  {
    hide Clean, UserGroups, ServiceGroups, UserGroup, ServiceGroup, Rules, Proxies, ServerNames, GroupNames;
    UserGroupsMember(ctx, st.groups, x);
    ServiceGroupsMember(ctx, st, x);
  }

  /** Where the rules of a profile come from. */
  lemma RuleOrigin(ctx: Context, st: State, p: Profile, r: Rule)
    requires Assembled(ctx, st, p)
    ensures r in p.rules <==>
      r == Final(DEFAULT_GROUP) || exists rt | rt in st.routes && Emits(ctx, rt) :: LineOfRoute(ctx, rt, r)
  {
    RulesAre(ctx, SortedRoutes(st), r);
    SameMembers(SortedRoutes(st), st.routes);
  }

  lemma LinePolicy(ctx: Context, rt: Route, r: Rule)
    requires LineOfRoute(ctx, rt, r)
    ensures r.policy == ServiceName(rt.id) && r.Rule?
    ensures r.kind == R_RULE_SET ==> r.value in rt.providers
  {
    if c :| c in rt.conditions && LineOf(ctx, rt.id, c, r) {
      assert r.kind != R_RULE_SET;
    }
  }

  /** A resolved target is a pseudo-proxy, a proxy or a user group. */
  lemma TargetEmitted(ctx: Context, st: State, p: Profile, t: Target)
    requires Assembled(ctx, st, p) && Resolve(ctx, t).Some?
    ensures var n := Resolve(ctx, t).value;
      match t.kind
      case ToDirect => n == "DIRECT"
      case ToReject => n == "REJECT"
      case _ => IsProxy(p, n) || IsUserGroup(ctx, st, n)
  {
    if t.kind.ToServer? {
      NamedServerIsProxy(ActiveSources(st.sources), st.servers, t.id);
    } else if t.kind.ToGroup? {
      assert HasGroup(st, t.id);
    }
  }

  /** Members of a user group are proxies or user groups, never a pseudo-proxy. */
  lemma UserMembersEmitted(ctx: Context, st: State, p: Profile, g: Group, n: string)
    requires Assembled(ctx, st, p)
    requires g in st.groups && g.id in ctx.groups && n in UserGroup(ctx, g).members
    ensures IsProxy(p, n) || IsUserGroup(ctx, st, n)
  {
    MemberNamesAt(ctx, g.id, g.members);
    var i :| 0 <= i < |g.members| && MemberNames(ctx, g.id, g.members)[i] == n;
    var m := g.members[i];
    assert MemberName(ctx, g.id, m) == Some(n);
    if m in ctx.servers && ctx.servers[m] != "" {
      NamedServerIsProxy(ActiveSources(st.sources), st.servers, m);
    } else {
      assert HasGroup(st, m);
    }
  }

  // ---------------------------------------------------------------- closed references

  ghost predicate MembersClosed(p: Profile) {
    forall g, n | g in p.groups && n in g.members :: n == "DIRECT" || n == "REJECT" || IsProxy(p, n) || IsGroup(p, n)
  }

  ghost predicate PoliciesClosed(p: Profile) {
    forall r | r in p.rules :: IsGroup(p, r.policy)
  }

  ghost predicate RuleSetNamed(p: Profile, name: string) {
    exists r | r in p.rules :: r.Rule? && r.kind == R_RULE_SET && r.value == name
  }

  ghost predicate ProvidersClosed(p: Profile) {
    forall name :: (p.ruleProviders.Some? && name in p.ruleProviders.value) <==> RuleSetNamed(p, name)
  }

  lemma UserGroupEmitted(ctx: Context, st: State, p: Profile, n: string)
    requires Assembled(ctx, st, p) && IsUserGroup(ctx, st, n)
    ensures IsGroup(p, n)
  {
    hide Assembled;
    var g :| g in st.groups && g.id in ctx.groups && ctx.groups[g.id] == n;
    GroupOrigin(ctx, st, p, UserGroup(ctx, g));
  }

  ghost predicate Named(ctx: Context, st: State, p: Profile, n: string) {
    n == "DIRECT" || n == "REJECT" || IsProxy(p, n) || IsUserGroup(ctx, st, n)
  }

  lemma ServiceMemberOrigin(ctx: Context, st: State, p: Profile, rt: Route, n: string)
    requires Assembled(ctx, st, p) && Live(ctx, rt) && n in ServiceGroup(rt, Resolve(ctx, rt.target).value).members
    ensures Named(ctx, st, p, n)
  {
    TargetEmitted(ctx, st, p, rt.target);
  }

  lemma DefaultMemberOrigin(ctx: Context, st: State, p: Profile, n: string)
    requires Assembled(ctx, st, p) && n in DefaultGroup(ctx).members
    ensures Named(ctx, st, p, n)
  {
    TargetEmitted(ctx, st, p, st.settings.defaultPolicy);
  }

  /** A member of any group is a pseudo-proxy, a proxy or a user group. */
  lemma MemberOrigin(ctx: Context, st: State, p: Profile, x: ProxyGroup, n: string)
    requires Assembled(ctx, st, p) && x in p.groups && n in x.members
    ensures Named(ctx, st, p, n)
  {
    hide Assembled;
    GroupOrigin(ctx, st, p, x);
    if FromGroup(ctx, st, x) {
      var g :| g in st.groups && g.id in ctx.groups && x == UserGroup(ctx, g);
      UserMembersEmitted(ctx, st, p, g, n);
    } else if FromRoute(ctx, st, x) {
      var rt :| rt in st.routes && Live(ctx, rt) && x == ServiceGroup(rt, Resolve(ctx, rt.target).value);
      ServiceMemberOrigin(ctx, st, p, rt, n);
    } else {
      DefaultMemberOrigin(ctx, st, p, n);
    }
  }

  lemma MemberClosed(ctx: Context, st: State, p: Profile, x: ProxyGroup, n: string)
    requires Assembled(ctx, st, p) && x in p.groups && n in x.members
    ensures n == "DIRECT" || n == "REJECT" || IsProxy(p, n) || IsGroup(p, n)
  {
    hide Assembled;
    MemberOrigin(ctx, st, p, x, n);
    if IsUserGroup(ctx, st, n) { UserGroupEmitted(ctx, st, p, n); }
  }

  lemma PolicyClosed(ctx: Context, st: State, p: Profile, r: Rule)
    requires Assembled(ctx, st, p) && r in p.rules
    ensures IsGroup(p, r.policy)
  {
    hide Assembled;
    RuleOrigin(ctx, st, p, r);
    if r == Final(DEFAULT_GROUP) {
      GroupOrigin(ctx, st, p, DefaultGroup(ctx));
    } else {
      var rt :| rt in st.routes && Emits(ctx, rt) && LineOfRoute(ctx, rt, r);
      LinePolicy(ctx, rt, r);
      GroupOrigin(ctx, st, p, ServiceGroup(rt, Resolve(ctx, rt.target).value));
    }
  }

  lemma UsedNamed(ctx: Context, st: State, p: Profile, name: string)
    requires Assembled(ctx, st, p)
    ensures name in UsedProviders(ctx, SortedRoutes(st))
        <==> exists rt | rt in st.routes && Emits(ctx, rt) :: name in rt.providers
  {
    UsedProvidersAre(ctx, SortedRoutes(st), name);
    SameMembers(SortedRoutes(st), st.routes);
  }

  lemma ProviderClosed(ctx: Context, st: State, p: Profile, name: string)
    requires Assembled(ctx, st, p)
    ensures (p.ruleProviders.Some? && name in p.ruleProviders.value) <==> RuleSetNamed(p, name)
  {
    UsedNamed(ctx, st, p, name);
    if rt :| rt in st.routes && Emits(ctx, rt) && name in rt.providers {
      var line := Rule(R_RULE_SET, name, ServiceName(rt.id));
      assert LineOfRoute(ctx, rt, line);
      RuleOrigin(ctx, st, p, line);
    }
    if r :| r in p.rules && r.Rule? && r.kind == R_RULE_SET && r.value == name {
      RuleOrigin(ctx, st, p, r);
      var rt :| rt in st.routes && Emits(ctx, rt) && LineOfRoute(ctx, rt, r);
      LinePolicy(ctx, rt, r);
    }
  }

  /** Every name a profile mentions is defined in it, and rule providers are declared
      exactly for the names RULE-SET lines use. */
  lemma ReferencesClosed(lib: Library, st: State)
    requires Compiled(lib, st).Ok?
    ensures MembersClosed(Compiled(lib, st).value)
    ensures PoliciesClosed(Compiled(lib, st).value)
    ensures ProvidersClosed(Compiled(lib, st).value)
  {
    SuccessAssembles(lib, st);
    AssembledCloses(ContextOf(lib, st), st, Compiled(lib, st).value);
  }

  lemma AssembledCloses(ctx: Context, st: State, p: Profile)
    requires Assembled(ctx, st, p)
    ensures MembersClosed(p) && PoliciesClosed(p) && ProvidersClosed(p)
  {
    hide Assembled;
    forall g, n | g in p.groups && n in g.members
      ensures n == "DIRECT" || n == "REJECT" || IsProxy(p, n) || IsGroup(p, n)
    { MemberClosed(ctx, st, p, g, n); }
    forall r | r in p.rules ensures IsGroup(p, r.policy) { PolicyClosed(ctx, st, p, r); }
    forall name ensures (p.ruleProviders.Some? && name in p.ruleProviders.value) <==> RuleSetNamed(p, name) {
      ProviderClosed(ctx, st, p, name);
    }
  }

  // ---------------------------------------------------------------- shape of the groups

  /** The printed group lists its members' names in priority order and carries the health check of its type. */
  ghost predicate Prints(ctx: Context, g: Group, x: ProxyGroup) {
    && g.id in ctx.groups && x.name == ctx.groups[g.id] && x.kind == g.kind
    && |x.members| == |g.members|
    && (forall j | 0 <= j < |g.members| :: MemberName(ctx, g.id, g.members[j]) == Some(x.members[j]))
    && (x.health.Some? <==> g.kind.UrlTest? || g.kind.Fallback? || g.kind.LoadBalance?)
    && (x.health.Some? ==>
          && x.health.value.url == HEALTH_URL
          && x.health.value.interval
               == (if ctx.settings.delayTestIntervalSec > 0 then ctx.settings.delayTestIntervalSec else 300)
          && x.health.value.tolerance == if g.kind.UrlTest? then Some(50) else None)
  }

  lemma UserGroupShape(lib: Library, st: State, i: nat)
    requires Compiled(lib, st).Ok? && i < |st.groups|
    ensures i < |Compiled(lib, st).value.groups|
            && Prints(ContextOf(lib, st), st.groups[i], Compiled(lib, st).value.groups[i])
  {
    SuccessAssembles(lib, st);
    UserGroupPrints(ContextOf(lib, st), st, Compiled(lib, st).value, i);
  }

  lemma UserGroupPrints(ctx: Context, st: State, p: Profile, i: nat)
    requires Assembled(ctx, st, p) && i < |st.groups|
    ensures i < |p.groups| && Prints(ctx, st.groups[i], p.groups[i])
  {
    UserGroupsAre(ctx, st.groups);
    assert st.groups[i] in st.groups;
    MemberNamesAt(ctx, st.groups[i].id, st.groups[i].members);
  }

  /** The service group of a route: the target first, then where it fails over to. */
  ghost predicate Serves(ctx: Context, rt: Route, x: ProxyGroup) {
    && x.name == "rt:" + rt.id && x.kind == Fallback && x.health == Some(Health(HEALTH_URL, 60, None))
    && Resolve(ctx, rt.target).Some?
    && var target, last := Resolve(ctx, rt.target).value, if rt.onUnavailable == "direct" then "DIRECT" else "REJECT";
       x.members == if target == last then [target] else [target, last]
  }

  lemma ServiceGroupShape(lib: Library, st: State, rt: Route)
    requires Compiled(lib, st).Ok? && rt in st.routes && rt.enabled
    ensures exists x | x in Compiled(lib, st).value.groups :: Serves(ContextOf(lib, st), rt, x)
  {
    SuccessAssembles(lib, st);
    ServiceGroupServes(ContextOf(lib, st), st, Compiled(lib, st).value, rt);
  }

  lemma ServiceGroupServes(ctx: Context, st: State, p: Profile, rt: Route)
    requires Assembled(ctx, st, p) && rt in st.routes && rt.enabled
    ensures exists x | x in p.groups :: Serves(ctx, rt, x)
  {
    var x := ServiceGroup(rt, Resolve(ctx, rt.target).value);
    GroupOrigin(ctx, st, p, x);
    assert Serves(ctx, rt, x);
  }
}
