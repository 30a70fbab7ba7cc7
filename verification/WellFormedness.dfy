/** When does `build` yield a profile? Exactly on the states described here, without
    reference to maps, passes or the order in which routes are visited. */
module WellFormedness {
  import opened Prelude
  import opened Text
  import opened Model
  import opened Names
  import opened Generator
  import opened Build

  // ---------------------------------------------------------------- the declarative side

  ghost predicate ActiveSource(st: State, sid: string) {
    exists src | src in st.sources :: src.id == sid && (src.kind.Manual? || src.enabled)
  }

  ghost predicate ActiveServer(st: State, srv: Server) {
    srv in st.servers && !srv.stale && ActiveSource(st, srv.sourceId)
  }

  /** A server a route or a group can use. */
  ghost predicate UsableServer(st: State, id: string) {
    exists srv | ActiveServer(st, srv) :: srv.id == id && |srv.raw| > 0
  }

  ghost predicate HasGroup(st: State, id: string) {
    exists g | g in st.groups :: g.id == id
  }

  ghost predicate LastGroupAt(groups: seq<Group>, id: string, i: int) {
    0 <= i < |groups| && groups[i].id == id && forall j | i < j < |groups| :: groups[j].id != id
  }

  /** The group is printed under the empty name: it is nameless and the first such. */
  ghost predicate PrintsEmpty(groups: seq<Group>, i: int)
    requires 0 <= i < |groups|
  {
    groups[i].name == "" && forall j | 0 <= j < i :: groups[j].name != ""
  }

  ghost predicate UsableAsMember(st: State, id: string) {
    UsableServer(st, id) || exists i | LastGroupAt(st.groups, id, i) :: !PrintsEmpty(st.groups, i)
  }

  ghost predicate GoodGroup(st: State, g: Group) {
    && !HasPrefix(g.name, "rt:")
    && !g.kind.UnknownGroupType?
    && |g.members| > 0
    && forall m | m in g.members :: m != g.id && UsableAsMember(st, m)
  }

  ghost predicate GoodTarget(st: State, t: Target) {
    match t.kind
    case ToDirect => true
    case ToReject => true
    case ToServer => UsableServer(st, t.id)
    case ToGroup => HasGroup(st, t.id)
    case UnknownTarget(_) => false
  }

  ghost predicate GoodCondition(lib: Library, s: Settings, c: Condition) {
    && !c.kind.UnknownCond?
    && (c.kind.Geosite? || c.kind.SrcDevice? ==> c.value != "")
    && (forall i | 0 <= i < |c.value| :: c.value[i] !in ",:\n\r")
    && var key := AdditionKey(lib, c);
       key != "" && key in s.additions ==> forall v | v in s.additions[key] :: ValidAddition(lib, key, v)
  }

  ghost predicate GoodRoute(lib: Library, st: State, rt: Route) {
    && GoodTarget(st, rt.target)
    && (|rt.conditions| > 0 || |rt.providers| > 0)
    && (forall c | c in rt.conditions :: GoodCondition(lib, st.settings, c))
    && (forall p | p in rt.providers :: ValidProvider(p))
  }

  /** Every provider reference of the enabled routes, with multiplicity. */
  ghost function ProviderUses(routes: seq<Route>): multiset<string> {
    if |routes| == 0 then multiset{}
    else
      var rt := routes[|routes| - 1];
      ProviderUses(routes[..|routes| - 1]) + (if rt.enabled then multiset(rt.providers) else multiset{})
  }

  ghost predicate AtMostOnce(m: multiset<string>) {
    forall p :: m[p] <= 1
  }

  ghost predicate GoodGeoSource(source: string, customUrl: string) {
    source == "runetfreedom" || source == "metacubex"
    || (source == "custom" && (HasPrefix(customUrl, "http://") || HasPrefix(customUrl, "https://")))
  }

  ghost predicate WellFormed(lib: Library, st: State) {
    && (forall srv | ActiveServer(st, srv) :: |srv.raw| > 0)
    && (forall g | g in st.groups :: GoodGroup(st, g))
    && (forall rt | rt in st.routes && rt.enabled :: GoodRoute(lib, st, rt))
    && AtMostOnce(ProviderUses(st.routes))
    && GoodTarget(st, st.settings.defaultPolicy)
    && GoodGeoSource(st.settings.geositeSource, st.settings.geositeCustomUrl)
    && GoodGeoSource(st.settings.geoipSource, st.settings.geoipCustomUrl)
  }

  // ---------------------------------------------------------------- sources and servers

  lemma {:induction false} ActiveSourcesKeys(sources: seq<Source>, sid: string)
    ensures sid in ActiveSources(sources)
            <==> exists src | src in sources :: src.id == sid && (src.kind.Manual? || src.enabled)
  {
    if |sources| > 0 {
      var init, src := sources[..|sources| - 1], sources[|sources| - 1];
      assert sources == init + [src];
      ActiveSourcesKeys(init, sid);
    }
  }

  lemma InPoolIff(st: State, srv: Server)
    requires srv in st.servers
    ensures InPool(ActiveSources(st.sources), srv) <==> ActiveServer(st, srv)
  {
    ActiveSourcesKeys(st.sources, srv.sourceId);
  }

  lemma {:induction false} ServerNamesKeys(active: map<string, string>, servers: seq<Server>, id: string)
    ensures id in ServerNames(active, servers) <==> exists srv | srv in servers :: srv.id == id && Emitted(active, srv)
  {
    if |servers| > 0 {
      var init, srv := servers[..|servers| - 1], servers[|servers| - 1];
      assert servers == init + [srv];
      ServerNamesKeys(active, init, id);
    }
  }

  lemma UsableServerIff(st: State, id: string)
    ensures id in ServerNames(ActiveSources(st.sources), st.servers) <==> UsableServer(st, id)
  {
    var active := ActiveSources(st.sources);
    ServerNamesKeys(active, st.servers, id);
    forall srv | srv in st.servers ensures InPool(active, srv) <==> ActiveServer(st, srv) { InPoolIff(st, srv); }
    if id in ServerNames(active, st.servers) {
      var srv :| srv in st.servers && srv.id == id && Emitted(active, srv);
      assert ActiveServer(st, srv);
    }
  }

  lemma {:induction false} ServerProblemsIff(active: map<string, string>, servers: seq<Server>)
    ensures ServerProblems(active, servers) == [] <==> forall srv | srv in servers
        && InPool(active, srv) :: |srv.raw| > 0
  {
    if |servers| > 0 {
      var init, srv := servers[..|servers| - 1], servers[|servers| - 1];
      assert servers == init + [srv];
      ServerProblemsIff(active, init);
    }
  }

  // ---------------------------------------------------------------- names are printable

  /** Proxy names always show the source in brackets. */
  ghost predicate Bracketed(name: string) {
    '[' in name
  }

  lemma UniqueOfKeeps(earlier: seq<string>, display: string)
    ensures display <= UniqueOf(earlier, display)
    ensures UniqueOf(earlier, display) != display ==> display in earlier && '#' in UniqueOf(earlier, display)
  {
    var n := multiset(earlier)[display];
    if n > 0 { assert (display + " #" + Itoa(n + 1))[|display| + 1] == '#'; }
  }

  lemma {:induction false} ServerNamesBracketed(active: map<string, string>, servers: seq<Server>)
    ensures forall id | id in ServerNames(active, servers) :: Bracketed(ServerNames(active, servers)[id])
    ensures forall p | p in Proxies(active, servers) :: Bracketed(p.name)
    ensures forall d | d in ServerDisplays(active, servers) :: Bracketed(d)
  {
    if |servers| > 0 {
      var init, srv := servers[..|servers| - 1], servers[|servers| - 1];
      ServerNamesBracketed(active, init);
      if Emitted(active, srv) {
        var d := Display(active, srv);
        assert d[|srv.name| + 1] == '[';
        UniqueOfKeeps(ServerDisplays(active, init), d);
        assert LastName(active, servers)[|srv.name| + 1] == '[';
      }
    }
  }

  lemma {:induction false} GroupDisplaysAt(groups: seq<Group>)
    ensures forall i | 0 <= i < |groups| :: GroupDisplays(groups)[i] == groups[i].name
  {
    if |groups| > 0 { GroupDisplaysAt(groups[..|groups| - 1]); }
  }

  /** The name of a group ID is the one assigned at its last occurrence. */
  lemma {:induction false} GroupNameAt(issued: seq<string>, groups: seq<Group>, id: string, i: int)
    requires LastGroupAt(groups, id, i)
    ensures id in GroupNames(issued, groups)
    ensures GroupNames(issued, groups)[id] == UniqueOf(issued + GroupDisplays(groups[..i]), groups[i].name)
  {
    var init := groups[..|groups| - 1];
    if i < |init| {
      assert init[..i] == groups[..i];
      GroupNameAt(issued, init, id, i);
    }
  }

  lemma {:induction false} LastGroup(groups: seq<Group>, id: string) returns (i: int)
    requires exists g | g in groups :: g.id == id
    ensures LastGroupAt(groups, id, i)
  {
    if groups[|groups| - 1].id == id {
      i := |groups| - 1;
    } else {
      var init := groups[..|groups| - 1];
      assert groups == init + [groups[|groups| - 1]];
      i := LastGroup(init, id);
    }
  }

  lemma EmptyNameIff(issued: seq<string>, groups: seq<Group>, id: string, i: int)
    requires LastGroupAt(groups, id, i)
    requires "" !in issued
    ensures id in GroupNames(issued, groups) && (GroupNames(issued, groups)[id] == "" <==> PrintsEmpty(groups, i))
  {
    hide GroupNames;
    GroupNameAt(issued, groups, id, i);
    EmptyDisplay(issued, groups, i);
  }

  lemma EmptyDisplay(issued: seq<string>, groups: seq<Group>, i: int)
    requires 0 <= i < |groups| && "" !in issued
    ensures UniqueOf(issued + GroupDisplays(groups[..i]), groups[i].name) == "" <==> PrintsEmpty(groups, i)
  {
    hide GroupDisplays;
    var ds := GroupDisplays(groups[..i]);
    UniqueOfKeeps(issued + ds, groups[i].name);
    GroupDisplaysAt(groups[..i]);
    assert "" in issued + ds <==> "" in ds;
    if groups[i].name == "" && !PrintsEmpty(groups, i) {
      var j :| 0 <= j < i && groups[j].name == "";
      assert ds[j] == "";
      assert multiset(issued + ds)[""] > 0;
    }
  }

  // ---------------------------------------------------------------- groups

  lemma MemberNameIff(lib: Library, st: State, gid: string, m: string)
    ensures MemberName(ContextOf(lib, st), gid, m).Some? <==> m != gid && UsableAsMember(st, m)
  {
    var active := ActiveSources(st.sources);
    var issued := ServerDisplays(active, st.servers);
    UsableServerIff(st, m);
    ServerNamesBracketed(active, st.servers);
    GroupNamesKeys(issued, st.groups);
    assert "" !in issued;
    if HasGroup(st, m) {
      var i := LastGroup(st.groups, m);
      EmptyNameIff(issued, st.groups, m, i);
    } else {
      assert m !in GroupNames(issued, st.groups);
    }
  }

  lemma {:induction false} MemberProblemsIff(ctx: Context, gid: string, members: seq<string>)
    ensures MemberProblems(ctx, gid, members) == [] <==> forall m | m in members :: MemberName(ctx, gid, m).Some?
    ensures MemberProblems(ctx, gid, members) == [] ==> |MemberNames(ctx, gid, members)| == |members|
    ensures |MemberNames(ctx, gid, members)| <= |members|
  {
    if |members| > 0 {
      var init, m := members[..|members| - 1], members[|members| - 1];
      assert members == init + [m];
      MemberProblemsIff(ctx, gid, init);
    }
  }

  lemma GroupProblemsIff(lib: Library, st: State, g: Group)
    ensures !HasPrefix(g.name, "rt:") && GroupProblems(ContextOf(lib, st), g) == [] <==> GoodGroup(st, g)
  {
    var ctx := ContextOf(lib, st);
    MemberProblemsIff(ctx, g.id, g.members);
    forall m | m in g.members ensures MemberName(ctx, g.id, m).Some? <==> m != g.id && UsableAsMember(st, m) {
      MemberNameIff(lib, st, g.id, m);
    }
  }

  lemma {:induction false} AllGroupProblemsIff(ctx: Context, groups: seq<Group>)
    ensures AllGroupProblems(ctx, groups) == [] <==> forall g | g in groups :: GroupProblems(ctx, g) == []
    ensures PrefixProblems(groups) == [] <==> forall g | g in groups :: !HasPrefix(g.name, "rt:")
  {
    if |groups| > 0 {
      var init, g := groups[..|groups| - 1], groups[|groups| - 1];
      assert groups == init + [g];
      AllGroupProblemsIff(ctx, init);
    }
  }

  // ---------------------------------------------------------------- routes

  lemma TargetIff(lib: Library, st: State, t: Target)
    ensures Resolve(ContextOf(lib, st), t).Some? <==> GoodTarget(st, t)
  {
    UsableServerIff(st, t.id);
    GroupNamesKeys(ServerDisplays(ActiveSources(st.sources), st.servers), st.groups);
  }

  lemma ConditionIff(lib: Library, st: State, rid: string, c: Condition)
    ensures ConditionProblems(ContextOf(lib, st), rid, c) == [] <==> GoodCondition(lib, st.settings, c)
  {
    var ctx := ContextOf(lib, st);
    var key := AdditionKey(lib, c);
    assert key in ctx.badAdditions <==>
      (key in st.settings.additions && exists v | v in st.settings.additions[key] :: !ValidAddition(lib, key, v));
  }

  lemma {:induction false} AllConditionsIff(lib: Library, st: State, rid: string, cs: seq<Condition>)
    ensures AllConditionProblems(ContextOf(lib, st), rid, cs) == []
            <==> forall c | c in cs :: GoodCondition(lib, st.settings, c)
  {
    if |cs| > 0 {
      var init, c := cs[..|cs| - 1], cs[|cs| - 1];
      assert cs == init + [c];
      AllConditionsIff(lib, st, rid, init);
      ConditionIff(lib, st, rid, c);
    }
  }

  lemma {:induction false} ProvidersIff(rid: string, used: set<string>, ps: seq<string>)
    ensures ProviderProblems(rid, used, ps) == []
            <==> (forall p | p in ps :: ValidProvider(p) && p !in used) && AtMostOnce(multiset(ps))
  {
    if |ps| > 0 {
      var init, p := ps[..|ps| - 1], ps[|ps| - 1];
      assert ps == init + [p];
      ProvidersIff(rid, used, init);
      if AtMostOnce(multiset(ps)) {
        forall q ensures multiset(init)[q] <= 1 { assert multiset(ps)[q] <= 1; }
        assert multiset(ps)[p] <= 1;
      }
    }
  }

  ghost predicate RoutesGood(lib: Library, st: State, routes: seq<Route>) {
    forall rt | rt in routes && rt.enabled :: GoodRoute(lib, st, rt)
  }

  lemma {:induction false} UsedAreUses(lib: Library, st: State, routes: seq<Route>, p: string)
    requires RoutesGood(lib, st, routes)
    ensures p in UsedProviders(ContextOf(lib, st), routes) <==> p in ProviderUses(routes)
  {
    if |routes| > 0 {
      var init, rt := routes[..|routes| - 1], routes[|routes| - 1];
      assert routes == init + [rt];
      UsedAreUses(lib, st, init, p);
      TargetIff(lib, st, rt.target);
    }
  }

  lemma RouteProblemsIff(lib: Library, st: State, used: set<string>, rt: Route)
    requires rt.enabled
    ensures Resolve(ContextOf(lib, st), rt.target).Some? && RouteProblems(ContextOf(lib, st), used, rt) == []
        <==> GoodRoute(lib, st, rt)
             && AtMostOnce(multiset(rt.providers))
             && forall p | p in rt.providers :: p !in used
  {
    TargetIff(lib, st, rt.target);
    AllConditionsIff(lib, st, rt.id, rt.conditions);
    ProvidersIff(rt.id, used, rt.providers);
  }

  /** Adding a sequence to a repetition-free multiset keeps it repetition-free iff
      the sequence has no repetition and nothing in common with it. */
  lemma AtMostOnceSum(m: multiset<string>, s: seq<string>)
    requires AtMostOnce(m)
    ensures AtMostOnce(m + multiset(s)) <==> AtMostOnce(multiset(s)) && forall p | p in s :: p !in m
  {
    if AtMostOnce(m + multiset(s)) {
      forall p ensures multiset(s)[p] <= 1 { assert (m + multiset(s))[p] <= 1; }
      forall p | p in s ensures p !in m { assert p in multiset(s) && (m + multiset(s))[p] <= 1; }
    } else {
      var p :| (m + multiset(s))[p] > 1;
      assert m[p] <= 1;
    }
  }

  lemma AtMostOnceLeft(m: multiset<string>, n: multiset<string>)
    requires AtMostOnce(m + n)
    ensures AtMostOnce(m)
  {
    forall p ensures m[p] <= 1 { assert (m + n)[p] <= 1; }
  }

  /** One more route, after good ones: its own problems are all that matters. */
  lemma RouteStepIff(lib: Library, st: State, init: seq<Route>, rt: Route)
    requires RoutesGood(lib, st, init) && AtMostOnce(ProviderUses(init))
    ensures var ctx := ContextOf(lib, st);
      (rt.enabled ==> Resolve(ctx, rt.target).Some? && RouteProblems(ctx, UsedProviders(ctx, init), rt) == [])
        <==> (rt.enabled ==> GoodRoute(lib, st, rt)) && AtMostOnce(ProviderUses(init + [rt]))
  {
    hide ContextOf, RouteProblems, Resolve, GoodRoute, UsedProviders, AtMostOnce, RoutesGood, ProviderUses;
    ProviderUsesStep(init, rt);
    if rt.enabled {
      RouteProblemsIff(lib, st, UsedProviders(ContextOf(lib, st), init), rt);
      AtMostOnceSum(ProviderUses(init), rt.providers);
      forall p ensures p in UsedProviders(ContextOf(lib, st), init) <==> p in ProviderUses(init) {
        UsedAreUses(lib, st, init, p);
      }
    }
  }

  lemma ProviderUsesStep(init: seq<Route>, rt: Route)
    ensures ProviderUses(init + [rt])
        == ProviderUses(init) + (if rt.enabled then multiset(rt.providers) else multiset{})
    ensures !rt.enabled ==> ProviderUses(init + [rt]) == ProviderUses(init)
    ensures AtMostOnce(ProviderUses(init + [rt])) ==> AtMostOnce(ProviderUses(init))
  {
    assert (init + [rt])[..|init|] == init;
    if AtMostOnce(ProviderUses(init + [rt])) {
      AtMostOnceLeft(ProviderUses(init), if rt.enabled then multiset(rt.providers) else multiset{});
    }
  }

  lemma {:induction false} RoutesIff(lib: Library, st: State, routes: seq<Route>)
    ensures LostTargets(ContextOf(lib, st), routes) == [] && AllRouteProblems(ContextOf(lib, st), routes) == []
            <==> RoutesGood(lib, st, routes) && AtMostOnce(ProviderUses(routes))
  {
    if |routes| > 0 {
      hide ContextOf, LostTargets, AllRouteProblems, GoodRoute, AtMostOnce, ProviderUses, Resolve, RouteProblems;
      var init, rt := routes[..|routes| - 1], routes[|routes| - 1];
      assert routes == init + [rt];
      RoutesIff(lib, st, init);
      ProviderUsesStep(init, rt);
      assert RoutesGood(lib, st, routes) <==> RoutesGood(lib, st, init) && (rt.enabled ==> GoodRoute(lib, st, rt));
      if RoutesGood(lib, st, init) && AtMostOnce(ProviderUses(init)) { RouteStepIff(lib, st, init, rt); }
    }
  }

  // ---------------------------------------------------------------- visiting order is immaterial

  lemma {:induction false} ProviderUsesAppend(a: seq<Route>, b: seq<Route>)
    ensures ProviderUses(a + b) == ProviderUses(a) + ProviderUses(b)
  {
    if |b| == 0 {
      assert a + b == a;
    } else {
      assert (a + b)[..|a + b| - 1] == a + b[..|b| - 1];
      ProviderUsesAppend(a, b[..|b| - 1]);
    }
  }

  lemma ProviderUsesRemove(s: seq<Route>, i: nat)
    requires i < |s|
    ensures ProviderUses(s) == ProviderUses(s[..i] + s[i + 1..]) + ProviderUses([s[i]])
  {
    hide ProviderUses;
    assert s == s[..i] + ([s[i]] + s[i + 1..]);
    ProviderUsesAppend(s[..i], [s[i]] + s[i + 1..]);
    ProviderUsesAppend([s[i]], s[i + 1..]);
    ProviderUsesAppend(s[..i], s[i + 1..]);
  }

  lemma MultisetRemove<T>(s: seq<T>, i: nat)
    requires i < |s|
    ensures multiset(s[..i] + s[i + 1..]) == multiset(s) - multiset{s[i]}
  {
    assert s == s[..i] + [s[i]] + s[i + 1..];
  }

  lemma {:induction false} ProviderUsesPermutation(a: seq<Route>, b: seq<Route>)
    requires multiset(a) == multiset(b)
    ensures ProviderUses(a) == ProviderUses(b)
  {
    assert |multiset(a)| == |a|;
    assert |multiset(b)| == |b|;
    if |a| > 0 {
      assert a[|a| - 1] in multiset(b);
      var i :| 0 <= i < |b| && b[i] == a[|a| - 1];
      MultisetRemove(a, |a| - 1);
      MultisetRemove(b, i);
      ProviderUsesRemove(a, |a| - 1);
      ProviderUsesRemove(b, i);
      ProviderUsesPermutation(a[..|a| - 1] + a[|a|..], b[..i] + b[i + 1..]);
    }
  }

  lemma SameMembers<T>(a: seq<T>, b: seq<T>)
    requires multiset(a) == multiset(b)
    ensures forall x :: x in a <==> x in b
  {
    forall x ensures x in a <==> x in b { assert x in multiset(a) <==> x in multiset(b); }
  }

  // ---------------------------------------------------------------- the characterisation

  lemma GeoUrlIff(kind: string, source: string, customUrl: string)
    ensures GeoUrl(kind, source, customUrl).Some? <==> GoodGeoSource(source, customUrl)
  {
  }

  lemma ReportEmptyIff(lib: Library, st: State)
    ensures Report(lib, st) == Problems([], [])
            <==> (forall srv | ActiveServer(st, srv) :: |srv.raw| > 0)
                 && (forall g | g in st.groups :: GoodGroup(st, g))
                 && RoutesGood(lib, st, st.routes) && AtMostOnce(ProviderUses(st.routes))
                 && GoodTarget(st, st.settings.defaultPolicy)
  {
    var ctx, active := ContextOf(lib, st), ActiveSources(st.sources);
    ServerProblemsIff(active, st.servers);
    forall srv | srv in st.servers ensures InPool(active, srv) <==> ActiveServer(st, srv) { InPoolIff(st, srv); }
    AllGroupProblemsIff(ctx, st.groups);
    forall g | g in st.groups
      ensures !HasPrefix(g.name, "rt:") && GroupProblems(ctx, g) == [] <==> GoodGroup(st, g)
    { GroupProblemsIff(lib, st, g); }
    RoutesIff(lib, st, SortedRoutes(st));
    ProviderUsesPermutation(SortedRoutes(st), st.routes);
    SameMembers(SortedRoutes(st), st.routes);
    TargetIff(lib, st, st.settings.defaultPolicy);
  }

  /** build succeeds on exactly the well-formed states. */
  lemma CompilesIff(lib: Library, st: State)
    ensures Compiled(lib, st).Ok? <==> WellFormed(lib, st)
  {
    ReportEmptyIff(lib, st);
    GeoUrlIff("geosite", st.settings.geositeSource, st.settings.geositeCustomUrl);
    GeoUrlIff("geoip", st.settings.geoipSource, st.settings.geoipCustomUrl);
  }

  lemma {:induction false} LostTargetsAre(ctx: Context, routes: seq<Route>, l: Lost)
    ensures l in LostTargets(ctx, routes)
        <==> exists rt | rt in routes && rt.enabled && Resolve(ctx, rt.target).None? ::
               l == Lost(rt.id, TargetDetail(ctx, rt.target))
  {
    if |routes| > 0 {
      var init, rt := routes[..|routes| - 1], routes[|routes| - 1];
      assert routes == init + [rt];
      LostTargetsAre(ctx, init, l);
    }
  }

  lemma {:induction false} GroupsByIdKeys(groups: seq<Group>)
    ensures GroupsById(groups).Keys == set g | g in groups :: g.id
  {
    if |groups| > 0 {
      assert groups == groups[..|groups| - 1] + [groups[|groups| - 1]];
      GroupsByIdKeys(groups[..|groups| - 1]);
    }
  }

  /** The detail printed with a lost target. */
  ghost function LostBecause(t: Target): LostReason {
    match t.kind
    case ToServer => ServerGone(t.id)
    case ToGroup => GroupGone(t.id)
    case _ => BadTargetType(t.kind)
  }

  /** The report names exactly the enabled routes whose target does not exist, with the true
      reason; "group not usable" is never the answer. */
  lemma LostExactly(lib: Library, st: State, l: Lost)
    ensures l in Report(lib, st).lost
        <==> exists rt | rt in st.routes && rt.enabled
            && !GoodTarget(st, rt.target) :: l == Lost(rt.id, LostBecause(rt.target))
  {
    var ctx := ContextOf(lib, st);
    LostTargetsAre(ctx, SortedRoutes(st), l);
    SameMembers(SortedRoutes(st), st.routes);
    GroupsByIdKeys(st.groups);
    forall rt | rt in st.routes
      ensures Resolve(ctx, rt.target).None? <==> !GoodTarget(st, rt.target)
      ensures Resolve(ctx, rt.target).None? ==> TargetDetail(ctx, rt.target) == LostBecause(rt.target)
    {
      TargetIff(lib, st, rt.target);
    }
  }

  lemma UsedIsUses(lib: Library, st: State, p: string)
    requires WellFormed(lib, st)
    ensures p in UsedProviders(ContextOf(lib, st), SortedRoutes(st)) <==> p in ProviderUses(st.routes)
  {
    SameMembers(SortedRoutes(st), st.routes);
    ProviderUsesPermutation(SortedRoutes(st), st.routes);
    UsedAreUses(lib, st, SortedRoutes(st), p);
  }

  lemma CheckedIff(r: Result<Profile, Problems>, known: Option<set<string>>, used: set<string>)
    requires r.Ok? ==> forall p :: (r.value.ruleProviders.Some? && p in r.value.ruleProviders.value) <==> p in used
    ensures Checked(r, known).Ok? <==> r.Ok? && (known.Some? ==> used <= known.value)
  {
    if r.Ok? && known.Some? && r.value.ruleProviders.Some? {
      var names := r.value.ruleProviders.value.Keys;
      assert names - known.value == {} ==> forall p | p in names :: p in names - known.value || p in known.value;
    }
  }

  /** With the payload check on, success needs every referenced provider to be known. */
  lemma GeneratesIff(lib: Library, st: State, known: Option<set<string>>)
    ensures Checked(Compiled(lib, st), known).Ok?
            <==> WellFormed(lib, st)
                 && (known.Some? ==> forall p | p in ProviderUses(st.routes) :: p in known.value)
  {
    hide Compiled, Checked, WellFormed, UsedProviders, ProviderUses, SortedRoutes;
    CompilesIff(lib, st);
    var used := UsedProviders(ContextOf(lib, st), SortedRoutes(st));
    if Compiled(lib, st).Ok? { CompiledProviders(lib, st); }
    CheckedIff(Compiled(lib, st), known, used);
    if WellFormed(lib, st) {
      forall p ensures p in used <==> p in ProviderUses(st.routes) { UsedIsUses(lib, st, p); }
    }
  }

  lemma CompiledProviders(lib: Library, st: State)
    requires Compiled(lib, st).Ok?
    ensures var listed := Compiled(lib, st).value.ruleProviders;
      forall p :: (listed.Some? && p in listed.value) <==> p in UsedProviders(ContextOf(lib, st), SortedRoutes(st))
  {
    hide Report, ContextOf, SortedRoutes, UsedProviders, NeedGeosite, Proxies, UserGroups, ServiceGroups, DefaultGroup,
      Rules, GeositeUrl, GeoipUrl, GeoProblems, ActiveSources, ProviderPath;
  }
}
