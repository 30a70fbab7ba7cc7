/** The one namespace a profile keeps for proxies and groups: exactly when its names are distinct. */
module Distinctness {
  import opened Prelude
  import opened Text
  import opened Model
  import opened Names
  import opened Generator
  import opened WellFormedness
  import opened Closure
  import opened FailClosed

  ghost predicate UniqueGroupIds(st: State) {
    forall i, j | 0 <= i < j < |st.groups| :: st.groups[i].id != st.groups[j].id
  }

  // ---------------------------------------------------------------- distinct names

  function ProxyNames(ps: seq<Proxy>): (r: seq<string>)
    ensures |r| == |ps| && forall i | 0 <= i < |ps| :: r[i] == ps[i].name
  {
    seq(|ps|, i requires 0 <= i < |ps| => ps[i].name)
  }

  function PrintedGroupNames(gs: seq<ProxyGroup>): (r: seq<string>)
    ensures |r| == |gs| && forall i | 0 <= i < |gs| :: r[i] == gs[i].name
  {
    seq(|gs|, i requires 0 <= i < |gs| => gs[i].name)
  }

  /** The one namespace mihomo keeps for proxies and groups. */
  function Namespace(p: Profile): seq<string> {
    ProxyNames(p.proxies) + PrintedGroupNames(p.groups)
  }

  /** All display names that were asked for, in order. */
  function Displays(st: State): seq<string> {
    ServerDisplays(ActiveSources(st.sources), st.servers) + GroupDisplays(st.groups)
  }

  lemma {:induction false} ProxyNamesAssigned(active: map<string, string>, servers: seq<Server>)
    ensures ProxyNames(Proxies(active, servers)) == Assigned(ServerDisplays(active, servers))
  {
    if |servers| > 0 {
      var init, srv := servers[..|servers| - 1], servers[|servers| - 1];
      ProxyNamesAssigned(active, init);
      if Emitted(active, srv) {
        var ds := ServerDisplays(active, init);
        assert ServerDisplays(active, servers)[..|ds|] == ds;
      }
    }
  }

  lemma {:induction false} GroupDisplaysTake(groups: seq<Group>, i: nat)
    requires i <= |groups|
    ensures GroupDisplays(groups)[..i] == GroupDisplays(groups[..i])
  {
    GroupDisplaysAt(groups);
    GroupDisplaysAt(groups[..i]);
  }

  lemma DisplayAt(issued: seq<string>, groups: seq<Group>, i: nat)
    requires i < |groups|
    ensures var ds, k := issued + GroupDisplays(groups), |issued| + i;
      ds[k] == groups[i].name && ds[..k] == issued + GroupDisplays(groups[..i])
  {
    GroupDisplaysTake(groups, i);
    GroupDisplaysAt(groups);
  }

  lemma AssignedToGroup(issued: seq<string>, groups: seq<Group>, i: nat)
    requires i < |groups|
    ensures Assigned(issued + GroupDisplays(groups))[|issued| + i]
         == UniqueOf(issued + GroupDisplays(groups[..i]), groups[i].name)
  {
    DisplayAt(issued, groups, i);
    AssignedIs(issued + GroupDisplays(groups), |issued| + i, issued + GroupDisplays(groups[..i]), groups[i].name);
  }

  lemma AssignedIs(ds: seq<string>, k: nat, earlier: seq<string>, d: string)
    requires k < |ds| && ds[..k] == earlier && ds[k] == d
    ensures Assigned(ds)[k] == UniqueOf(earlier, d)
  {
    AssignedAt(ds, k);
  }

  lemma UserNamesAssigned(ctx: Context, issued: seq<string>, groups: seq<Group>)
    requires GroupsNamed(ctx, groups) && ctx.groups == GroupNames(issued, groups)
    requires forall i, j | 0 <= i < j < |groups| :: groups[i].id != groups[j].id
    ensures var names, given := PrintedGroupNames(UserGroups(ctx, groups)), Assigned(issued + GroupDisplays(groups));
      |names| == |groups| && forall i | 0 <= i < |groups| :: names[i] == given[|issued| + i]
  {
    UserGroupsAre(ctx, groups);
    forall i | 0 <= i < |groups|
      ensures UserGroup(ctx, groups[i]).name == Assigned(issued + GroupDisplays(groups))[|issued| + i]
    {
      assert LastGroupAt(groups, groups[i].id, i);
      GroupNameAt(issued, groups, groups[i].id, i);
      AssignedToGroup(issued, groups, i);
    }
  }

  /** The user part of the namespace is what uniqueName assigned to the displays. */
  lemma UserNamespace(ctx: Context, st: State, p: Profile)
    requires Assembled(ctx, st, p) && UniqueGroupIds(st)
    ensures ProxyNames(p.proxies) + PrintedGroupNames(UserGroups(ctx, st.groups)) == Assigned(Displays(st))
  {
    hide Clean, Assigned, ServerDisplays, GroupDisplays, Proxies, UserGroups, ServiceGroups, Rules, GroupNames,
      ServerNames;
    var active := ActiveSources(st.sources);
    var issued, ds := ServerDisplays(active, st.servers), GroupDisplays(st.groups);
    ProxyNamesAssigned(active, st.servers);
    AssignedPrefix(issued, ds);
    UserNamesAssigned(ctx, issued, st.groups);
  }

  lemma DistinctParts<T>(a: seq<T>, b: seq<T>)
    requires Distinct(a + b)
    ensures Distinct(a) && Distinct(b)
  {
    forall i, j | 0 <= i < j < |a| ensures a[i] != a[j] { assert (a + b)[i] != (a + b)[j]; }
    forall i, j | 0 <= i < j < |b| ensures b[i] != b[j] { assert (a + b)[|a| + i] != (a + b)[|a| + j]; }
  }

  lemma NamespaceSplit(ctx: Context, st: State, p: Profile)
    requires Assembled(ctx, st, p)
    ensures Namespace(p) == (ProxyNames(p.proxies) + PrintedGroupNames(UserGroups(ctx, st.groups)))
                            + (PrintedGroupNames(ServiceGroups(ctx, SortedRoutes(st))) + [DEFAULT_GROUP])
  {
    GroupsSplit(p, UserGroups(ctx, st.groups), ServiceGroups(ctx, SortedRoutes(st)), DefaultGroup(ctx));
  }

  lemma GroupsSplit(p: Profile, users: seq<ProxyGroup>, services: seq<ProxyGroup>, last: ProxyGroup)
    requires p.groups == users + services + [last]
    ensures Namespace(p)
         == (ProxyNames(p.proxies) + PrintedGroupNames(users)) + (PrintedGroupNames(services) + [last.name])
  {
  }

  lemma DistinctConcat<T>(a: seq<T>, b: seq<T>)
    ensures Distinct(a + b) <==> Distinct(a) && Distinct(b) && forall x | x in a :: x !in b
  {
    if Distinct(a + b) {
      DistinctParts(a, b);
      forall i, j | 0 <= i < |a| && 0 <= j < |b| ensures a[i] != b[j] { assert (a + b)[i] != (a + b)[|a| + j]; }
    }
    if Distinct(a) && Distinct(b) && forall x | x in a :: x !in b {
      forall i, j | 0 <= i < j < |a + b| ensures (a + b)[i] != (a + b)[j] {
        if i < |a| <= j { assert a[i] in a && b[j - |a|] in b; }
      }
    }
  }

  // ---------------------------------------------------------------- the user part

  /** Groups of one ID are printed under one name. */
  lemma SharedGroupId(ctx: Context, groups: seq<Group>, i: nat, j: nat)
    requires GroupsNamed(ctx, groups) && i < j < |groups| && groups[i].id == groups[j].id
    ensures !Distinct(PrintedGroupNames(UserGroups(ctx, groups)))
  {
    UserGroupsAre(ctx, groups);
    var names := PrintedGroupNames(UserGroups(ctx, groups));
    assert names[i] == ctx.groups[groups[i].id] == names[j];
  }

  lemma UserPartIff(ctx: Context, st: State, p: Profile)
    requires Assembled(ctx, st, p)
    ensures Distinct(ProxyNames(p.proxies) + PrintedGroupNames(UserGroups(ctx, st.groups)))
        <==> UniqueGroupIds(st) && !Clash(Displays(st))
  {
    hide Clean, Assigned, UserGroups, Proxies, ServiceGroups, Rules, Clash, ServerDisplays, GroupDisplays,
      ServerNames, GroupNames;
    if UniqueGroupIds(st) {
      UserNamespace(ctx, st, p);
      UniqueNamesIff(Displays(st));
    } else {
      var i, j :| 0 <= i < j < |st.groups| && st.groups[i].id == st.groups[j].id;
      SharedGroupId(ctx, st.groups, i, j);
      if Distinct(ProxyNames(p.proxies) + PrintedGroupNames(UserGroups(ctx, st.groups))) {
        DistinctParts(ProxyNames(p.proxies), PrintedGroupNames(UserGroups(ctx, st.groups)));
      }
    }
  }

  // ---------------------------------------------------------------- the service part

  /** The IDs of the routes that are on, in list order. */
  function EnabledIds(routes: seq<Route>): seq<string> {
    if |routes| == 0 then []
    else
      var prev, rt := EnabledIds(routes[..|routes| - 1]), routes[|routes| - 1];
      if rt.enabled then prev + [rt.id] else prev
  }

  ghost predicate PairwiseDistinct(routes: seq<Route>) {
    forall i, j | 0 <= i < j < |routes| && routes[i].enabled && routes[j].enabled :: routes[i].id != routes[j].id
  }

  lemma {:induction false} EnabledIdsAre(routes: seq<Route>)
    ensures forall id :: id in EnabledIds(routes) <==> exists rt | rt in routes :: rt.enabled && rt.id == id
    ensures Distinct(EnabledIds(routes)) <==> PairwiseDistinct(routes)
  {
    if |routes| > 0 {
      var init, rt := routes[..|routes| - 1], routes[|routes| - 1];
      assert routes == init + [rt];
      EnabledIdsAre(init);
      assert PairwiseDistinct(routes) <==> PairwiseDistinct(init) && (rt.enabled ==> rt.id !in EnabledIds(init)) by {
        PairwiseLast(init, rt);
      }
      if rt.enabled { DistinctConcat(EnabledIds(init), [rt.id]); }
    }
  }

  lemma PairwiseLast(init: seq<Route>, rt: Route)
    ensures PairwiseDistinct(init + [rt])
        <==> PairwiseDistinct(init) && (rt.enabled ==> forall x | x in init && x.enabled :: x.id != rt.id)
  {
    var all := init + [rt];
    if PairwiseDistinct(all) {
      forall i, j | 0 <= i < j < |init| && init[i].enabled && init[j].enabled ensures init[i].id != init[j].id {
        assert all[i] == init[i] && all[j] == init[j];
      }
      forall x | rt.enabled && x in init && x.enabled ensures x.id != rt.id {
        var i :| 0 <= i < |init| && init[i] == x;
        assert all[i] == x && all[|init|] == rt;
      }
    }
  }

  lemma {:induction false} EnabledOnce(routes: seq<Route>, rt: Route)
    requires PairwiseDistinct(routes) && rt.enabled
    ensures multiset(routes)[rt] <= 1
  {
    if |routes| > 0 {
      var init := routes[..|routes| - 1];
      assert routes == init + [routes[|routes| - 1]];
      EnabledOnce(init, rt);
      if multiset(init)[rt] == 1 { assert rt in init; }
    }
  }

  lemma PairwisePermutation(a: seq<Route>, b: seq<Route>)
    requires multiset(a) == multiset(b) && PairwiseDistinct(a)
    ensures PairwiseDistinct(b)
  {
    forall i, j | 0 <= i < j < |b| && b[i].enabled && b[j].enabled ensures b[i].id != b[j].id {
      if b[i] == b[j] {
        TwiceInMultiset(b, i, j);
        EnabledOnce(a, b[i]);
      } else {
        assert b[i] in multiset(a) && b[j] in multiset(a);
        var k :| 0 <= k < |a| && a[k] == b[i];
        var l :| 0 <= l < |a| && a[l] == b[j];
      }
    }
  }

  lemma SortedEnabledIds(st: State)
    ensures Distinct(EnabledIds(SortedRoutes(st))) <==> Distinct(EnabledIds(st.routes))
    ensures forall id :: id in EnabledIds(SortedRoutes(st)) <==> id in EnabledIds(st.routes)
  {
    hide EnabledIds;
    EnabledIdsAre(SortedRoutes(st));
    EnabledIdsAre(st.routes);
    SameMembers(SortedRoutes(st), st.routes);
    if PairwiseDistinct(st.routes) { PairwisePermutation(st.routes, SortedRoutes(st)); }
    if PairwiseDistinct(SortedRoutes(st)) { PairwisePermutation(SortedRoutes(st), st.routes); }
  }

  lemma {:induction false} ServiceNamesAre(ctx: Context, routes: seq<Route>)
    requires forall rt | rt in routes && rt.enabled :: Live(ctx, rt)
    ensures var names, ids := PrintedGroupNames(ServiceGroups(ctx, routes)), EnabledIds(routes);
      |names| == |ids| && forall i | 0 <= i < |ids| :: names[i] == ServiceName(ids[i])
  {
    if |routes| > 0 {
      assert routes == routes[..|routes| - 1] + [routes[|routes| - 1]];
      ServiceNamesAre(ctx, routes[..|routes| - 1]);
    }
  }

  lemma ServiceNamesIff(ctx: Context, st: State, p: Profile)
    requires Assembled(ctx, st, p)
    ensures Distinct(PrintedGroupNames(ServiceGroups(ctx, SortedRoutes(st)))) <==> Distinct(EnabledIds(st.routes))
  {
    AllEnabledLive(ctx, st, p);
    hide Assembled, EnabledIds, ServiceGroups, PrintedGroupNames, SortedRoutes, Distinct, ServiceName;
    SortedEnabledIds(st);
    ServiceNamesAre(ctx, SortedRoutes(st));
    RenamedIff(PrintedGroupNames(ServiceGroups(ctx, SortedRoutes(st))), EnabledIds(SortedRoutes(st)));
  }

  lemma ServiceNameIn(ctx: Context, st: State, p: Profile, id: string)
    requires Assembled(ctx, st, p)
    ensures ServiceName(id) in PrintedGroupNames(ServiceGroups(ctx, SortedRoutes(st))) <==> id in EnabledIds(st.routes)
  {
    AllEnabledLive(ctx, st, p);
    hide Assembled, EnabledIds, ServiceGroups, PrintedGroupNames, SortedRoutes, Distinct, ServiceName;
    SortedEnabledIds(st);
    ServiceNamesAre(ctx, SortedRoutes(st));
    RenamedIff(PrintedGroupNames(ServiceGroups(ctx, SortedRoutes(st))), EnabledIds(SortedRoutes(st)));
  }

  lemma ServicePartIff(ctx: Context, st: State, p: Profile)
    requires Assembled(ctx, st, p)
    ensures Distinct(PrintedGroupNames(ServiceGroups(ctx, SortedRoutes(st))) + [DEFAULT_GROUP])
        <==> Distinct(EnabledIds(st.routes)) && "default" !in EnabledIds(st.routes)
  {
    hide Assembled, EnabledIds, ServiceGroups, PrintedGroupNames, SortedRoutes, ServiceName;
    ServiceNamesIff(ctx, st, p);
    ServiceNameIn(ctx, st, p, "default");
    DefaultIsBracketFree();
    DistinctConcat(PrintedGroupNames(ServiceGroups(ctx, SortedRoutes(st))), [DEFAULT_GROUP]);
  }

  /** Every name in the service part is a service name. */
  lemma ServiceNameOnly(ctx: Context, st: State, p: Profile, n: string) returns (id: string)
    requires Assembled(ctx, st, p) && n in PrintedGroupNames(ServiceGroups(ctx, SortedRoutes(st)))
    ensures n == ServiceName(id)
  {
    AllEnabledLive(ctx, st, p);
    hide Assembled, EnabledIds, ServiceGroups, PrintedGroupNames, SortedRoutes, Distinct, ServiceName;
    ServiceNamesAre(ctx, SortedRoutes(st));
    var names := PrintedGroupNames(ServiceGroups(ctx, SortedRoutes(st)));
    var i :| 0 <= i < |names| && names[i] == n;
    id := EnabledIds(SortedRoutes(st))[i];
  }

  lemma AllEnabledLive(ctx: Context, st: State, p: Profile)
    requires Assembled(ctx, st, p)
    ensures forall rt | rt in SortedRoutes(st) && rt.enabled :: Live(ctx, rt)
  {
    SameMembers(SortedRoutes(st), st.routes);
  }

  /** Service names are as distinct as the IDs they are made of. */
  lemma RenamedIff(names: seq<string>, ids: seq<string>)
    requires |names| == |ids| && forall i | 0 <= i < |ids| :: names[i] == ServiceName(ids[i])
    ensures Distinct(names) <==> Distinct(ids)
    ensures forall n :: n in names <==> exists id | id in ids :: n == ServiceName(id)
    ensures forall id :: ServiceName(id) in names <==> id in ids
  {
    hide ServiceName;
    forall i, j | 0 <= i < |ids| && 0 <= j < |ids| ensures names[i] == names[j] <==> ids[i] == ids[j] {
      if names[i] == names[j] { SameServiceName(ids[i], ids[j]); }
    }
    forall id ensures ServiceName(id) in names <==> id in ids {
      if ServiceName(id) in names {
        var i :| 0 <= i < |names| && names[i] == ServiceName(id);
        SameServiceName(ids[i], id);
      }
      if id in ids {
        var i :| 0 <= i < |ids| && ids[i] == id;
        assert names[i] == ServiceName(id);
      }
    }
    forall n ensures n in names <==> exists id | id in ids :: n == ServiceName(id) {
      if n in names {
        var i :| 0 <= i < |names| && names[i] == n;
        assert ids[i] in ids;
      }
    }
  }

  // ---------------------------------------------------------------- both parts

  /** The names the servers are shown under: their displays, repetitions suffixed. */
  function ShownServers(st: State): seq<string> {
    Assigned(ServerDisplays(ActiveSources(st.sources), st.servers))
  }

  /** A server is shown under the service name of an enabled route. */
  predicate ServerServes(st: State) {
    exists id | id in EnabledIds(st.routes) :: ServiceName(id) in ShownServers(st)
  }

  lemma ProxiesAreShown(ctx: Context, st: State, p: Profile)
    requires Assembled(ctx, st, p)
    ensures ProxyNames(p.proxies) == ShownServers(st)
  {
    ProxyNamesAssigned(ActiveSources(st.sources), st.servers);
  }

  lemma ApartIff(proxies: seq<string>, groups: seq<string>, services: seq<string>, ids: seq<string>)
    requires forall id :: ServiceName(id) in services <==> id in ids
    requires forall n | n in services :: exists id :: n == ServiceName(id)
    requires forall n | n in proxies :: n != DEFAULT_GROUP
    requires forall n | n in groups :: n != DEFAULT_GROUP && forall id :: n != ServiceName(id)
    ensures (forall n | n in proxies + groups :: n !in services + [DEFAULT_GROUP])
        <==> forall id | id in ids :: ServiceName(id) !in proxies
  {
    hide ServiceName;
    if forall n | n in proxies + groups :: n !in services + [DEFAULT_GROUP] {
      forall id | id in ids ensures ServiceName(id) !in proxies {
        assert ServiceName(id) in services + [DEFAULT_GROUP];
        assert ServiceName(id) !in proxies + groups;
      }
    } else {
      var n :| n in proxies + groups && n in services + [DEFAULT_GROUP];
      var id :| n == ServiceName(id);
    }
  }

  lemma NamedProxies(p: Profile, n: string)
    ensures n in ProxyNames(p.proxies) <==> IsProxy(p, n)
  {
    if IsProxy(p, n) {
      var k :| 0 <= k < |p.proxies| && p.proxies[k].name == n;
      assert ProxyNames(p.proxies)[k] == n;
    }
  }

  lemma GroupNamesApart(ctx: Context, st: State, p: Profile, n: string)
    requires Assembled(ctx, st, p) && n in PrintedGroupNames(UserGroups(ctx, st.groups))
    ensures n != DEFAULT_GROUP && forall id :: n != ServiceName(id)
  {
    UserGroupsAre(ctx, st.groups);
    var k :| 0 <= k < |st.groups| && UserGroups(ctx, st.groups)[k].name == n;
    assert IsUserGroup(ctx, st, n) by { assert st.groups[k] in st.groups; }
    hide Assembled;
    UserGroupShapes(ctx, st, p, n);
    DefaultIsBracketFree();
    forall id ensures n != ServiceName(id) { ServiceNameShape(id); }
  }

  lemma ProxyNamesApart(ctx: Context, st: State, p: Profile, n: string)
    requires Assembled(ctx, st, p) && IsProxy(p, n)
    ensures n != DEFAULT_GROUP
  {
    hide Assembled;
    ProxyNameShape(ctx, st, p, n);
    DefaultIsBracketFree();
    ServiceNameShape("default");
  }

  lemma PartsApartIff(ctx: Context, st: State, p: Profile)
    requires Assembled(ctx, st, p)
    ensures (forall n | n in ProxyNames(p.proxies) + PrintedGroupNames(UserGroups(ctx, st.groups)) ::
               n !in PrintedGroupNames(ServiceGroups(ctx, SortedRoutes(st))) + [DEFAULT_GROUP])
        <==> !ServerServes(st)
  {
    assert GroupsNamed(ctx, st.groups);
    hide Assembled, EnabledIds, ServiceGroups, UserGroups, ProxyNames, PrintedGroupNames, IsProxy, SortedRoutes,
      GroupsNamed, ShownServers;
    ProxiesAreShown(ctx, st, p);
    var services := PrintedGroupNames(ServiceGroups(ctx, SortedRoutes(st)));
    forall id ensures ServiceName(id) in services <==> id in EnabledIds(st.routes) { ServiceNameIn(ctx, st, p, id); }
    forall n | n in services ensures exists id :: n == ServiceName(id) {
      var id := ServiceNameOnly(ctx, st, p, n);
    }
    forall n ensures n in ProxyNames(p.proxies) <==> IsProxy(p, n) { NamedProxies(p, n); }
    forall n | n in ProxyNames(p.proxies) ensures n != DEFAULT_GROUP { ProxyNamesApart(ctx, st, p, n); }
    forall n | n in PrintedGroupNames(UserGroups(ctx, st.groups))
      ensures n != DEFAULT_GROUP && forall id :: n != ServiceName(id)
    { GroupNamesApart(ctx, st, p, n); }
    ApartIff(ProxyNames(p.proxies), PrintedGroupNames(UserGroups(ctx, st.groups)), services, EnabledIds(st.routes));
  }

  lemma AssembledNamesIff(ctx: Context, st: State, p: Profile)
    requires Assembled(ctx, st, p)
    ensures Distinct(Namespace(p))
        <==> UniqueGroupIds(st) && !Clash(Displays(st))
             && Distinct(EnabledIds(st.routes)) && "default" !in EnabledIds(st.routes) && !ServerServes(st)
  {
    NamespaceSplit(ctx, st, p);
    hide Assembled, UserGroups, ServiceGroups, EnabledIds, Clash, Displays, ServerServes, Namespace;
    UserPartIff(ctx, st, p);
    ServicePartIff(ctx, st, p);
    PartsApartIff(ctx, st, p);
    DistinctConcat(ProxyNames(p.proxies) + PrintedGroupNames(UserGroups(ctx, st.groups)),
                   PrintedGroupNames(ServiceGroups(ctx, SortedRoutes(st))) + [DEFAULT_GROUP]);
  }

  /** All proxy and group names of a profile are pairwise distinct exactly when group IDs are, no
      display name imitates a suffixed repetition of another, the IDs of enabled routes are distinct
      and none is "default", and no server shows under a service name. */
  lemma NamesDistinctIff(lib: Library, st: State)
    requires Compiled(lib, st).Ok?
    ensures Distinct(Namespace(Compiled(lib, st).value))
        <==> UniqueGroupIds(st) && !Clash(Displays(st))
             && Distinct(EnabledIds(st.routes)) && "default" !in EnabledIds(st.routes)
             && !ServerServes(st)
  {
    hide Compiled, Assembled, Namespace, Clash, Displays, EnabledIds, ServerServes;
    SuccessAssembles(lib, st);
    AssembledNamesIff(ContextOf(lib, st), st, Compiled(lib, st).value);
  }

  /** A server is shown with its source in brackets, which no minted route ID has. */
  lemma BracketFreeServes(st: State)
    requires BracketFree(st)
    ensures !ServerServes(st)
  {
    hide Assigned, ServerDisplays, ServiceName, Proxies;
    var active := ActiveSources(st.sources);
    EnabledIdsAre(st.routes);
    ServerNamesBracketed(active, st.servers);
    ProxyNamesAssigned(active, st.servers);
    var proxies := Proxies(active, st.servers);
    forall id | id in EnabledIds(st.routes) ensures ServiceName(id) !in ShownServers(st) {
      ServiceNameShape(id);
      forall i | 0 <= i < |proxies| ensures ProxyNames(proxies)[i] != ServiceName(id) { assert proxies[i] in proxies; }
    }
  }

  /** With route IDs as they are minted, only groups can make names clash. */
  lemma MintedNamesDistinctIff(lib: Library, st: State)
    requires Compiled(lib, st).Ok? && BracketFree(st)
    requires Distinct(EnabledIds(st.routes)) && "default" !in EnabledIds(st.routes)
    ensures Distinct(Namespace(Compiled(lib, st).value)) <==> UniqueGroupIds(st) && !Clash(Displays(st))
  {
    hide Compiled, Namespace, Clash, Displays, EnabledIds, ServerServes, BracketFree;
    NamesDistinctIff(lib, st);
    BracketFreeServes(st);
  }

  /** Only a group name can do that: proxy displays end in a bracket. */
  lemma ClashNeedsGroupName(st: State)
    requires Clash(Displays(st))
    ensures exists g, x, k: nat | g in st.groups && k >= 2 :: g.name == x + " #" + Itoa(k)
  {
    var x: string, k: nat :| 2 <= k <= multiset(Displays(st))[x] && x + " #" + Itoa(k) in Displays(st);
    DigitEndIsGroupName(st, x + " #" + Itoa(k));
  }

  lemma DigitEndIsGroupName(st: State, d: string)
    requires d in Displays(st) && |d| > 0 && '0' <= d[|d| - 1] <= '9'
    ensures exists g | g in st.groups :: g.name == d
  {
    DisplaysEndInBracket(ActiveSources(st.sources), st.servers);
    GroupDisplaysAt(st.groups);
    var ds := GroupDisplays(st.groups);
    assert d in ds;
    var i :| 0 <= i < |ds| && ds[i] == d;
    assert st.groups[i] in st.groups;
  }

  lemma {:induction false} DisplaysEndInBracket(active: map<string, string>, servers: seq<Server>)
    ensures forall d | d in ServerDisplays(active, servers) :: |d| > 0 && d[|d| - 1] == ']'
  {
    if |servers| > 0 { DisplaysEndInBracket(active, servers[..|servers| - 1]); }
  }
}
