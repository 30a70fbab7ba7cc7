/** Which requests leave a compilable document compilable: exactly the condition for each of them, and
    for the merges of update rounds. */
module ApiCompiles {
  import opened Prelude
  import opened Text
  import opened Model
  import opened RuleLine
  import opened Ids
  import opened Api
  import opened Generator
  import opened WellFormedness
  import opened Merge
  import opened MergeIds
  import opened PoolHistory
  import opened ApiSafety
  import opened ApiProfile
  import Import
  import Templates

  // ---------------------------------------------------------------- one route

  /** No provider of the list is named twice or used by the other routes. */
  ghost predicate ProvidersFree(ps: seq<string>, others: seq<Route>) {
    forall p | p in ps :: multiset(ps)[p] == 1 && p !in ProviderUses(others)
  }

  /** The route can be on beside the others. */
  ghost predicate RouteFits(lib: Library, st: State, rt: Route, others: seq<Route>) {
    rt.enabled ==> GoodRoute(lib, st, rt) && ProvidersFree(rt.providers, others)
  }

  lemma FreeIff(ps: seq<string>, others: seq<Route>)
    requires AtMostOnce(ProviderUses(others))
    ensures AtMostOnce(ProviderUses(others) + multiset(ps)) <==> ProvidersFree(ps, others)
  {
    hide ProviderUses;
    var m, n := ProviderUses(others), multiset(ps);
    assert forall p :: p in ps <==> n[p] > 0;
    if AtMostOnce(m + n) {
      forall p | p in ps ensures n[p] == 1 && p !in m { assert (m + n)[p] <= 1; }
    }
    if ProvidersFree(ps, others) {
      forall p ensures (m + n)[p] <= 1 { if p in ps { assert n[p] == 1; } }
    }
  }

  lemma UsesOfOne(rt: Route)
    ensures ProviderUses([rt]) == if rt.enabled then multiset(rt.providers) else multiset{}
  {
    assert [rt][..0] == [];
  }

  /** Everything but the routes. */
  ghost predicate RestWell(lib: Library, st: State) {
    && (forall srv | ActiveServer(st, srv) :: |srv.raw| > 0)
    && (forall g | g in st.groups :: GoodGroup(st, g))
    && GoodTarget(st, st.settings.defaultPolicy)
    && GoodGeoSource(st.settings.geositeSource, st.settings.geositeCustomUrl)
    && GoodGeoSource(st.settings.geoipSource, st.settings.geoipCustomUrl)
  }

  lemma WellIff(lib: Library, st: State)
    ensures WellFormed(lib, st)
        <==> RestWell(lib, st) && RoutesGood(lib, st, st.routes) && AtMostOnce(ProviderUses(st.routes))
  {
    hide ActiveServer, GoodGroup, GoodRoute, GoodTarget, GoodGeoSource, ProviderUses, AtMostOnce;
  }

  lemma SameRest(lib: Library, st: State, next: State)
    requires next == st.(routes := next.routes)
    ensures RestWell(lib, next) <==> RestWell(lib, st)
    ensures forall t :: GoodTarget(next, t) <==> GoodTarget(st, t)
    ensures forall rt :: GoodRoute(lib, next, rt) <==> GoodRoute(lib, st, rt)
  {
    assert forall sid :: ActiveSource(next, sid) <==> ActiveSource(st, sid);
    assert forall srv :: ActiveServer(next, srv) <==> ActiveServer(st, srv);
    hide ActiveSource, ActiveServer;
    assert forall id :: UsableServer(next, id) <==> UsableServer(st, id);
    hide UsableServer;
    assert forall id :: HasGroup(next, id) <==> HasGroup(st, id);
    hide HasGroup, GoodCondition;
    assert forall m :: UsableAsMember(next, m) <==> UsableAsMember(st, m);
  }

  /** The routes before and after the place that changes. */
  lemma RoutesAround(lib: Library, st: State, next: State, before: seq<Route>, after: seq<Route>)
    requires RestWell(lib, st) && next == st.(routes := next.routes)
    requires RoutesGood(lib, st, before + after) && AtMostOnce(ProviderUses(before + after))
    requires |next.routes| == |before| + 1 + |after|
    requires next.routes == before + [next.routes[|before|]] + after
    ensures WellFormed(lib, next) <==> RouteFits(lib, st, next.routes[|before|], before + after)
  {
    hide GoodRoute, RestWell, ProviderUses, AtMostOnce, ProvidersFree;
    var rt := next.routes[|before|];
    SameRest(lib, st, next);
    WellIff(lib, next);
    UsesAround(before, rt, after);
    FreeIff(rt.providers, before + after);
    GoodAround(lib, next, before, rt, after);
    assert RoutesGood(lib, next, before + after);
    assert ProviderUses(before + after) + multiset{} == ProviderUses(before + after);
  }

  lemma UsesAround(before: seq<Route>, rt: Route, after: seq<Route>)
    ensures ProviderUses(before + [rt] + after)
         == ProviderUses(before + after) + if rt.enabled then multiset(rt.providers) else multiset{}
  {
    hide ProviderUses;
    UsesOfOne(rt);
    ProviderUsesAppend(before + [rt], after);
    ProviderUsesAppend(before, [rt]);
    ProviderUsesAppend(before, after);
  }

  lemma GoodAround(lib: Library, st: State, before: seq<Route>, rt: Route, after: seq<Route>)
    ensures RoutesGood(lib, st, before + [rt] + after)
        <==> RoutesGood(lib, st, before + after) && (rt.enabled ==> GoodRoute(lib, st, rt))
  {
    hide GoodRoute;
    assert forall x :: x in before + [rt] + after <==> x in before + after || x == rt;
  }

  /** A route appended at the end. */
  lemma NewRouteIff(lib: Library, st: State, next: State, rt: Route)
    requires WellFormed(lib, st) && next == st.(routes := st.routes + [rt])
    ensures WellFormed(lib, next) <==> RouteFits(lib, st, rt, st.routes)
  {
    hide RestWell, RoutesGood, AtMostOnce, ProviderUses, RouteFits, WellFormed;
    WellIff(lib, st);
    assert st.routes + [] == st.routes && st.routes + [rt] + [] == st.routes + [rt];
    RoutesAround(lib, st, next, st.routes, []);
  }

  /** The other routes. */
  function Others(routes: seq<Route>, i: nat): seq<Route>
    requires i < |routes|
  {
    routes[..i] + routes[i + 1..]
  }

  lemma OthersWell(lib: Library, st: State, i: nat)
    requires WellFormed(lib, st) && i < |st.routes|
    ensures RestWell(lib, st) && RoutesGood(lib, st, Others(st.routes, i))
    ensures AtMostOnce(ProviderUses(Others(st.routes, i)))
  {
    hide AtMostOnce, ProviderUses, GoodRoute, RestWell;
    WellIff(lib, st);
    assert forall x | x in Others(st.routes, i) :: x in st.routes;
    ProviderUsesRemove(st.routes, i);
    AtMostOnceLeft(ProviderUses(Others(st.routes, i)), ProviderUses([st.routes[i]]));
  }

  lemma ChangedRouteIff(lib: Library, st: State, next: State, i: nat, rt: Route)
    requires WellFormed(lib, st) && i < |st.routes| && next == st.(routes := st.routes[i := rt])
    ensures WellFormed(lib, next) <==> RouteFits(lib, st, rt, Others(st.routes, i))
  {
    hide RestWell, RoutesGood, AtMostOnce, ProviderUses, RouteFits, WellFormed;
    OthersWell(lib, st, i);
    assert next.routes == st.routes[..i] + [rt] + st.routes[i + 1..];
    RoutesAround(lib, st, next, st.routes[..i], st.routes[i + 1..]);
  }

  lemma RouteGone(lib: Library, st: State, next: State, i: nat)
    requires WellFormed(lib, st) && i < |st.routes| && next == st.(routes := Others(st.routes, i))
    ensures WellFormed(lib, next)
  {
    hide RestWell, AtMostOnce, ProviderUses, WellFormed, GoodRoute;
    OthersWell(lib, st, i);
    SameRest(lib, st, next);
    WellIff(lib, next);
  }

  // ---------------------------------------------------------------- what validation leaves open

  ghost predicate AdditionsGood(lib: Library, s: Settings, c: Condition) {
    var key := AdditionKey(lib, c);
    key != "" && key in s.additions ==> forall v | v in s.additions[key] :: ValidAddition(lib, key, v)
  }

  /** What the routes API does not look at: whether a server's source is on and its map is there, empty
      and reused providers, and the additions to a category. */
  ghost predicate BeyondValidation(lib: Library, st: State, rt: Route, others: seq<Route>) {
    && (rt.target.kind.ToServer? ==> UsableServer(st, rt.target.id))
    && (forall c | c in rt.conditions :: AdditionsGood(lib, st.settings, c))
    && "" !in rt.providers && ProvidersFree(rt.providers, others)
  }

  lemma AcceptedConditionIff(lib: Library, s: Settings, c: Condition)
    requires Accepted(lib, c)
    ensures GoodCondition(lib, s, c) <==> AdditionsGood(lib, s, c)
  {
    hide ValidAddition, AdditionKey;
    assert forall i | 0 <= i < |c.value| :: c.value[i] !in ",:\n\r";
  }

  lemma AcceptedProviderIff(known: Option<set<string>>, p: string)
    requires ProviderAccepted(known, p)
    ensures ValidProvider(p) <==> p != ""
  {
  }

  lemma AcceptedTargetIff(st: State, t: Target)
    requires ValidateTarget(st, t).Done?
    ensures GoodTarget(st, t) <==> (t.kind.ToServer? ==> UsableServer(st, t.id))
  {
    hide UsableServer;
    if t.kind.ToGroup? {
      var i :| 0 <= i < |st.groups| && st.groups[i].id == t.id;
      assert st.groups[i] in st.groups;
    }
  }

  /** A route that passed validation can be on exactly when nothing beyond validation speaks against it. */
  lemma AcceptedFitsIff(lib: Library, known: Option<set<string>>, st: State, rt: Route, others: seq<Route>)
    requires ValidateRoute(lib, st, known, rt.name, rt.conditions, rt.providers, Some(rt.target)).Done?
    ensures RouteFits(lib, st, rt, others) <==> (rt.enabled ==> BeyondValidation(lib, st, rt, others))
  {
    hide GoodCondition, AdditionsGood, Accepted, ValidProvider, ProviderAccepted, GoodTarget, UsableServer,
      ProvidersFree, ValidateTarget;
    AcceptedTargetIff(st, rt.target);
    forall c | c in rt.conditions ensures GoodCondition(lib, st.settings, c) <==> AdditionsGood(lib, st.settings, c) {
      var i :| 0 <= i < |rt.conditions| && rt.conditions[i] == c;
      AcceptedConditionIff(lib, st.settings, c);
    }
    forall p | p in rt.providers ensures ValidProvider(p) <==> p != "" {
      var i :| 0 <= i < |rt.providers| && rt.providers[i] == p;
      AcceptedProviderIff(known, p);
    }
  }

  // ---------------------------------------------------------------- groups

  /** The members can be used now. */
  ghost predicate MembersUsable(st: State, members: seq<string>) {
    forall m | m in members :: UsableServer(st, m) || HasGroup(st, m)
  }

  /** Group IDs are the same but for added ones, and servers and the rest as they were. */
  ghost predicate GroupsGrow(st: State, next: State) {
    && next == st.(groups := next.groups) && NamedGroups(st) && NamedGroups(next)
    && (forall id :: HasGroup(st, id) ==> HasGroup(next, id))
  }

  lemma SameServersUsable(st: State, next: State)
    requires next.sources == st.sources && next.servers == st.servers
    ensures forall srv :: ActiveServer(next, srv) <==> ActiveServer(st, srv)
    ensures forall id :: UsableServer(next, id) <==> UsableServer(st, id)
  {
    assert forall sid :: ActiveSource(next, sid) <==> ActiveSource(st, sid);
    hide ActiveSource;
  }

  lemma GroupStaysGood(st: State, next: State, g: Group)
    requires GroupsGrow(st, next) && GoodGroup(st, g)
    ensures GoodGroup(next, g)
  {
    hide UsableServer, HasGroup, UsableAsMember, HasPrefix;
    SameServersUsable(st, next);
    forall m | m in g.members ensures UsableAsMember(next, m) {
      NamedGroupsAreMembers(st, m);
      NamedGroupsAreMembers(next, m);
    }
  }

  /** With one group new or changed, only that group has to be looked at. */
  lemma OneGroupIff(lib: Library, st: State, next: State, g: Group)
    requires WellFormed(lib, st) && GroupsGrow(st, next) && g in next.groups
    requires forall x | x in next.groups :: x in st.groups || x == g
    ensures WellFormed(lib, next) <==> GoodGroup(next, g)
  {
    hide UsableServer, HasGroup, ActiveServer, GoodGroup, GoodCondition, ValidProvider, AtMostOnce, ProviderUses,
      GoodGeoSource;
    SameServersUsable(st, next);
    forall x | x in st.groups ensures GoodGroup(next, x) { GroupStaysGood(st, next, x); }
    forall rt | rt in st.routes && rt.enabled ensures GoodRoute(lib, next, rt) { assert GoodRoute(lib, st, rt); }
  }

  lemma GoodGroupIff(next: State, g: Group)
    requires NamedGroups(next) && !HasPrefix(g.name, "rt:")
    ensures GoodGroup(next, g)
        <==> !g.kind.UnknownGroupType? && |g.members| > 0 && g.id !in g.members && MembersUsable(next, g.members)
  {
    hide UsableServer, HasGroup, UsableAsMember, HasPrefix;
    forall m | m in g.members ensures UsableAsMember(next, m) <==> UsableServer(next, m) || HasGroup(next, m) {
      NamedGroupsAreMembers(next, m);
    }
  }

  lemma TidyNames(st: State)
    requires Tidy(st)
    ensures NamedGroups(st)
  {
  }

  /** Every accepted member is an object of the document, so none has the new ID. */
  lemma MembersAreOld(st: State, g: GroupIn, id: string)
    requires GoodGroupIn(st, g, "") && id !in AllIds(st)
    ensures id !in g.members
  {
    hide HasPrefix;
    forall m | m in g.members ensures m in AllIds(st) {
      var i :| 0 <= i < |g.members| && g.members[i] == m;
    }
  }

  /** A new group keeps the document compilable exactly when its members can be used now. */
  lemma NewGroupIff(lib: Library, st: State, g: GroupIn)
    requires NamedGroups(st) && WellFormed(lib, st) && CreateGroupStep(st, g).1.Done?
    ensures WellFormed(lib, CreateGroupStep(st, g).0) <==> MembersUsable(st, g.members)
  {
    hide WellFormed, NewId, HasPrefix, UsableServer, AllIds;
    var next, id := CreateGroupStep(st, g).0, NewId("grp", AllIds(st));
    var x := Group(id, g.name, g.kind, g.members);
    assert x in next.groups;
    MembersAreOld(st, g, id);
    OneGroupIff(lib, st, next, x);
    GoodGroupIff(next, x);
    SameServersUsable(st, next);
  }

  /** A patched group keeps it compilable exactly when it is of a known type and has members, none
      itself, that can be used now. */
  lemma PatchedGroupIff(lib: Library, st: State, id: string, g: GroupIn)
    requires NamedGroups(st) && WellFormed(lib, st) && PatchGroupStep(st, id, g).1.Done?
    ensures WellFormed(lib, PatchGroupStep(st, id, g).0)
        <==> !g.kind.UnknownGroupType? && |g.members| > 0 && id !in g.members && MembersUsable(st, g.members)
  {
    hide WellFormed, HasPrefix, UsableServer;
    var next, i := PatchGroupStep(st, id, g).0, IndexOfGroup(st.groups, id).value;
    var x := next.groups[i];
    assert x in next.groups && st.groups[i].id == x.id == id;
    assert forall j | 0 <= j < |st.groups| :: next.groups[j].id == st.groups[j].id;
    SameGroupsThere(st, next);
    OneGroupIff(lib, st, next, x);
    GoodGroupIff(next, x);
    SameServersUsable(st, next);
  }

  lemma SameGroupsThere(st: State, next: State)
    requires |next.groups| == |st.groups| && forall i | 0 <= i < |st.groups| :: next.groups[i].id == st.groups[i].id
    ensures forall id :: HasGroup(next, id) <==> HasGroup(st, id)
  {
    forall id ensures HasGroup(next, id) <==> HasGroup(st, id) {
      if g :| g in st.groups && g.id == id {
        var i :| 0 <= i < |st.groups| && st.groups[i] == g;
        assert next.groups[i] in next.groups;
      }
      if g :| g in next.groups && g.id == id {
        var i :| 0 <= i < |next.groups| && next.groups[i] == g;
        assert st.groups[i] in st.groups;
      }
    }
  }

  // ---------------------------------------------------------------- servers and sources

  /** The servers that can be used serve everything that refers to a server. */
  ghost predicate Served(st: State, usable: iset<string>) {
    && (forall rt | rt in st.routes && rt.enabled && rt.target.kind.ToServer? :: rt.target.id in usable)
    && (forall g, m | g in st.groups && m in g.members :: m in usable || HasGroup(st, m))
    && (st.settings.defaultPolicy.kind.ToServer? ==> st.settings.defaultPolicy.id in usable)
  }

  ghost predicate RawsThere(st: State) {
    forall srv | ActiveServer(st, srv) :: |srv.raw| > 0
  }

  ghost function UsableIds(st: State): iset<string> {
    iset id | UsableServer(st, id)
  }

  lemma ServedTarget(st: State, next: State, t: Target)
    requires next.groups == st.groups && GoodTarget(st, t)
    ensures GoodTarget(next, t) <==> (t.kind.ToServer? ==> t.id in UsableIds(next))
  {
    hide UsableServer;
    assert HasGroup(next, t.id) <==> HasGroup(st, t.id);
  }

  lemma ServedGroup(st: State, next: State, g: Group)
    requires next.groups == st.groups && NamedGroups(st) && GoodGroup(st, g)
    ensures GoodGroup(next, g) <==> forall m | m in g.members :: m in UsableIds(next) || HasGroup(st, m)
  {
    hide UsableServer, HasGroup, UsableAsMember, HasPrefix;
    assert forall id :: HasGroup(next, id) <==> HasGroup(st, id) by { SameGroupsThere(st, next); }
    forall m | m in g.members ensures UsableAsMember(next, m) <==> UsableServer(next, m) || HasGroup(next, m) {
      NamedGroupsAreMembers(next, m);
    }
  }

  /** When only servers and sources change, the document stays compilable exactly when the usable
      servers that are left serve it, and every active one has its map. */
  lemma ServersCompileIff(lib: Library, st: State, next: State)
    requires NamedGroups(st) && WellFormed(lib, st)
    requires next == st.(servers := next.servers, sources := next.sources)
    ensures WellFormed(lib, next) <==> RawsThere(next) && Served(st, UsableIds(next))
  {
    hide UsableIds, HasGroup, ActiveServer, GoodGroup, GoodCondition, ValidProvider, AtMostOnce, ProviderUses,
      GoodGeoSource, GoodTarget;
    ServedTarget(st, next, st.settings.defaultPolicy);
    forall g | g in st.groups
      ensures GoodGroup(next, g) <==> forall m | m in g.members :: m in UsableIds(next) || HasGroup(st, m)
    { ServedGroup(st, next, g); }
    forall rt | rt in st.routes && rt.enabled
      ensures GoodRoute(lib, next, rt) <==> (rt.target.kind.ToServer? ==> rt.target.id in UsableIds(next))
    {
      assert GoodRoute(lib, st, rt);
      ServedTarget(st, next, rt.target);
    }
    if Served(st, UsableIds(next)) && RawsThere(next) {
      assert forall g | g in next.groups :: GoodGroup(next, g);
      assert forall rt | rt in next.routes && rt.enabled :: GoodRoute(lib, next, rt);
      assert WellFormed(lib, next);
    }
    if WellFormed(lib, next) {
      forall g, m | g in st.groups && m in g.members ensures m in UsableIds(next) || HasGroup(st, m) {
        assert GoodGroup(next, g);
      }
      forall rt | rt in st.routes && rt.enabled && rt.target.kind.ToServer? ensures rt.target.id in UsableIds(next) {
        assert GoodRoute(lib, next, rt);
      }
    }
  }

  /** No usable server goes away, and none becomes active without its map. */
  lemma MoreServersWell(lib: Library, st: State, next: State)
    requires NamedGroups(st) && WellFormed(lib, st)
    requires next == st.(servers := next.servers, sources := next.sources)
    requires RawsThere(next) && forall id | UsableServer(st, id) :: UsableServer(next, id)
    ensures WellFormed(lib, next)
  {
    hide WellFormed, UsableServer, RawsThere, HasGroup;
    ServersCompileIff(lib, st, st);
    ServersCompileIff(lib, st, next);
  }

  lemma EditedUsable(st: State, next: State, i: nat, s: Server)
    requires i < |st.servers| && next == st.(servers := st.servers[i := s])
    requires s == st.servers[i].(name := s.name, raw := s.raw) && (|st.servers[i].raw| > 0 ==> |s.raw| > 0)
    requires RawsThere(st)
    ensures RawsThere(next) && forall id | UsableServer(st, id) :: UsableServer(next, id)
  {
    assert forall sid :: ActiveSource(next, sid) <==> ActiveSource(st, sid);
    hide ActiveSource;
    assert st.servers[i] in st.servers && next.servers[i] == s;
    assert ActiveServer(next, s) ==> ActiveServer(st, st.servers[i]);
    forall srv | ActiveServer(next, srv) ensures |srv.raw| > 0 {
      if srv != s { assert srv in st.servers && ActiveServer(st, srv); }
    }
    forall id | UsableServer(st, id) ensures UsableServer(next, id) {
      var srv :| ActiveServer(st, srv) && srv.id == id && |srv.raw| > 0;
      var k :| 0 <= k < |st.servers| && st.servers[k] == srv;
      assert ActiveServer(next, next.servers[k]);
    }
  }

  /** Editing a server never hurts: its map only grows. */
  lemma EditedServerWell(lib: Library, st: State, id: string, name: string, address: string, patch: Raw)
    requires NamedGroups(st) && WellFormed(lib, st)
    ensures WellFormed(lib, EditServerStep(st, id, name, address, patch).0)
  {
    hide WellFormed, EditedRaw, TrimSpace, UsableServer;
    if EditServerStep(st, id, name, address, patch).1.Done? {
      var next, i := EditServerStep(st, id, name, address, patch).0, IndexOfServer(st.servers, id).value;
      if |st.servers[i].raw| > 0 { EditedRawGrows(st.servers[i].raw, address, patch); }
      AllRawsThere(lib, st);
      EditedUsable(st, next, i, next.servers[i]);
      MoreServersWell(lib, st, next);
    }
  }

  lemma AllRawsThere(lib: Library, st: State)
    requires WellFormed(lib, st)
    ensures RawsThere(st)
  {
  }

  lemma EditedRawGrows(raw: Raw, address: string, patch: Raw)
    requires |raw| > 0
    ensures |EditedRaw(raw, address, patch)| > 0
  {
    hide TrimSpace;
    var k :| k in raw;
    assert k in EditedRaw(raw, address, patch);
  }

  // ---------------------------------------------------------------- deleting a source

  /** The servers that can be used and come from elsewhere. */
  ghost function UsableElsewhere(st: State, sid: string): iset<string> {
    iset srv | ActiveServer(st, srv) && |srv.raw| > 0 && srv.sourceId != sid :: srv.id
  }

  lemma SourceGone(st: State, next: State, sid: string, i: nat)
    requires i < |st.sources| && st.sources[i].id == sid
    requires next == st.(sources := st.sources[..i] + st.sources[i + 1..], servers := NotFrom(st.servers, sid))
    ensures forall srv :: ActiveServer(next, srv) <==> ActiveServer(st, srv) && srv.sourceId != sid
    ensures UsableIds(next) == UsableElsewhere(st, sid)
  {
    assert forall src :: src in st.sources <==> src in next.sources || src == st.sources[i];
    forall x | x != sid ensures ActiveSource(next, x) <==> ActiveSource(st, x) { }
    hide ActiveSource;
    assert forall srv :: ActiveServer(next, srv) <==> ActiveServer(st, srv) && srv.sourceId != sid;
    hide ActiveServer;
    forall id ensures id in UsableIds(next) <==> id in UsableElsewhere(st, sid) { }
  }

  /** Deleting a source keeps the document compilable exactly when the other sources serve it. */
  lemma SourceDeletionCompilesIff(lib: Library, st: State, id: string)
    requires NamedGroups(st) && WellFormed(lib, st) && DeleteSourceStep(st, id).1.Done?
    ensures WellFormed(lib, DeleteSourceStep(st, id).0) <==> Served(st, UsableElsewhere(st, id))
  {
    hide WellFormed, NotFrom, Targeted, ActiveServer, UsableElsewhere, UsableIds, Served;
    var next := DeleteSourceStep(st, id).0;
    SourceGone(st, next, id, IndexOfSource(st.sources, id).value);
    AllRawsThere(lib, st);
    ServersCompileIff(lib, st, next);
  }

  // ---------------------------------------------------------------- merges

  /** A later server of the source has the same key; only the last of a key is updated. */
  predicate HeldAgain(servers: seq<Server>, src: string, i: nat)
    requires i < |servers|
  {
    Holds(servers[i + 1..], src, StoredKey(servers[i]))
  }

  /** The server at i stays active: one of the source is answered, and one that stays as it was is not
      stale. */
  ghost predicate StaysActive(st: State, src: string, answer: seq<Raw>, i: nat)
    requires i < |st.servers|
  {
    var s := st.servers[i];
    && (s.sourceId == src ==> Answers(answer, StoredKey(s)))
    && (s.sourceId != src || HeldAgain(st.servers, src, i) ==> !s.stale)
  }

  /** It can also be used: its source is on and it has a map. */
  ghost predicate UsableAfter(st: State, src: string, answer: seq<Raw>, i: nat)
    requires i < |st.servers|
  {
    var s := st.servers[i];
    && ActiveSource(st, s.sourceId) && StaysActive(st, src, answer, i)
    && (s.sourceId != src || HeldAgain(st.servers, src, i) ==> |s.raw| > 0)
  }

  /** What can be used after a merge: servers of other sources as before, those of the source that were
      answered, and the new ones. */
  ghost function MergeUsable(hash: IdHash, st: State, src: string, answer: seq<Raw>): iset<string> {
    (iset i: nat | i < |st.servers| && UsableAfter(st, src, answer, i) :: st.servers[i].id)
    + (iset k | ActiveSource(st, src) && Brings(st.servers, src, answer, k) :: ServerId(hash, src, k))
  }

  /** Every server that is active after the merge has its map. */
  ghost predicate MergeRaws(st: State, src: string, answer: seq<Raw>) {
    forall i: nat | i < |st.servers| && ActiveSource(st, st.servers[i].sourceId) && StaysActive(st, src, answer, i) ::
      UsableAfter(st, src, answer, i)
  }

  /** What becomes of the server at i. */
  ghost function After(servers: seq<Server>, src: string, answer: seq<Raw>, i: nat): Option<Server>
    requires i < |servers|
  {
    Refreshed(servers[i], HeldAgain(servers, src, i), src, answer)
  }

  lemma {:induction false} KeptAre(servers: seq<Server>, src: string, answer: seq<Raw>, s: Server)
    ensures s in Kept(servers, src, answer)
        <==> exists i: nat | i < |servers| :: After(servers, src, answer, i) == Some(s)
  {
    if |servers| > 0 {
      hide Kept, Refreshed, Holds;
      var x, rest := servers[0], servers[1..];
      assert servers == [x] + rest;
      KeptCons(x, rest, src, answer);
      KeptAre(rest, src, answer, s);
      assert servers[0 + 1..] == rest;
      forall i: nat | i < |rest| ensures After(rest, src, answer, i) == After(servers, src, answer, i + 1) {
        assert rest[i + 1..] == servers[i + 2..];
      }
      var head := Refreshed(x, Holds(rest, src, StoredKey(x)), src, answer);
      assert After(servers, src, answer, 0) == head;
      if i: nat :| i < |rest| && After(rest, src, answer, i) == Some(s) {
        assert After(servers, src, answer, i + 1) == Some(s);
      }
      if i: nat :| i < |servers| && After(servers, src, answer, i) == Some(s) {
        if i > 0 { assert After(rest, src, answer, i - 1) == Some(s); }
      }
    } else {
      assert Kept(servers, src, answer) == [];
    }
  }

  lemma UsableRaw(p: Raw)
    requires Usable(p)
    ensures |p| > 0
  {
    assert "name" in p;
  }

  lemma AfterIs(st: State, src: string, answer: seq<Raw>, i: nat)
    requires i < |st.servers|
    ensures var s, x := st.servers[i], After(st.servers, src, answer, i);
      && (x.Some? && !x.value.stale <==> StaysActive(st, src, answer, i))
      && (x.Some? ==> x.value.id == s.id && x.value.sourceId == s.sourceId)
      && (x.Some? && !x.value.stale ==>
            if s.sourceId != src || HeldAgain(st.servers, src, i) then x.value == s else |x.value.raw| > 0)
  {
    hide First, HeldAgain;
    var s := st.servers[i];
    FirstIff(answer, StoredKey(s));
    if First(answer, StoredKey(s)).Some? { UsableRaw(First(answer, StoredKey(s)).value); }
  }

  lemma FirstIff(answer: seq<Raw>, k: MatchKey)
    ensures First(answer, k).Some? <==> Answers(answer, k)
  {
  }

  lemma AddedAre(hash: IdHash, servers: seq<Server>, src: string, answer: seq<Raw>, s: Server)
    ensures s in Added(hash, servers, src, answer)
        <==> exists k | Brings(servers, src, answer, k) :: s == Fresh(hash, src, First(answer, k).value)
    ensures s in Added(hash, servers, src, answer) ==> !s.stale && s.sourceId == src && |s.raw| > 0
  {
    hide Added, First, Holds, Answers;
    AddedMember(hash, servers, src, answer, s);
    forall k ensures First(answer, k).Some? <==> Answers(answer, k) { FirstIff(answer, k); }
    if k :| Brings(servers, src, answer, k) && s == Fresh(hash, src, First(answer, k).value) {
      UsableRaw(First(answer, k).value);
    }
  }

  lemma SameSources(st: State, next: State)
    requires next.sources == st.sources
    ensures forall sid :: ActiveSource(next, sid) <==> ActiveSource(st, sid)
  {
  }

  lemma MergedRawsIff(hash: IdHash, st: State, next: State, src: string, answer: seq<Raw>)
    requires next.sources == st.sources && next.servers == Merged(hash, st.servers, src, answer)
    ensures RawsThere(next) <==> MergeRaws(st, src, answer)
  {
    hide Kept, Added, ActiveSource, StaysActive, After, HeldAgain, Brings;
    SameSources(st, next);
    forall i: nat | i < |st.servers| && ActiveSource(st, st.servers[i].sourceId) && StaysActive(st, src, answer, i)
      && !UsableAfter(st, src, answer, i)
      ensures !RawsThere(next)
    {
      AfterIs(st, src, answer, i);
      var s := After(st.servers, src, answer, i).value;
      KeptAre(st.servers, src, answer, s);
      assert s in next.servers && ActiveServer(next, s);
    }
    forall s | ActiveServer(next, s) && |s.raw| == 0 ensures !MergeRaws(st, src, answer) {
      AddedAre(hash, st.servers, src, answer, s);
      KeptAre(st.servers, src, answer, s);
      var i: nat :| i < |st.servers| && After(st.servers, src, answer, i) == Some(s);
      AfterIs(st, src, answer, i);
    }
  }

  lemma MergedUsable(hash: IdHash, st: State, next: State, src: string, answer: seq<Raw>)
    requires next.sources == st.sources && next.servers == Merged(hash, st.servers, src, answer)
    ensures UsableIds(next) == MergeUsable(hash, st, src, answer)
  {
    hide Kept, Added, ActiveSource, StaysActive, After, HeldAgain, Holds, Answers, ServerId, First;
    SameSources(st, next);
    forall k ensures First(answer, k).Some? <==> Answers(answer, k) { FirstIff(answer, k); }
    forall i: nat | i < |st.servers| && UsableAfter(st, src, answer, i) ensures UsableServer(next, st.servers[i].id) {
      AfterIs(st, src, answer, i);
      var s := After(st.servers, src, answer, i).value;
      KeptAre(st.servers, src, answer, s);
      assert ActiveServer(next, s);
    }
    forall k | ActiveSource(st, src) && Brings(st.servers, src, answer, k)
      ensures UsableServer(next, ServerId(hash, src, k))
    {
      var s := Fresh(hash, src, First(answer, k).value);
      AddedAre(hash, st.servers, src, answer, s);
      assert ActiveServer(next, s);
    }
    forall id | UsableServer(next, id) ensures id in MergeUsable(hash, st, src, answer) {
      var s :| ActiveServer(next, s) && s.id == id && |s.raw| > 0;
      KeptAre(st.servers, src, answer, s);
      AddedAre(hash, st.servers, src, answer, s);
      if s in Kept(st.servers, src, answer) {
        var i: nat :| i < |st.servers| && After(st.servers, src, answer, i) == Some(s);
        AfterIs(st, src, answer, i);
        assert UsableAfter(st, src, answer, i);
      } else {
        var k :| Brings(st.servers, src, answer, k) && s == Fresh(hash, src, First(answer, k).value);
        assert s.id == ServerId(hash, src, k);
      }
    }
  }

  /** What a merge must leave: every active server with its map, and servers for all that needs one. */
  ghost predicate MergeServes(hash: IdHash, st: State, sources: seq<Source>, src: string, answer: seq<Raw>) {
    var at := st.(sources := sources);
    MergeRaws(at, src, answer) && Served(st, MergeUsable(hash, at, src, answer))
  }

  /** A merge, of an update round or of pasted links, keeps the document compilable exactly when the
      servers it leaves usable serve it: one miss already takes a server away. */
  lemma MergeCompilesIff(lib: Library, hash: IdHash, st: State, next: State, src: string, answer: seq<Raw>)
    requires NamedGroups(st) && WellFormed(lib, st)
    requires next == st.(sources := next.sources, servers := Merged(hash, st.servers, src, answer))
    ensures WellFormed(lib, next) <==> MergeServes(hash, st, next.sources, src, answer)
  {
    hide WellFormed, Merged, MergeRaws, MergeUsable, UsableIds, Served, RawsThere;
    var at := st.(sources := next.sources);
    MergedRawsIff(hash, at, next, src, answer);
    MergedUsable(hash, at, next, src, answer);
    ServersCompileIff(lib, st, next);
  }

  // ---------------------------------------------------------------- settings

  /** What new sources and settings must be like. */
  ghost predicate ElsewhereFits(lib: Library, st: State, sources: seq<Source>, settings: Settings) {
    var next := st.(sources := sources, settings := settings);
    && RawsThere(next) && Served(next, UsableIds(next)) && GoodTarget(st.(sources := sources), settings.defaultPolicy)
    && (forall rt, c | rt in st.routes && rt.enabled && c in rt.conditions :: AdditionsGood(lib, settings, c))
    && GoodGeoSource(settings.geositeSource, settings.geositeCustomUrl)
    && GoodGeoSource(settings.geoipSource, settings.geoipCustomUrl)
  }

  lemma ConditionElsewhere(lib: Library, before: Settings, after: Settings, c: Condition)
    requires GoodCondition(lib, before, c)
    ensures GoodCondition(lib, after, c) <==> AdditionsGood(lib, after, c)
  {
    hide ValidAddition, AdditionKey;
  }

  lemma RouteElsewhere(lib: Library, st: State, next: State, rt: Route)
    requires next == st.(sources := next.sources, settings := next.settings) && GoodRoute(lib, st, rt)
    ensures GoodRoute(lib, next, rt)
        <==> (rt.target.kind.ToServer? ==> rt.target.id in UsableIds(next))
             && forall c | c in rt.conditions :: AdditionsGood(lib, next.settings, c)
  {
    hide UsableIds, GoodTarget, GoodCondition, AdditionsGood, ValidProvider;
    ServedTarget(st, next, rt.target);
    forall c | c in rt.conditions
      ensures GoodCondition(lib, next.settings, c) <==> AdditionsGood(lib, next.settings, c)
    { ConditionElsewhere(lib, st.settings, next.settings, c); }
  }

  lemma SettingsIrrelevant(st: State, next: State)
    requires next == st.(settings := next.settings)
    ensures forall t :: GoodTarget(next, t) <==> GoodTarget(st, t)
  {
    SameServersUsable(st, next);
    assert forall id :: HasGroup(next, id) <==> HasGroup(st, id);
    hide UsableServer, HasGroup;
  }

  lemma ElsewhereCompilesIff(lib: Library, st: State, sources: seq<Source>, settings: Settings)
    requires NamedGroups(st) && WellFormed(lib, st)
    ensures WellFormed(lib, st.(sources := sources, settings := settings))
        <==> ElsewhereFits(lib, st, sources, settings)
  {
    hide UsableIds, HasGroup, ActiveServer, GoodGroup, GoodRoute, AdditionsGood, AtMostOnce, ProviderUses,
      GoodGeoSource, GoodTarget;
    var next := st.(sources := sources, settings := settings);
    SettingsIrrelevant(st.(sources := sources), next);
    forall rt | rt in st.routes && rt.enabled
      ensures GoodRoute(lib, next, rt)
          <==> (rt.target.kind.ToServer? ==> rt.target.id in UsableIds(next))
               && forall c | c in rt.conditions :: AdditionsGood(lib, settings, c)
    { RouteElsewhere(lib, st, next, rt); }
    GroupsElsewhere(lib, st, next);
    TargetServed(next, settings.defaultPolicy);
    if WellFormed(lib, next) {
      forall rt | rt in st.routes && rt.enabled ensures GoodRoute(lib, next, rt) { }
    }
    if ElsewhereFits(lib, st, sources, settings) {
      forall rt | rt in st.routes && rt.enabled ensures GoodRoute(lib, next, rt) { }
    }
  }

  lemma TargetServed(st: State, t: Target)
    ensures GoodTarget(st, t) && t.kind.ToServer? ==> t.id in UsableIds(st)
  {
    hide UsableServer;
  }

  lemma GroupsElsewhere(lib: Library, st: State, next: State)
    requires NamedGroups(st) && WellFormed(lib, st) && next.groups == st.groups
    ensures (forall g | g in next.groups :: GoodGroup(next, g))
        <==> forall g, m | g in next.groups && m in g.members :: m in UsableIds(next) || HasGroup(next, m)
  {
    hide UsableIds, HasGroup, GoodGroup;
    assert forall id :: HasGroup(next, id) <==> HasGroup(st, id) by { SameGroupsThere(st, next); }
    forall g | g in st.groups
      ensures GoodGroup(next, g) <==> forall m | m in g.members :: m in UsableIds(next) || HasGroup(next, m)
    {
      assert GoodGroup(st, g);
      ServedGroup(st, next, g);
    }
  }

  // ---------------------------------------------------------------- templates and imports

  lemma NewPolicyIff(lib: Library, st: State, t: Target)
    requires WellFormed(lib, st)
    ensures WellFormed(lib, st.(settings := st.settings.(defaultPolicy := t))) <==> GoodTarget(st, t)
  {
    hide ActiveServer, GoodCondition, GoodTarget, ValidProvider, AtMostOnce, ProviderUses, GoodGeoSource, GoodGroup;
    var next := st.(settings := st.settings.(defaultPolicy := t));
    SettingsIrrelevant(st, next);
    SettingsElsewhere(st, next);
    assert next.settings.additions == st.settings.additions;
    forall rt | rt in st.routes && rt.enabled ensures GoodRoute(lib, next, rt) {
      assert GoodRoute(lib, st, rt);
      SameAdditions(lib, st.settings, next.settings, rt.conditions);
    }
  }

  lemma SettingsElsewhere(st: State, next: State)
    requires next == st.(settings := next.settings)
    ensures forall srv :: ActiveServer(next, srv) <==> ActiveServer(st, srv)
    ensures forall g :: GoodGroup(next, g) <==> GoodGroup(st, g)
  {
    SameServersUsable(st, next);
    hide UsableServer;
  }

  lemma SameAdditions(lib: Library, before: Settings, after: Settings, cs: seq<Condition>)
    requires after.additions == before.additions
    ensures forall c | c in cs :: GoodCondition(lib, after, c) <==> GoodCondition(lib, before, c)
  {
    hide ValidAddition, AdditionKey;
  }

  /** Imported routes are off. */
  lemma {:induction false} ImportWell(lib: Library, st: State, rules: seq<External>)
    requires WellFormed(lib, st)
    ensures WellFormed(lib, Import.ImportRules(lib, st, rules).st)
  {
    if |rules| > 0 {
      hide WellFormed, Import.ImportRule, Import.Verdict;
      var init, ru := rules[..|rules| - 1], rules[|rules| - 1];
      ImportWell(lib, st, init);
      var prev := Import.ImportRules(lib, st, init);
      var v := Import.Verdict(lib, prev.st, prev.seen, ru);
      ImportStep(lib, prev, ru);
      if v.Ok? {
        NewRouteIff(lib, prev.st, Import.ImportRule(lib, prev, ru).st,
                    Import.ImportedRoute(prev.st, ru, v.value.0, v.value.1));
      }
    }
  }

  lemma ImportStep(lib: Library, o: Import.Outcome, ru: External)
    ensures var v, next := Import.Verdict(lib, o.st, o.seen, ru), Import.ImportRule(lib, o, ru).st;
      && (v.Err? ==> next == o.st)
      && (v.Ok? ==>
            next == o.st.(routes := o.st.routes + [Import.ImportedRoute(o.st, ru, v.value.0, v.value.1)]))
  {
    hide Import.Verdict, Import.ImportedRoute;
  }

  // ---------------------------------------------------------------- every request

  /** The route a template adds. */
  function TemplateRoute(st: State, t: Templates.Template, target: Target): Route {
    Route(NewId("rt", AllIds(st)), t.name, true, MaxOrder(st.routes) + 10, t.conditions, target, "block", t.providers)
  }

  /** What a caller must check beyond the request being accepted. */
  ghost predicate CompileCareful(lib: Library, hash: IdHash, st: State, c: Command) {
    match c
    case CreateGroup(g) => CreateGroupStep(st, g).1.Done? ==> MembersUsable(st, g.members)
    case PatchGroup(id, g) =>
      PatchGroupStep(st, id, g).1.Done? ==>
        !g.kind.UnknownGroupType? && |g.members| > 0 && id !in g.members && MembersUsable(st, g.members)
    case DeleteGroup(id) => DeleteGroupStep(st, id).1.Done? ==> Expendable(st, id)
    case CreateRoute(known, r) =>
      var (next, resp) := CreateRouteStep(lib, known, st, r);
      resp.Done? && Or(r.enabled, true) ==> BeyondValidation(lib, st, next.routes[|st.routes|], st.routes)
    case PatchRoute(known, id, r) =>
      PatchRouteStep(lib, known, st, id, r).1.Done? ==>
        var i := IndexOfRoute(st.routes, id).value;
        var rt := Patched(st.routes[i], r);
        rt.enabled ==> BeyondValidation(lib, st, rt, Others(st.routes, i))
    case ApplyTemplate(t, target) =>
      ApplyTemplateStep(st, t, target).1.Done? ==>
        if t.id == "all-vpn" then target.kind.ToServer? ==> UsableServer(st, target.id)
        else RouteFits(lib, st, TemplateRoute(st, t, target), st.routes)
    case CreateServers(proxies) =>
      CreateServersStep(hash, st, proxies).1.Done? ==>
        MergeServes(hash, st, WithManual(st).0.sources, WithManual(st).1, proxies)
    case DeleteServer(id) => DeleteServerStep(st, id).1.Done? ==> Expendable(st, id)
    case DeleteSource(id) => DeleteSourceStep(st, id).1.Done? ==> Served(st, UsableElsewhere(st, id))
    case RefreshSource(sid, answer) => MergeServes(hash, st, st.sources, sid, answer)
    case EditElsewhere(sources, settings) => ElsewhereFits(lib, st, sources, settings)
    case _ => true
  }

  lemma CreatedRouteIff(lib: Library, hash: IdHash, st: State, known: Option<set<string>>, r: RouteIn)
    requires WellFormed(lib, st)
    ensures WellFormed(lib, CreateRouteStep(lib, known, st, r).0)
        <==> CompileCareful(lib, hash, st, CreateRoute(known, r))
  {
    hide WellFormed, BeyondValidation, RouteFits, ValidateRoute, NewId;
    var (next, resp) := CreateRouteStep(lib, known, st, r);
    if resp.Done? {
      var rt := next.routes[|st.routes|];
      AcceptedFitsIff(lib, known, st, rt, st.routes);
      NewRouteIff(lib, st, next, rt);
    }
  }

  lemma PatchedRouteIff(lib: Library, hash: IdHash, st: State, known: Option<set<string>>, id: string, r: RouteIn)
    requires WellFormed(lib, st)
    ensures WellFormed(lib, PatchRouteStep(lib, known, st, id, r).0)
        <==> CompileCareful(lib, hash, st, PatchRoute(known, id, r))
  {
    hide WellFormed, BeyondValidation, RouteFits, ValidateRoute;
    var (next, resp) := PatchRouteStep(lib, known, st, id, r);
    if resp.Done? {
      var i := IndexOfRoute(st.routes, id).value;
      var rt := Patched(st.routes[i], r);
      SameRouteValidation(lib, st, next, known, rt);
      AcceptedFitsIff(lib, known, st, rt, Others(st.routes, i));
      ChangedRouteIff(lib, st, next, i, rt);
    }
  }

  lemma SameRouteValidation(lib: Library, st: State, next: State, known: Option<set<string>>, rt: Route)
    requires next == st.(routes := next.routes)
    ensures ValidateRoute(lib, next, known, rt.name, rt.conditions, rt.providers, Some(rt.target))
         == ValidateRoute(lib, st, known, rt.name, rt.conditions, rt.providers, Some(rt.target))
  {
    hide ConditionsAccepted, ProviderAccepted;
    SameValidation(st, next, rt.target);
  }

  lemma AppliedTemplateIff(lib: Library, hash: IdHash, st: State, t: Templates.Template, target: Target)
    requires WellFormed(lib, st)
    ensures WellFormed(lib, ApplyTemplateStep(st, t, target).0)
        <==> CompileCareful(lib, hash, st, ApplyTemplate(t, target))
  {
    hide WellFormed, RouteFits, NewId, ValidateTarget, UsableServer, GoodTarget;
    if ApplyTemplateStep(st, t, target).1.Done? {
      AcceptedTargetIff(st, target);
      if t.id == "all-vpn" {
        NewPolicyIff(lib, st, target);
      } else {
        NewRouteIff(lib, st, ApplyTemplateStep(st, t, target).0, TemplateRoute(st, t, target));
      }
    }
  }

  lemma DeletedRouteWell(lib: Library, st: State, id: string)
    requires WellFormed(lib, st)
    ensures WellFormed(lib, DeleteRouteStep(st, id).0)
  {
    hide WellFormed;
    if DeleteRouteStep(st, id).1.Done? {
      RouteGone(lib, st, DeleteRouteStep(st, id).0, IndexOfRoute(st.routes, id).value);
    }
  }

  lemma ImportedOneWell(lib: Library, st: State, live: seq<External>, raw: string, name: string, asked: Target)
    requires WellFormed(lib, st)
    ensures WellFormed(lib, Import.ImportOneStep(lib, st, live, raw, name, asked).0)
  {
    hide WellFormed, ValidateTarget, NewId, Import.RuleCondition, Import.AskedTarget, TrimSpace, Import.ImportName;
    var next := Import.ImportOneStep(lib, st, live, raw, name, asked).0;
    if next != st { NewRouteIff(lib, st, next, next.routes[|st.routes|]); }
  }

  lemma PastedLinksIff(lib: Library, hash: IdHash, st: State, proxies: seq<Raw>)
    requires NamedGroups(st) && WellFormed(lib, st)
    ensures WellFormed(lib, CreateServersStep(hash, st, proxies).0)
        <==> CompileCareful(lib, hash, st, CreateServers(proxies))
  {
    hide WellFormed, MergeServes, Merged, NewId, Usable;
    if CreateServersStep(hash, st, proxies).1.Done? {
      MergeCompilesIff(lib, hash, st, CreateServersStep(hash, st, proxies).0, WithManual(st).1, proxies);
    }
  }

  lemma DeletionsIff(lib: Library, hash: IdHash, st: State, id: string)
    requires Tidy(st) && WellFormed(lib, st)
    ensures WellFormed(lib, DeleteServerStep(st, id).0) <==> CompileCareful(lib, hash, st, DeleteServer(id))
    ensures WellFormed(lib, DeleteGroupStep(st, id).0) <==> CompileCareful(lib, hash, st, DeleteGroup(id))
  {
    hide WellFormed, LessOne, Tidy, Expendable, Targeted, Stripped;
    TidyNames(st);
    if DeleteServerStep(st, id).1.Done? {
      ServerDeletionIsLessOne(st, id);
      SurvivesLessOne(lib, st, DeleteServerStep(st, id).0, id);
    }
    if DeleteGroupStep(st, id).1.Done? {
      GroupDeletionIsLessOne(st, id);
      SurvivesLessOne(lib, st, DeleteGroupStep(st, id).0, id);
    }
  }

  lemma ReplacedWell(lib: Library, known: Option<set<string>>, st: State, doc: State)
    requires WellFormed(lib, st)
    ensures WellFormed(lib, ReplaceStep(lib, known, st, doc).0)
  {
    hide WellFormed, Compiled;
    CompilesIff(lib, doc);
  }

  lemma RouteStepWellIff(lib: Library, hash: IdHash, st: State, c: Command)
    requires WellFormed(lib, st)
    requires c.CreateRoute? || c.PatchRoute? || c.DeleteRoute? || c.ApplyTemplate? || c.ImportOneRule?
          || c.ImportExternal?
    ensures WellFormed(lib, Step(lib, hash, st, c)) <==> CompileCareful(lib, hash, st, c)
  {
    hide Tidy, WellFormed, CreateGroupStep, EditServerStep, DeleteServerStep, DeleteGroupStep, PatchGroupStep,
      DeleteSourceStep, DeleteRouteStep, CreateRouteStep, PatchRouteStep, ApplyTemplateStep, Import.ImportRules,
      Import.ImportOneStep, CreateServersStep, ReplaceStep, WithManual, Merged, MergeServes, ElsewhereFits, Served,
      UsableElsewhere, MembersUsable, Expendable, RouteFits, BeyondValidation, NamedGroups;
    match c
    case CreateRoute(known, r) => CreatedRouteIff(lib, hash, st, known, r);
    case PatchRoute(known, id, r) => PatchedRouteIff(lib, hash, st, known, id, r);
    case DeleteRoute(id) => DeletedRouteWell(lib, st, id);
    case ApplyTemplate(t, target) => AppliedTemplateIff(lib, hash, st, t, target);
    case ImportOneRule(live, raw, name, asked) => ImportedOneWell(lib, st, live, raw, name, asked);
    case ImportExternal(rules) => ImportWell(lib, st, rules);
  }

  lemma ServerStepWellIff(lib: Library, hash: IdHash, st: State, c: Command)
    requires Tidy(st) && WellFormed(lib, st)
    requires c.CreateServers? || c.EditServer? || c.DeleteSource? || c.RefreshSource?
    ensures WellFormed(lib, Step(lib, hash, st, c)) <==> CompileCareful(lib, hash, st, c)
  {
    TidyNames(st);
    hide Tidy, WellFormed, CreateGroupStep, EditServerStep, DeleteServerStep, DeleteGroupStep, PatchGroupStep,
      DeleteSourceStep, DeleteRouteStep, CreateRouteStep, PatchRouteStep, ApplyTemplateStep, Import.ImportRules,
      Import.ImportOneStep, CreateServersStep, ReplaceStep, WithManual, Merged, MergeServes, ElsewhereFits, Served,
      UsableElsewhere, MembersUsable, Expendable, RouteFits, BeyondValidation, NamedGroups;
    RefusedLeaveAlone(st, c);
    match c
    case CreateServers(proxies) => PastedLinksIff(lib, hash, st, proxies);
    case EditServer(id, name, address, patch) => EditedServerWell(lib, st, id, name, address, patch);
    case DeleteSource(id) => if DeleteSourceStep(st, id).1.Done? { SourceDeletionCompilesIff(lib, st, id); }
    case RefreshSource(sid, answer) => MergeCompilesIff(lib, hash, st, Step(lib, hash, st, c), sid, answer);
  }

  lemma DeletionStepWellIff(lib: Library, hash: IdHash, st: State, c: Command)
    requires Tidy(st) && WellFormed(lib, st) && (c.DeleteServer? || c.DeleteGroup?)
    ensures WellFormed(lib, Step(lib, hash, st, c)) <==> CompileCareful(lib, hash, st, c)
  {
    hide Tidy, WellFormed, CompileCareful, DeleteServerStep, DeleteGroupStep;
    DeletionsIff(lib, hash, st, c.id);
  }

  lemma OtherStepWellIff(lib: Library, hash: IdHash, st: State, c: Command)
    requires Tidy(st) && WellFormed(lib, st)
    requires c.CreateGroup? || c.PatchGroup? || c.EditElsewhere? || c.ReplaceState?
    ensures WellFormed(lib, Step(lib, hash, st, c)) <==> CompileCareful(lib, hash, st, c)
  {
    TidyNames(st);
    hide Tidy, WellFormed, CreateGroupStep, EditServerStep, DeleteServerStep, DeleteGroupStep, PatchGroupStep,
      DeleteSourceStep, DeleteRouteStep, CreateRouteStep, PatchRouteStep, ApplyTemplateStep, Import.ImportRules,
      Import.ImportOneStep, CreateServersStep, ReplaceStep, WithManual, Merged, MergeServes, ElsewhereFits, Served,
      UsableElsewhere, MembersUsable, Expendable, RouteFits, BeyondValidation, NamedGroups;
    RefusedLeaveAlone(st, c);
    match c
    case CreateGroup(g) => if CreateGroupStep(st, g).1.Done? { NewGroupIff(lib, st, g); }
    case PatchGroup(id, g) => if PatchGroupStep(st, id, g).1.Done? { PatchedGroupIff(lib, st, id, g); }
    case EditElsewhere(sources, settings) => ElsewhereCompilesIff(lib, st, sources, settings);
    case ReplaceState(known, doc) => ReplacedWell(lib, known, st, doc);
  }

  lemma StepWellIff(lib: Library, hash: IdHash, st: State, c: Command)
    requires Tidy(st) && WellFormed(lib, st)
    ensures WellFormed(lib, Step(lib, hash, st, c)) <==> CompileCareful(lib, hash, st, c)
  {
    hide Tidy, WellFormed, Step, CompileCareful;
    match c
    case CreateServers(_) => ServerStepWellIff(lib, hash, st, c);
    case EditServer(_, _, _, _) => ServerStepWellIff(lib, hash, st, c);
    case DeleteServer(_) => DeletionStepWellIff(lib, hash, st, c);
    case DeleteSource(_) => ServerStepWellIff(lib, hash, st, c);
    case RefreshSource(_, _) => ServerStepWellIff(lib, hash, st, c);
    case CreateGroup(_) => OtherStepWellIff(lib, hash, st, c);
    case PatchGroup(_, _) => OtherStepWellIff(lib, hash, st, c);
    case DeleteGroup(_) => DeletionStepWellIff(lib, hash, st, c);
    case EditElsewhere(_, _) => OtherStepWellIff(lib, hash, st, c);
    case ReplaceState(_, _) => OtherStepWellIff(lib, hash, st, c);
    case _ => RouteStepWellIff(lib, hash, st, c);
  }

  lemma RefusedLeaveAlone(st: State, c: Command)
    ensures c.CreateGroup? && !CreateGroupStep(st, c.g).1.Done? ==> CreateGroupStep(st, c.g).0 == st
    ensures c.PatchGroup? && !PatchGroupStep(st, c.id, c.g).1.Done? ==> PatchGroupStep(st, c.id, c.g).0 == st
    ensures c.DeleteSource? && !DeleteSourceStep(st, c.id).1.Done? ==> DeleteSourceStep(st, c.id).0 == st
  {
    hide Targeted, NewId, HasPrefix, NotFrom;
  }

  /** Every request and every merge, and exactly when it leaves a compilable document compilable. */
  lemma StepKeepsCompilableIff(lib: Library, hash: IdHash, st: State, c: Command)
    requires Tidy(st) && Compiled(lib, st).Ok?
    ensures Compiled(lib, Step(lib, hash, st, c)).Ok? <==> CompileCareful(lib, hash, st, c)
  {
    hide Tidy, Compiled, WellFormed, Step, CompileCareful;
    CompilesIff(lib, st);
    CompilesIff(lib, Step(lib, hash, st, c));
    StepWellIff(lib, hash, st, c);
  }

  /** Every step of the run was careful in the state it met, of IDs and of the compiler. */
  ghost predicate CompileRun(lib: Library, hash: IdHash, st: State, cs: seq<Command>) {
    |cs| == 0
    || (CompileRun(lib, hash, st, cs[..|cs| - 1])
        && CompileCareful(lib, hash, Run(lib, hash, st, cs[..|cs| - 1]), cs[|cs| - 1]))
  }

  /** The document stays compilable over every run of such steps. */
  lemma {:induction false} RunKeepsCompilable(lib: Library, hash: IdHash, st: State, cs: seq<Command>)
    requires Tidy(st) && Compiled(lib, st).Ok? && TidyRun(lib, hash, st, cs) && CompileRun(lib, hash, st, cs)
    ensures Compiled(lib, Run(lib, hash, st, cs)).Ok?
  {
    if |cs| > 0 {
      hide Tidy, Compiled, Step, TidyCareful, CompileCareful;
      var init := cs[..|cs| - 1];
      RunKeepsCompilable(lib, hash, st, init);
      RunKeepsTidy(lib, hash, st, init);
      StepKeepsCompilableIff(lib, hash, Run(lib, hash, st, init), cs[|cs| - 1]);
    }
  }
}
