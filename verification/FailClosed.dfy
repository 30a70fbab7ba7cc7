/** The guarantee behind `on_unavailable`: which routes can end at DIRECT, however groups are nested,
    cycles included. */
module FailClosed {
  import opened Prelude
  import opened Text
  import opened Model
  import opened Names
  import opened Generator
  import opened WellFormedness
  import opened Closure

  // ---------------------------------------------------------------- reachability by name

  ghost predicate Edge(p: Profile, a: string, b: string) {
    exists g | g in p.groups :: g.name == a && b in g.members
  }

  ghost predicate Path(p: Profile, path: seq<string>) {
    |path| > 0 && forall i | 0 <= i < |path| - 1 :: Edge(p, path[i], path[i + 1])
  }

  /** Traffic sent to a can be handed on to b through group membership. */
  ghost predicate Reaches(p: Profile, a: string, b: string) {
    exists path | Path(p, path) :: path[0] == a && path[|path| - 1] == b
  }

  // ---------------------------------------------------------------- which names are which

  lemma ServiceNameShape(id: string)
    ensures HasPrefix(ServiceName(id), "rt:") && ServiceName(id) != "DIRECT" && ServiceName(id) != "REJECT"
    ensures '[' !in id ==> !Bracketed(ServiceName(id))
    ensures ServiceName(id)[3..] == id
  {
    assert ServiceName(id)[0] == 'r' && "DIRECT"[0] == 'D' && "REJECT"[0] == 'R';
  }

  lemma SameServiceName(a: string, b: string)
    requires ServiceName(a) == ServiceName(b)
    ensures a == b
  {
    ServiceNameShape(a);
    ServiceNameShape(b);
  }

  /** Suffixing does not create a service name or a pseudo-proxy name. */
  lemma SuffixKeepsShape(earlier: seq<string>, d: string)
    requires !HasPrefix(d, "rt:")
    ensures !HasPrefix(UniqueOf(earlier, d), "rt:")
    ensures UniqueOf(earlier, d) == "DIRECT" ==> d == "DIRECT"
  {
    UniqueOfKeeps(earlier, d);
    var n := multiset(earlier)[d];
    if n > 0 {
      var name := d + " #" + Itoa(n + 1);
      assert name[|d|] == ' ';
      assert forall i | 0 <= i < 3 :: "rt:"[i] != ' ';
      assert forall i | 0 <= i < 6 :: "DIRECT"[i] != '#';
    }
  }

  /** A user group is never printed under a service name. */
  lemma UserNameShape(ctx: Context, st: State, g: Group)
    requires Tables(ctx, st) && g in st.groups
    requires forall h | h in st.groups :: !HasPrefix(h.name, "rt:")
    ensures !HasPrefix(ctx.groups[g.id], "rt:")
    ensures ctx.groups[g.id] == "DIRECT" ==> exists h | h in st.groups :: h.name == "DIRECT"
  {
    var i := LastGroup(st.groups, g.id);
    UserNameFrom(ctx, st, g.id, i);
  }

  lemma UserNameFrom(ctx: Context, st: State, id: string, i: int)
    requires Tables(ctx, st) && LastGroupAt(st.groups, id, i) && !HasPrefix(st.groups[i].name, "rt:")
    ensures id in ctx.groups && !HasPrefix(ctx.groups[id], "rt:")
    ensures ctx.groups[id] == "DIRECT" ==> st.groups[i].name == "DIRECT"
  {
    var issued := ServerDisplays(ActiveSources(st.sources), st.servers);
    GroupNameAt(issued, st.groups, id, i);
    SuffixKeepsShape(issued + GroupDisplays(st.groups[..i]), st.groups[i].name);
  }

  lemma ProxyNameShape(ctx: Context, st: State, p: Profile, n: string)
    requires Assembled(ctx, st, p) && IsProxy(p, n)
    ensures Bracketed(n)
  {
    hide Clean, Tables;
    ServerNamesBracketed(ActiveSources(st.sources), st.servers);
  }

  lemma UserGroupShapes(ctx: Context, st: State, p: Profile, n: string)
    requires Assembled(ctx, st, p) && IsUserGroup(ctx, st, n)
    ensures !HasPrefix(n, "rt:")
    ensures n == "DIRECT" ==> exists h | h in st.groups :: h.name == "DIRECT"
  {
    var g :| g in st.groups && g.id in ctx.groups && ctx.groups[g.id] == n;
    UserNameShape(ctx, st, g);
  }

  // ---------------------------------------------------------------- chains of user groups

  function Printed(ctx: Context, g: Group): string {
    if g.id in ctx.groups then ctx.groups[g.id] else ""
  }

  /** A member of g carries the name h is printed under. */
  ghost predicate HandsOn(ctx: Context, g: Group, h: Group) {
    exists m | m in g.members :: MemberName(ctx, g.id, m) == Some(Printed(ctx, h))
  }

  ghost predicate GroupChain(ctx: Context, st: State, gs: seq<Group>) {
    && |gs| > 0 && (forall i | 0 <= i < |gs| :: gs[i] in st.groups)
    && forall i | 0 <= i < |gs| - 1 :: HandsOn(ctx, gs[i], gs[i + 1])
  }

  /** From the user group printed under n, groups lead to one printed as DIRECT. */
  ghost predicate EndsAtDirect(ctx: Context, st: State, n: string) {
    exists gs | GroupChain(ctx, st, gs) :: Printed(ctx, gs[0]) == n && Printed(ctx, gs[|gs| - 1]) == "DIRECT"
  }

  ghost predicate Blocking(rt: Route) {
    rt.onUnavailable != "direct" && !rt.target.kind.ToDirect?
  }

  /** A blocking route leaks only through user groups that imitate DIRECT or REJECT by name. */
  ghost predicate RouteLeaks(ctx: Context, st: State, rt: Route) {
    || !Blocking(rt) || EndsAtDirect(ctx, st, "REJECT")
    || (Resolve(ctx, rt.target).Some? && EndsAtDirect(ctx, st, Resolve(ctx, rt.target).value))
  }

  ghost predicate DefaultLeaks(ctx: Context, st: State) {
    var dp := st.settings.defaultPolicy;
    || dp.kind.ToDirect?
    || (Resolve(ctx, dp).Some? && EndsAtDirect(ctx, st, Resolve(ctx, dp).value))
  }

  ghost predicate BracketFree(st: State) {
    forall rt | rt in st.routes && rt.enabled :: '[' !in rt.id
  }

  // ---------------------------------------------------------------- chains are paths

  lemma MemberEdge(p: Profile, x: ProxyGroup, n: string)
    requires x in p.groups && n in x.members
    ensures Edge(p, x.name, n)
  {
  }

  lemma ReachesOn(p: Profile, a: string, b: string, c: string)
    requires Edge(p, a, b) && Reaches(p, b, c)
    ensures Reaches(p, a, c)
  {
    hide Edge;
    var rest :| Path(p, rest) && rest[0] == b && rest[|rest| - 1] == c;
    var path := [a] + rest;
    assert path[0] == a && path[|path| - 1] == c;
  }

  lemma ReachesSelf(p: Profile, a: string)
    ensures Reaches(p, a, a)
  {
    var path := [a];
    assert Path(p, path) && path[0] == a;
  }

  lemma MemberPrinted(ctx: Context, g: Group, m: string)
    requires MemberProblems(ctx, g.id, g.members) == [] && m in g.members
    ensures MemberName(ctx, g.id, m).Some? && MemberName(ctx, g.id, m).value in MemberNames(ctx, g.id, g.members)
  {
    MemberNamesAt(ctx, g.id, g.members);
    var i :| 0 <= i < |g.members| && g.members[i] == m;
    assert MemberNames(ctx, g.id, g.members)[i] == MemberName(ctx, g.id, m).value;
  }

  lemma HandsOnEdge(ctx: Context, st: State, p: Profile, g: Group, h: Group)
    requires Assembled(ctx, st, p) && g in st.groups && HandsOn(ctx, g, h)
    ensures Edge(p, Printed(ctx, g), Printed(ctx, h))
  {
    var m :| m in g.members && MemberName(ctx, g.id, m) == Some(Printed(ctx, h));
    MemberPrinted(ctx, g, m);
    var x := UserGroup(ctx, g);
    GroupOrigin(ctx, st, p, x);
    MemberEdge(p, x, Printed(ctx, h));
  }

  lemma {:induction false} ChainReaches(ctx: Context, st: State, p: Profile, gs: seq<Group>)
    requires Assembled(ctx, st, p) && GroupChain(ctx, st, gs)
    ensures Reaches(p, Printed(ctx, gs[0]), Printed(ctx, gs[|gs| - 1]))
  {
    hide Assembled, HandsOn, Edge, Reaches, Printed;
    if |gs| == 1 {
      ReachesSelf(p, Printed(ctx, gs[0]));
    } else {
      assert GroupChain(ctx, st, gs[1..]);
      ChainReaches(ctx, st, p, gs[1..]);
      HandsOnEdge(ctx, st, p, gs[0], gs[1]);
      ReachesOn(p, Printed(ctx, gs[0]), Printed(ctx, gs[1]), Printed(ctx, gs[|gs| - 1]));
    }
  }

  lemma EndsReaches(ctx: Context, st: State, p: Profile, n: string)
    requires Assembled(ctx, st, p) && EndsAtDirect(ctx, st, n)
    ensures Reaches(p, n, "DIRECT")
  {
    hide Assembled, HandsOn, Printed;
    var gs :| GroupChain(ctx, st, gs) && Printed(ctx, gs[0]) == n && Printed(ctx, gs[|gs| - 1]) == "DIRECT";
    ChainReaches(ctx, st, p, gs);
  }

  /** The service group of an enabled route is part of the profile. */
  lemma ServiceEmitted(ctx: Context, st: State, p: Profile, rt: Route)
    requires Assembled(ctx, st, p) && rt in st.routes && rt.enabled
    ensures Live(ctx, rt) && ServiceGroup(rt, Resolve(ctx, rt.target).value) in p.groups
  {
    GroupOrigin(ctx, st, p, ServiceGroup(rt, Resolve(ctx, rt.target).value));
  }

  lemma RouteLeakReaches(ctx: Context, st: State, p: Profile, rt: Route)
    requires Assembled(ctx, st, p) && rt in st.routes && rt.enabled && RouteLeaks(ctx, st, rt)
    ensures Reaches(p, ServiceName(rt.id), "DIRECT")
  {
    hide Assembled, EndsAtDirect, Reaches, Edge;
    ServiceEmitted(ctx, st, p, rt);
    var target := Resolve(ctx, rt.target).value;
    var x := ServiceGroup(rt, target);
    var n := if !Blocking(rt) then "DIRECT" else if EndsAtDirect(ctx, st, "REJECT") then "REJECT" else target;
    assert n in x.members;
    MemberEdge(p, x, n);
    if !Blocking(rt) { ReachesSelf(p, "DIRECT"); } else { EndsReaches(ctx, st, p, n); }
    ReachesOn(p, ServiceName(rt.id), n, "DIRECT");
  }

  lemma DefaultLeakReaches(ctx: Context, st: State, p: Profile)
    requires Assembled(ctx, st, p) && DefaultLeaks(ctx, st)
    ensures Reaches(p, ServiceName("default"), "DIRECT")
  {
    hide EndsAtDirect, Reaches, Edge;
    var x := DefaultGroup(ctx);
    var n := Resolve(ctx, st.settings.defaultPolicy).value;
    GroupOrigin(ctx, st, p, x);
    assert x.name == ServiceName("default") && n in x.members;
    MemberEdge(p, x, n);
    if n == "DIRECT" { ReachesSelf(p, "DIRECT"); } else { EndsReaches(ctx, st, p, n); }
    ReachesOn(p, ServiceName("default"), n, "DIRECT");
  }

  // ---------------------------------------------------------------- paths are chains

  /** The names traffic can be handed to: anything but a service group. */
  ghost predicate Inner(ctx: Context, st: State, p: Profile, n: string) {
    n == "REJECT" || n == "DIRECT" || IsProxy(p, n) || IsUserGroup(ctx, st, n)
  }

  lemma InnerIsNoService(ctx: Context, st: State, p: Profile, n: string, id: string)
    requires Assembled(ctx, st, p) && Inner(ctx, st, p, n) && '[' !in id
    ensures n != ServiceName(id)
  {
    hide Assembled;
    ServiceNameShape(id);
    if IsProxy(p, n) { ProxyNameShape(ctx, st, p, n); }
    if IsUserGroup(ctx, st, n) { UserGroupShapes(ctx, st, p, n); }
  }

  lemma DefaultIsBracketFree()
    ensures '[' !in "default" && DEFAULT_GROUP == ServiceName("default")
  {
    assert forall i | 0 <= i < 7 :: "default"[i] != '[';
  }

  /** An edge out of an inner name starts at a user group. */
  lemma InnerEdge(ctx: Context, st: State, p: Profile, x: ProxyGroup)
    requires Assembled(ctx, st, p) && BracketFree(st) && x in p.groups && Inner(ctx, st, p, x.name)
    ensures FromGroup(ctx, st, x)
  {
    hide Assembled, Inner;
    GroupOrigin(ctx, st, p, x);
    if FromRoute(ctx, st, x) {
      var rt :| rt in st.routes && Live(ctx, rt) && x == ServiceGroup(rt, Resolve(ctx, rt.target).value);
      InnerIsNoService(ctx, st, p, x.name, rt.id);
    } else if x == DefaultGroup(ctx) {
      DefaultIsBracketFree();
      InnerIsNoService(ctx, st, p, x.name, "default");
    }
  }

  lemma {:induction false} InnerPath(ctx: Context, st: State, p: Profile, path: seq<string>)
    requires Assembled(ctx, st, p) && BracketFree(st)
    requires Path(p, path) && Inner(ctx, st, p, path[0]) && path[|path| - 1] == "DIRECT"
    requires |path| == 1 ==> IsUserGroup(ctx, st, "DIRECT")
    ensures EndsAtDirect(ctx, st, path[0])
  {
    hide Assembled, Edge;
    if |path| == 1 {
      var g :| g in st.groups && g.id in ctx.groups && ctx.groups[g.id] == "DIRECT";
      OneGroupChain(ctx, st, g);
    } else {
      var x := EdgeFrom(p, path[0], path[1]);
      InnerEdge(ctx, st, p, x);
      var g :| g in st.groups && g.id in ctx.groups && x == UserGroup(ctx, g);
      UserMembersEmitted(ctx, st, p, g, path[1]);
      if |path| == 2 { NoProxyDirect(ctx, st, p); }
      InnerPath(ctx, st, p, path[1..]);
      ChainCons(ctx, st, p, g, path[1]);
    }
  }

  lemma EdgeFrom(p: Profile, a: string, b: string) returns (x: ProxyGroup)
    requires Edge(p, a, b)
    ensures x in p.groups && x.name == a && b in x.members
  {
    x :| x in p.groups && x.name == a && b in x.members;
  }

  lemma NoProxyDirect(ctx: Context, st: State, p: Profile)
    requires Assembled(ctx, st, p)
    ensures !IsProxy(p, "DIRECT")
  {
    hide Assembled;
    if IsProxy(p, "DIRECT") { ProxyNameShape(ctx, st, p, "DIRECT"); }
  }

  lemma OneGroupChain(ctx: Context, st: State, g: Group)
    requires g in st.groups && Printed(ctx, g) == "DIRECT"
    ensures EndsAtDirect(ctx, st, "DIRECT")
  {
    var gs := [g];
    assert GroupChain(ctx, st, gs) && Printed(ctx, gs[0]) == "DIRECT" && Printed(ctx, gs[|gs| - 1]) == "DIRECT";
  }

  lemma ChainCons(ctx: Context, st: State, p: Profile, g: Group, n: string)
    requires Assembled(ctx, st, p) && g in st.groups && g.id in ctx.groups && n in UserGroup(ctx, g).members
    requires EndsAtDirect(ctx, st, n)
    ensures EndsAtDirect(ctx, st, ctx.groups[g.id])
  {
    hide Assembled, HandsOn;
    var gs :| GroupChain(ctx, st, gs) && Printed(ctx, gs[0]) == n && Printed(ctx, gs[|gs| - 1]) == "DIRECT";
    MemberHandsOn(ctx, st, p, g, gs[0]);
    LongerChain(ctx, st, g, gs);
    var longer := [g] + gs;
    assert longer[0] == g && longer[|longer| - 1] == gs[|gs| - 1];
  }

  lemma LongerChain(ctx: Context, st: State, g: Group, gs: seq<Group>)
    requires GroupChain(ctx, st, gs) && g in st.groups && HandsOn(ctx, g, gs[0])
    ensures GroupChain(ctx, st, [g] + gs)
  {
    hide HandsOn;
    var longer := [g] + gs;
    forall i | 0 <= i < |longer| - 1 ensures HandsOn(ctx, longer[i], longer[i + 1]) {
      if i > 0 { assert longer[i] == gs[i - 1] && longer[i + 1] == gs[i]; }
    }
  }

  lemma MemberHandsOn(ctx: Context, st: State, p: Profile, g: Group, h: Group)
    requires Assembled(ctx, st, p) && g in st.groups && g.id in ctx.groups
    requires Printed(ctx, h) in UserGroup(ctx, g).members
    ensures HandsOn(ctx, g, h)
  {
    MemberNamesAt(ctx, g.id, g.members);
    var i :| 0 <= i < |g.members| && MemberNames(ctx, g.id, g.members)[i] == Printed(ctx, h);
    assert g.members[i] in g.members;
  }

  /** The first hop out of a service group, and what follows. */
  lemma HopReaches(ctx: Context, st: State, p: Profile, n: string, path: seq<string>)
    requires Assembled(ctx, st, p) && BracketFree(st)
    requires Path(p, path) && path[0] == n && path[|path| - 1] == "DIRECT"
    requires IsProxy(p, n) || IsUserGroup(ctx, st, n) || n == "REJECT"
    ensures EndsAtDirect(ctx, st, n)
  {
    hide Assembled, EndsAtDirect;
    if |path| == 1 { NoProxyDirect(ctx, st, p); }
    InnerPath(ctx, st, p, path);
  }

  lemma ServicePathLeaks(ctx: Context, st: State, p: Profile, id: string, path: seq<string>)
    requires Assembled(ctx, st, p) && BracketFree(st) && '[' !in id
    requires Path(p, path) && path[0] == ServiceName(id) && path[|path| - 1] == "DIRECT"
    ensures (exists rt | rt in st.routes && rt.enabled && rt.id == id :: RouteLeaks(ctx, st, rt))
         || (id == "default" && DefaultLeaks(ctx, st))
  {
    hide Assembled, Edge, EndsAtDirect;
    ServiceNameShape(id);
    assert |path| > 1;
    var x := EdgeFrom(p, path[0], path[1]);
    var rest, n := path[1..], path[1];
    assert Path(p, rest) && rest[0] == n && rest[|rest| - 1] == "DIRECT";
    GroupOrigin(ctx, st, p, x);
    if FromGroup(ctx, st, x) {
      var g :| g in st.groups && g.id in ctx.groups && x == UserGroup(ctx, g);
      InnerIsNoService(ctx, st, p, x.name, id);
    } else if FromRoute(ctx, st, x) {
      var rt :| rt in st.routes && Live(ctx, rt) && x == ServiceGroup(rt, Resolve(ctx, rt.target).value);
      SameServiceName(rt.id, id);
      TargetEmitted(ctx, st, p, rt.target);
      if Blocking(rt) { HopReaches(ctx, st, p, n, rest); }
      assert RouteLeaks(ctx, st, rt);
    } else {
      DefaultIsBracketFree();
      SameServiceName("default", id);
      DefaultResolves(ctx, st, p);
      TargetEmitted(ctx, st, p, st.settings.defaultPolicy);
      if !st.settings.defaultPolicy.kind.ToDirect? { HopReaches(ctx, st, p, n, rest); }
    }
  }

  lemma DefaultResolves(ctx: Context, st: State, p: Profile)
    requires Assembled(ctx, st, p)
    ensures Resolve(ctx, st.settings.defaultPolicy).Some?
    ensures DefaultGroup(ctx).members == [Resolve(ctx, st.settings.defaultPolicy).value]
  {
  }

  lemma AssembledReachesIff(ctx: Context, st: State, p: Profile, id: string)
    requires Assembled(ctx, st, p) && BracketFree(st) && '[' !in id
    ensures Reaches(p, ServiceName(id), "DIRECT")
        <==> (exists rt | rt in st.routes && rt.enabled && rt.id == id :: RouteLeaks(ctx, st, rt))
             || (id == "default" && DefaultLeaks(ctx, st))
  {
    hide Assembled, RouteLeaks, DefaultLeaks;
    if rt :| rt in st.routes && rt.enabled && rt.id == id && RouteLeaks(ctx, st, rt) {
      RouteLeakReaches(ctx, st, p, rt);
    }
    if id == "default" && DefaultLeaks(ctx, st) { DefaultLeakReaches(ctx, st, p); }
    if Reaches(p, ServiceName(id), "DIRECT") {
      var path :| Path(p, path) && path[0] == ServiceName(id) && path[|path| - 1] == "DIRECT";
      ServicePathLeaks(ctx, st, p, id, path);
    }
  }

  /** Exactly when DIRECT is reachable from a service group: some enabled route of that ID asks for
      it, or groups printed under its target's name or under REJECT lead to one printed as DIRECT;
      a route may share the ID "default" with the default policy. */
  lemma ReachesDirectIff(lib: Library, st: State, id: string)
    requires Compiled(lib, st).Ok? && BracketFree(st) && '[' !in id
    ensures Reaches(Compiled(lib, st).value, ServiceName(id), "DIRECT")
        <==> (exists rt | rt in st.routes && rt.enabled && rt.id == id :: RouteLeaks(ContextOf(lib, st), st, rt))
             || (id == "default" && DefaultLeaks(ContextOf(lib, st), st))
  {
    hide Compiled, Assembled, Reaches, RouteLeaks, DefaultLeaks;
    SuccessAssembles(lib, st);
    AssembledReachesIff(ContextOf(lib, st), st, Compiled(lib, st).value, id);
  }

  /** A route to a group printed as DIRECT reaches that name whatever its policy says. */
  lemma GroupNamedDirectLeaks(lib: Library, st: State, rt: Route)
    requires Compiled(lib, st).Ok? && rt in st.routes && rt.enabled
    requires rt.target.kind.ToGroup? && rt.target.id in ContextOf(lib, st).groups
    requires ContextOf(lib, st).groups[rt.target.id] == "DIRECT"
    ensures Reaches(Compiled(lib, st).value, ServiceName(rt.id), "DIRECT")
  {
    SuccessAssembles(lib, st);
    AssembledLeaks(ContextOf(lib, st), st, Compiled(lib, st).value, rt);
  }

  lemma AssembledLeaks(ctx: Context, st: State, p: Profile, rt: Route)
    requires Assembled(ctx, st, p) && rt in st.routes && rt.enabled
    requires Resolve(ctx, rt.target) == Some("DIRECT")
    ensures Reaches(p, ServiceName(rt.id), "DIRECT")
  {
    hide Assembled, Reaches, Edge;
    ServiceEmitted(ctx, st, p, rt);
    MemberEdge(p, ServiceGroup(rt, "DIRECT"), "DIRECT");
    ReachesSelf(p, "DIRECT");
    ReachesOn(p, ServiceName(rt.id), "DIRECT", "DIRECT");
  }

  // ---------------------------------------------------------------- without a group named DIRECT

  ghost predicate NoGroupNamedDirect(st: State) {
    forall g | g in st.groups :: g.name != "DIRECT"
  }

  lemma NothingEndsAtDirect(ctx: Context, st: State, p: Profile, n: string)
    requires Assembled(ctx, st, p) && NoGroupNamedDirect(st)
    ensures !EndsAtDirect(ctx, st, n)
  {
    hide Assembled, HandsOn;
    if gs :| GroupChain(ctx, st, gs) && Printed(ctx, gs[0]) == n && Printed(ctx, gs[|gs| - 1]) == "DIRECT" {
      var g := gs[|gs| - 1];
      assert IsUserGroup(ctx, st, "DIRECT") by { assert g in st.groups && g.id in ctx.groups; }
      UserGroupShapes(ctx, st, p, "DIRECT");
    }
  }

  /** Traffic of service group rt:id can leave through DIRECT exactly when an enabled route of that ID
      asks for it, or the ID is "default" and the default policy does. */
  lemma FailClosedIff(lib: Library, st: State, id: string)
    requires Compiled(lib, st).Ok? && BracketFree(st) && '[' !in id && NoGroupNamedDirect(st)
    ensures Reaches(Compiled(lib, st).value, ServiceName(id), "DIRECT")
        <==> (exists rt | rt in st.routes && rt.enabled && rt.id == id :: !Blocking(rt))
             || (id == "default" && st.settings.defaultPolicy.kind.ToDirect?)
  {
    var ctx := ContextOf(lib, st);
    hide Compiled, Assembled, Reaches, EndsAtDirect, ContextOf;
    SuccessAssembles(lib, st);
    ReachesDirectIff(lib, st, id);
    forall n ensures !EndsAtDirect(ctx, st, n) { NothingEndsAtDirect(ctx, st, Compiled(lib, st).value, n); }
  }

  /** With IDs as the application mints them, the route alone decides. */
  lemma OwnPolicyDecides(lib: Library, st: State, rt: Route)
    requires Compiled(lib, st).Ok? && BracketFree(st) && NoGroupNamedDirect(st)
    requires rt in st.routes && rt.enabled && rt.id != "default"
    requires forall other | other in st.routes && other.enabled && other.id == rt.id :: other == rt
    ensures Reaches(Compiled(lib, st).value, ServiceName(rt.id), "DIRECT")
        <==> rt.onUnavailable == "direct" || rt.target.kind.ToDirect?
  {
    hide Compiled, Reaches;
    FailClosedIff(lib, st, rt.id);
  }
}
