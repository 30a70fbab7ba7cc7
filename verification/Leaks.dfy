/** Which routes leak when a group is named DIRECT, told on the state alone: by following group IDs.
    Profiles with two things of one name, which the router refuses, are left to FailClosed. */
module Leaks {
  import opened Prelude
  import opened Model
  import opened Names
  import opened Generator
  import opened WellFormedness
  import opened Closure
  import opened FailClosed
  import opened Distinctness

  // ---------------------------------------------------------------- following group IDs

  /** Group a lists b, and b is a group there; a usable server of the same ID would come first. */
  ghost predicate GroupEdge(st: State, a: string, b: string) {
    exists g | g in st.groups :: g.id == a && b in g.members && !UsableServer(st, b) && HasGroup(st, b)
  }

  ghost predicate IdPath(st: State, path: seq<string>) {
    |path| > 0 && forall i | 0 <= i < |path| - 1 :: GroupEdge(st, path[i], path[i + 1])
  }

  /** Later groups of the name are printed with a suffix. */
  ghost predicate FirstNamed(st: State, i: int, name: string) {
    0 <= i < |st.groups| && st.groups[i].name == name && forall j | 0 <= j < i :: st.groups[j].name != name
  }

  ghost predicate LeadsToDirect(st: State, gid: string) {
    exists path, i | IdPath(st, path) && FirstNamed(st, i, "DIRECT") ::
      path[0] == gid && path[|path| - 1] == st.groups[i].id
  }

  /** A group named REJECT takes the place of the pseudo-proxy. */
  ghost predicate RejectLeads(st: State) {
    exists i | FirstNamed(st, i, "REJECT") :: LeadsToDirect(st, st.groups[i].id)
  }

  ghost predicate RouteLeads(st: State, rt: Route) {
    !Blocking(rt) || RejectLeads(st) || (rt.target.kind.ToGroup? && LeadsToDirect(st, rt.target.id))
  }

  ghost predicate DefaultLeads(st: State) {
    var dp := st.settings.defaultPolicy;
    dp.kind.ToDirect? || (dp.kind.ToReject? && RejectLeads(st)) || (dp.kind.ToGroup? && LeadsToDirect(st, dp.id))
  }

  // ---------------------------------------------------------------- names identify groups

  ghost predicate DistinctUsers(ctx: Context, st: State, p: Profile)
    requires GroupsNamed(ctx, st.groups)
  {
    UniqueGroupIds(st) && Distinct(ProxyNames(p.proxies) + PrintedGroupNames(UserGroups(ctx, st.groups)))
  }

  ghost predicate Setting(ctx: Context, st: State, p: Profile) {
    Assembled(ctx, st, p) && DistinctUsers(ctx, st, p)
  }

  lemma GroupNamedAt(ctx: Context, st: State, p: Profile, i: nat)
    requires Assembled(ctx, st, p) && i < |st.groups|
    ensures var names := ProxyNames(p.proxies) + PrintedGroupNames(UserGroups(ctx, st.groups));
      |p.proxies| + i < |names| && names[|p.proxies| + i] == Printed(ctx, st.groups[i])
  {
    UserGroupsAre(ctx, st.groups);
    assert st.groups[i] in st.groups;
  }

  lemma SamePlace<T>(s: seq<T>, i: nat, j: nat)
    requires Distinct(s) && i < |s| && j < |s|
    ensures s[i] == s[j] ==> i == j
  {
  }

  lemma SameNameSameGroup(ctx: Context, st: State, p: Profile, i: nat, j: nat)
    requires Setting(ctx, st, p) && i < |st.groups| && j < |st.groups|
    requires Printed(ctx, st.groups[i]) == Printed(ctx, st.groups[j])
    ensures i == j
  {
    assert GroupsNamed(ctx, st.groups);
    hide Assembled, Printed, ProxyNames, PrintedGroupNames, UserGroups, GroupsNamed;
    GroupNamedAt(ctx, st, p, i);
    GroupNamedAt(ctx, st, p, j);
    SamePlace(ProxyNames(p.proxies) + PrintedGroupNames(UserGroups(ctx, st.groups)), |p.proxies| + i, |p.proxies| + j);
  }

  lemma NoProxyNamed(ctx: Context, st: State, p: Profile, i: nat)
    requires Setting(ctx, st, p) && i < |st.groups|
    ensures !IsProxy(p, Printed(ctx, st.groups[i]))
  {
    assert GroupsNamed(ctx, st.groups);
    hide Assembled, Printed, GroupsNamed, UserGroups;
    GroupNamedAt(ctx, st, p, i);
    var names := ProxyNames(p.proxies) + PrintedGroupNames(UserGroups(ctx, st.groups));
    forall k | 0 <= k < |p.proxies| ensures p.proxies[k].name != Printed(ctx, st.groups[i]) {
      assert names[k] == p.proxies[k].name;
      SamePlace(names, k, |p.proxies| + i);
    }
  }

  /** A plain name is printed for the first group that has it. */
  lemma PlainlyPrintedIff(ctx: Context, st: State, p: Profile, i: nat, name: string)
    requires Setting(ctx, st, p) && i < |st.groups|
    requires '#' !in name && !Bracketed(name)
    ensures Printed(ctx, st.groups[i]) == name <==> FirstNamed(st, i, name)
  {
    var issued := ServerDisplays(ActiveSources(st.sources), st.servers);
    assert st.groups[i] in st.groups && LastGroupAt(st.groups, st.groups[i].id, i);
    GroupNameAt(issued, st.groups, st.groups[i].id, i);
    ServerNamesBracketed(ActiveSources(st.sources), st.servers);
    hide Assembled, DistinctUsers, ServerDisplays, GroupDisplays, GroupNames;
    GroupDisplaysAt(st.groups[..i]);
    PlainSuffix(issued, GroupDisplays(st.groups[..i]), st.groups[i].name, name);
    assert name in GroupDisplays(st.groups[..i]) <==> exists j | 0 <= j < i :: st.groups[j].name == name by {
      DisplayedIff(st, i, name);
    }
  }

  lemma DisplayedIff(st: State, i: nat, name: string)
    requires i < |st.groups|
    ensures name in GroupDisplays(st.groups[..i]) <==> exists j | 0 <= j < i :: st.groups[j].name == name
  {
    var ds := GroupDisplays(st.groups[..i]);
    hide GroupDisplays;
    GroupDisplaysAt(st.groups[..i]);
    forall j | 0 <= j < i ensures ds[j] == st.groups[j].name { }
    if j :| 0 <= j < i && st.groups[j].name == name { assert ds[j] == name; }
  }

  lemma PlainSuffix(issued: seq<string>, earlier: seq<string>, d: string, name: string)
    requires '#' !in name && name !in issued
    ensures UniqueOf(issued + earlier, d) == name <==> d == name && name !in earlier
  {
    hide UniqueOf;
    UniqueOfKeeps(issued + earlier, d);
    assert name in issued + earlier <==> name in earlier;
    if d == name && name !in earlier {
      assert UniqueOf(issued + earlier, d) == d;
    }
    if UniqueOf(issued + earlier, d) == name && d == name && name in earlier { RepeatedSuffix(issued + earlier, d); }
  }

  lemma RepeatedSuffix(earlier: seq<string>, d: string)
    requires d in earlier
    ensures UniqueOf(earlier, d) != d
  {
    assert multiset(earlier)[d] > 0;
    assert |UniqueOf(earlier, d)| > |d|;
  }

  // ---------------------------------------------------------------- chains of groups are paths of IDs

  lemma KnownGroup(ctx: Context, st: State, p: Profile, gid: string) returns (i: nat)
    requires Assembled(ctx, st, p) && gid in ctx.groups
    ensures i < |st.groups| && st.groups[i].id == gid
  {
    var g :| g in st.groups && g.id == gid;
    i :| 0 <= i < |st.groups| && st.groups[i] == g;
  }

  lemma UsableIffServer(ctx: Context, st: State, p: Profile, id: string)
    requires Assembled(ctx, st, p)
    ensures id in ctx.servers <==> UsableServer(st, id)
    ensures id in ctx.groups <==> HasGroup(st, id)
  {
    UsableServerIff(st, id);
    GroupNamesKeys(ServerDisplays(ActiveSources(st.sources), st.servers), st.groups);
  }

  lemma ServerNameIsProxy(ctx: Context, st: State, p: Profile, id: string)
    requires Assembled(ctx, st, p) && id in ctx.servers
    ensures IsProxy(p, ctx.servers[id]) && ctx.servers[id] != ""
  {
    NamedServerIsProxy(ActiveSources(st.sources), st.servers, id);
    ServerNamesBracketed(ActiveSources(st.sources), st.servers);
  }

  lemma HandsOnGroup(ctx: Context, st: State, p: Profile, i: nat, j: nat)
    requires Setting(ctx, st, p) && i < |st.groups| && j < |st.groups|
    requires HandsOn(ctx, st.groups[i], st.groups[j])
    ensures GroupEdge(st, st.groups[i].id, st.groups[j].id)
  {
    hide Assembled, DistinctUsers, UsableServer;
    var g := st.groups[i];
    var m :| m in g.members && MemberName(ctx, g.id, m) == Some(Printed(ctx, st.groups[j]));
    UsableIffServer(ctx, st, p, m);
    NoProxyNamed(ctx, st, p, j);
    if m in ctx.servers { ServerNameIsProxy(ctx, st, p, m); }
    var k := KnownGroup(ctx, st, p, m);
    SameNameSameGroup(ctx, st, p, k, j);
    assert g in st.groups;
  }

  lemma GroupIsOne(st: State, g: Group, i: nat)
    requires UniqueGroupIds(st) && g in st.groups && i < |st.groups| && g.id == st.groups[i].id
    ensures g == st.groups[i]
  {
    var j :| 0 <= j < |st.groups| && st.groups[j] == g;
  }

  lemma GroupHandsOn(ctx: Context, st: State, p: Profile, i: nat, j: nat)
    requires Setting(ctx, st, p) && i < |st.groups| && j < |st.groups|
    requires GroupEdge(st, st.groups[i].id, st.groups[j].id)
    ensures HandsOn(ctx, st.groups[i], st.groups[j])
  {
    var b := st.groups[j].id;
    var g :| g in st.groups && g.id == st.groups[i].id && b in g.members && !UsableServer(st, b) && HasGroup(st, b);
    GroupIsOne(st, g, i);
    UsableIffServer(ctx, st, p, b);
    MemberPrinted(ctx, g, b);
  }

  /** Where the groups of a chain stand in the state. */
  function Ids(gs: seq<Group>): (r: seq<string>)
    ensures |r| == |gs| && forall i | 0 <= i < |gs| :: r[i] == gs[i].id
  {
    seq(|gs|, i requires 0 <= i < |gs| => gs[i].id)
  }

  lemma Position(st: State, g: Group) returns (i: nat)
    requires g in st.groups
    ensures i < |st.groups| && st.groups[i] == g
  {
    i :| 0 <= i < |st.groups| && st.groups[i] == g;
  }

  lemma ChainIsPath(ctx: Context, st: State, p: Profile, gs: seq<Group>)
    requires Setting(ctx, st, p) && GroupChain(ctx, st, gs)
    ensures IdPath(st, Ids(gs))
  {
    hide Setting, HandsOn, GroupEdge;
    forall k | 0 <= k < |gs| - 1 ensures GroupEdge(st, Ids(gs)[k], Ids(gs)[k + 1]) {
      var i := Position(st, gs[k]);
      var j := Position(st, gs[k + 1]);
      HandsOnGroup(ctx, st, p, i, j);
    }
  }

  lemma {:induction false} PathIsChain(ctx: Context, st: State, p: Profile, path: seq<string>, i: nat)
    returns (gs: seq<Group>)
    requires Setting(ctx, st, p) && IdPath(st, path) && i < |st.groups| && st.groups[i].id == path[0]
    ensures GroupChain(ctx, st, gs) && Ids(gs) == path && gs[0] == st.groups[i]
  {
    hide Setting, HandsOn, GroupEdge;
    if |path| == 1 {
      gs := [st.groups[i]];
    } else {
      assert GroupEdge(st, path[0], path[1]);
      var j := EdgeTarget(st, path[0], path[1]);
      assert IdPath(st, path[1..]);
      var rest := PathIsChain(ctx, st, p, path[1..], j);
      GroupHandsOn(ctx, st, p, i, j);
      LongerChain(ctx, st, st.groups[i], rest);
      gs := [st.groups[i]] + rest;
      assert Ids(gs) == [path[0]] + Ids(rest);
    }
  }

  lemma EdgeTarget(st: State, a: string, b: string) returns (j: nat)
    requires GroupEdge(st, a, b)
    ensures j < |st.groups| && st.groups[j].id == b
  {
    hide UsableServer;
    var h :| h in st.groups && h.id == b;
    j := Position(st, h);
  }

  lemma PlainNames()
    ensures '#' !in "DIRECT" && !Bracketed("DIRECT") && '#' !in "REJECT" && !Bracketed("REJECT")
  {
    assert forall i | 0 <= i < 6 :: "DIRECT"[i] != '#' && "DIRECT"[i] != '[';
    assert forall i | 0 <= i < 6 :: "REJECT"[i] != '#' && "REJECT"[i] != '[';
  }

  lemma ChainLeads(ctx: Context, st: State, p: Profile, i: nat, gs: seq<Group>)
    requires Setting(ctx, st, p) && i < |st.groups| && GroupChain(ctx, st, gs)
    requires Printed(ctx, gs[0]) == Printed(ctx, st.groups[i]) && Printed(ctx, gs[|gs| - 1]) == "DIRECT"
    ensures LeadsToDirect(st, st.groups[i].id)
  {
    hide Setting, HandsOn, IdPath, Printed, FirstNamed;
    PlainNames();
    var first := Position(st, gs[0]);
    var last := Position(st, gs[|gs| - 1]);
    SameNameSameGroup(ctx, st, p, first, i);
    PlainlyPrintedIff(ctx, st, p, last, "DIRECT");
    ChainIsPath(ctx, st, p, gs);
    PathLeads(st, Ids(gs), last);
  }

  lemma PathLeads(st: State, path: seq<string>, last: nat)
    requires IdPath(st, path) && FirstNamed(st, last, "DIRECT") && path[|path| - 1] == st.groups[last].id
    ensures LeadsToDirect(st, path[0])
  {
  }

  lemma LeadsChain(ctx: Context, st: State, p: Profile, i: nat, path: seq<string>, last: nat)
    requires Setting(ctx, st, p) && i < |st.groups| && IdPath(st, path) && FirstNamed(st, last, "DIRECT")
    requires path[0] == st.groups[i].id && path[|path| - 1] == st.groups[last].id
    ensures EndsAtDirect(ctx, st, Printed(ctx, st.groups[i]))
  {
    hide Setting, HandsOn, IdPath, Printed, GroupEdge;
    PlainNames();
    var gs := PathIsChain(ctx, st, p, path, i);
    PlainlyPrintedIff(ctx, st, p, last, "DIRECT");
    var end := gs[|gs| - 1];
    assert Ids(gs)[|gs| - 1] == end.id;
    SettingUnique(ctx, st, p);
    GroupIsOne(st, end, last);
  }

  lemma EndsIff(ctx: Context, st: State, p: Profile, i: nat)
    requires Setting(ctx, st, p) && i < |st.groups|
    ensures EndsAtDirect(ctx, st, Printed(ctx, st.groups[i])) <==> LeadsToDirect(st, st.groups[i].id)
  {
    hide Setting, HandsOn, GroupEdge, Printed;
    if gs :| GroupChain(ctx, st, gs) && Printed(ctx, gs[0]) == Printed(ctx, st.groups[i])
             && Printed(ctx, gs[|gs| - 1]) == "DIRECT" {
      ChainLeads(ctx, st, p, i, gs);
    }
    if path, last :| IdPath(st, path) && FirstNamed(st, last, "DIRECT")
                     && path[0] == st.groups[i].id && path[|path| - 1] == st.groups[last].id {
      LeadsChain(ctx, st, p, i, path, last);
    }
  }

  lemma SettingUnique(ctx: Context, st: State, p: Profile)
    requires Setting(ctx, st, p)
    ensures UniqueGroupIds(st)
  {
  }

  lemma RejectIff(ctx: Context, st: State, p: Profile)
    requires Setting(ctx, st, p)
    ensures EndsAtDirect(ctx, st, "REJECT") <==> RejectLeads(st)
  {
    hide Setting, LeadsToDirect, Printed, HandsOn;
    PlainNames();
    if EndsAtDirect(ctx, st, "REJECT") {
      var gs :| GroupChain(ctx, st, gs) && Printed(ctx, gs[0]) == "REJECT" && Printed(ctx, gs[|gs| - 1]) == "DIRECT";
      var i := Position(st, gs[0]);
      PlainlyPrintedIff(ctx, st, p, i, "REJECT");
      EndsIff(ctx, st, p, i);
    }
    if i :| FirstNamed(st, i, "REJECT") && LeadsToDirect(st, st.groups[i].id) {
      PlainlyPrintedIff(ctx, st, p, i, "REJECT");
      EndsIff(ctx, st, p, i);
    }
  }

  /** What a resolved target name leads to. */
  lemma TargetEndsIff(ctx: Context, st: State, p: Profile, t: Target)
    requires Setting(ctx, st, p) && Resolve(ctx, t).Some? && !t.kind.ToDirect?
    ensures EndsAtDirect(ctx, st, Resolve(ctx, t).value)
        <==> (t.kind.ToReject? && RejectLeads(st)) || (t.kind.ToGroup? && LeadsToDirect(st, t.id))
  {
    hide LeadsToDirect, RejectLeads, Assembled, DistinctUsers, HandsOn;
    if t.kind.ToReject? {
      RejectIff(ctx, st, p);
    } else if t.kind.ToServer? {
      ServerNameIsProxy(ctx, st, p, t.id);
      if gs :| GroupChain(ctx, st, gs) && Printed(ctx, gs[0]) == Resolve(ctx, t).value
               && Printed(ctx, gs[|gs| - 1]) == "DIRECT" {
        var i := Position(st, gs[0]);
        NoProxyNamed(ctx, st, p, i);
      }
    } else {
      var i := KnownGroup(ctx, st, p, t.id);
      EndsIff(ctx, st, p, i);
    }
  }

  lemma RouteIff(ctx: Context, st: State, p: Profile, rt: Route)
    requires Setting(ctx, st, p) && rt in st.routes && rt.enabled
    ensures RouteLeaks(ctx, st, rt) <==> RouteLeads(st, rt)
  {
    hide Assembled, DistinctUsers, LeadsToDirect, RejectLeads, EndsAtDirect;
    ServiceEmitted(ctx, st, p, rt);
    RejectIff(ctx, st, p);
    if !rt.target.kind.ToDirect? { TargetEndsIff(ctx, st, p, rt.target); }
  }

  lemma DefaultIff(ctx: Context, st: State, p: Profile)
    requires Setting(ctx, st, p)
    ensures DefaultLeaks(ctx, st) <==> DefaultLeads(st)
  {
    hide Assembled, DistinctUsers, LeadsToDirect, RejectLeads, EndsAtDirect;
    DefaultResolves(ctx, st, p);
    if !st.settings.defaultPolicy.kind.ToDirect? { TargetEndsIff(ctx, st, p, st.settings.defaultPolicy); }
  }

  lemma AssembledLeaksIff(ctx: Context, st: State, p: Profile, id: string)
    requires Setting(ctx, st, p) && BracketFree(st) && '[' !in id
    ensures Reaches(p, ServiceName(id), "DIRECT")
        <==> (exists rt | rt in st.routes && rt.enabled && rt.id == id :: RouteLeads(st, rt))
             || (id == "default" && DefaultLeads(st))
  {
    hide Assembled, DistinctUsers, RouteLeads, RouteLeaks, DefaultLeads, DefaultLeaks, Reaches;
    AssembledReachesIff(ctx, st, p, id);
    forall rt | rt in st.routes && rt.enabled ensures RouteLeaks(ctx, st, rt) <==> RouteLeads(st, rt) {
      RouteIff(ctx, st, p, rt);
    }
    DefaultIff(ctx, st, p);
  }

  /** Exactly which service groups can end at DIRECT, told on the state: those of enabled routes that
      ask for it, and those from whose target, or from a group named REJECT, group IDs lead to the
      first group named DIRECT. */
  lemma LeaksIff(lib: Library, st: State, id: string)
    requires Compiled(lib, st).Ok? && BracketFree(st) && '[' !in id
    requires UniqueGroupIds(st) && !Clash(Displays(st))
    ensures Reaches(Compiled(lib, st).value, ServiceName(id), "DIRECT")
        <==> (exists rt | rt in st.routes && rt.enabled && rt.id == id :: RouteLeads(st, rt))
             || (id == "default" && DefaultLeads(st))
  {
    hide Compiled, Reaches, Clash, Displays, RouteLeads, DefaultLeads;
    SuccessAssembles(lib, st);
    SettingHolds(ContextOf(lib, st), st, Compiled(lib, st).value);
    AssembledLeaksIff(ContextOf(lib, st), st, Compiled(lib, st).value, id);
  }

  lemma SettingHolds(ctx: Context, st: State, p: Profile)
    requires Assembled(ctx, st, p) && UniqueGroupIds(st) && !Clash(Displays(st))
    ensures Setting(ctx, st, p)
  {
    hide Clash, Displays, UserGroups, ProxyNames, PrintedGroupNames;
    UserPartIff(ctx, st, p);
  }
}
