/** Concrete inputs at which the program falls short of what one would expect of it. */
module Witnesses {
  import opened Prelude
  import opened Text
  import opened Model
  import opened Names
  import opened Generator
  import opened WellFormedness
  import opened RuleLine
  import opened Merge
  import opened MergeIds
  import opened FailClosed
  import opened Distinctness
  import opened Ids
  import opened Api
  import opened ApiSafety
  import opened ApiProfile
  import opened ApiRoutes
  import Build
  import Closure
  import Import
  import Meaning
  import OwnProfile
  import ApiCompiles
  import Apply
  import ApplySafety
  import Limiter
  import PoolHistory

  // ---------------------------------------------------------------- small states

  /** The settings of a fresh installation. */
  function Defaults(): Settings {
    Settings(0, Target(ToDirect, ""), "runetfreedom", "runetfreedom", "", "", map[], [])
  }

  function Home(): Source {
    Source("sub_1", Manual, "Home", "", true, 0, Never, 0, Never, false, None)
  }

  function One(): Server {
    Server("srv_1", "sub_1", "one", "ss", map["server" := Str("one.example")], 0, false, 0)
  }

  function Via(id: string, target: Target, onUnavailable: string): Route {
    Route(id, "all", true, 10, [Condition(Domain, "example.org", "")], target, onUnavailable, [])
  }

  /** One source, one server, at most one group over it. */
  function Small(settings: Settings, groups: seq<Group>, routes: seq<Route>): State {
    State(settings, [Home()], [One()], groups, routes)
  }

  lemma OneIsUsable(settings: Settings, groups: seq<Group>, routes: seq<Route>)
    ensures UsableServer(Small(settings, groups, routes), "srv_1")
  {
    var st := Small(settings, groups, routes);
    assert Home() in st.sources && One() in st.servers;
    assert ActiveServer(st, One());
  }

  lemma PlainCondition(lib: Library, settings: Settings)
    ensures GoodCondition(lib, settings, Condition(Domain, "example.org", ""))
  {
    var v := "example.org";
    assert forall i | 0 <= i < |v| :: v[i] !in ",:\n\r";
  }

  lemma NoProviders(routes: seq<Route>)
    requires forall rt | rt in routes :: rt.providers == []
    ensures ProviderUses(routes) == multiset{}
  {
    if |routes| > 0 {
      assert routes == routes[..|routes| - 1] + [routes[|routes| - 1]];
      NoProviders(routes[..|routes| - 1]);
    }
  }

  /** A small state compiles when its groups hold the server and its routes are of the above form. */
  lemma SmallCompiles(lib: Library, settings: Settings, groups: seq<Group>, routes: seq<Route>)
    requires forall g | g in groups ::
      g.kind.Select? && g.members == ["srv_1"] && g.id != "srv_1" && !HasPrefix(g.name, "rt:")
    requires forall rt | rt in routes && rt.enabled ::
      GoodTarget(Small(settings, groups, routes), rt.target) && rt.conditions == [Condition(Domain, "example.org", "")]
    requires forall rt | rt in routes :: rt.providers == []
    requires GoodTarget(Small(settings, groups, routes), settings.defaultPolicy)
    requires GoodGeoSource(settings.geositeSource, settings.geositeCustomUrl)
    requires GoodGeoSource(settings.geoipSource, settings.geoipCustomUrl)
    ensures Compiled(lib, Small(settings, groups, routes)).Ok?
  {
    var st := Small(settings, groups, routes);
    OneIsUsable(settings, groups, routes);
    PlainCondition(lib, settings);
    NoProviders(routes);
    hide Compiled, GoodCondition, GoodTarget, UsableServer;
    forall g | g in st.groups ensures GoodGroup(st, g) { assert UsableAsMember(st, "srv_1"); }
    forall srv | ActiveServer(st, srv) ensures |srv.raw| > 0 { assert srv == One(); assert "server" in srv.raw; }
    assert WellFormed(lib, st);
    CompilesIff(lib, st);
  }

  // ---------------------------------------------------------------- fail-closed routing

  function NamedDirect(): State {
    Small(Defaults(), [Group("grp_1", "DIRECT", Select, ["srv_1"])], [Via("rt_1", Target(ToGroup, "grp_1"), "block")])
  }

  /** A group named DIRECT is accepted, and a blocking route to it reaches DIRECT. */
  lemma BlockingRouteLeaks(lib: Library)
    ensures Compiled(lib, NamedDirect()).Ok?
    ensures Blocking(NamedDirect().routes[0]) && NamedDirect().routes[0].enabled
    ensures Reaches(Compiled(lib, NamedDirect()).value, ServiceName("rt_1"), "DIRECT")
  {
    hide Compiled, Reaches, ContextOf, HasPrefix, UsableServer;
    var st := NamedDirect();
    var rt := st.routes[0];
    assert rt in st.routes;
    DirectIsPlain();
    GroupIsThere(st);
    SmallCompiles(lib, Defaults(), st.groups, st.routes);
    FirstGroupName(lib, st, "DIRECT");
    GroupNamedDirectLeaks(lib, st, rt);
  }

  lemma DirectIsPlain()
    ensures !HasPrefix("DIRECT", "rt:") && !HasPrefix("all", "rt:") && !Bracketed("DIRECT") && "grp_1" != "srv_1"
  {
    assert "DIRECT"[0] != "rt:"[0] && "all"[0] != "rt:"[0] && "grp_1"[0] != "srv_1"[0];
    assert forall i | 0 <= i < 6 :: "DIRECT"[i] != '[';
  }

  lemma GroupIsThere(st: State)
    requires |st.groups| == 1
    ensures HasGroup(st, st.groups[0].id) && ExistsGroup(st, st.groups[0].id)
  {
    assert st.groups[0] in st.groups;
  }

  /** The state also meets what Leaks.LeaksIff asks. */
  lemma LeakingStateIsPlain()
    ensures UniqueGroupIds(NamedDirect()) && BracketFree(NamedDirect()) && !Clash(Displays(NamedDirect()))
  {
    var st := NamedDirect();
    var servers := ServerDisplays(ActiveSources(st.sources), st.servers);
    ServerNamesBracketed(ActiveSources(st.sources), st.servers);
    BracketFreeIds(st, "rt_1");
    DirectIsPlain();
    assert st.servers[..0] == [] && st.groups[..0] == [];
    assert ServerDisplays(ActiveSources(st.sources), []) == [] && GroupDisplays([]) == [];
    assert |servers| <= 1 && GroupDisplays(st.groups) == ["DIRECT"];
    hide ServerDisplays, GroupDisplays;
    var ds := Displays(st);
    assert forall i, j | 0 <= i < j < |ds| :: ds[i] != ds[j];
    forall x ensures multiset(ds)[x] <= 1 { CountDistinct(ds, x); }
  }

  /** The first group is printed under its own name, if no server shows under it. */
  lemma FirstGroupName(lib: Library, st: State, name: string)
    requires |st.groups| == 1 && st.groups[0].name == name && !Bracketed(name)
    ensures st.groups[0].id in ContextOf(lib, st).groups && ContextOf(lib, st).groups[st.groups[0].id] == name
  {
    var issued := ServerDisplays(ActiveSources(st.sources), st.servers);
    ServerNamesBracketed(ActiveSources(st.sources), st.servers);
    GroupNameAt(issued, st.groups, st.groups[0].id, 0);
    assert st.groups[..0] == [];
    hide ServerDisplays;
    assert name !in issued;
    assert issued + GroupDisplays(st.groups[..0]) == issued;
    assert multiset(issued)[name] == 0;
  }

  function SharedId(): State {
    Small(Defaults(), [],
          [Via("rt_1", Target(ToServer, "srv_1"), "block"), Via("rt_1", Target(ToServer, "srv_1"), "direct")])
  }

  /** An imported document may carry a route ID twice; the blocking route then leaks through the other. */
  lemma SharedRouteIdLeaks(lib: Library, known: Option<set<string>>, st: State)
    ensures ReplaceStep(lib, known, st, SharedId()) == (SharedId(), Done) && !PlainRoutes(SharedId())
    ensures Compiled(lib, SharedId()).Ok? && Blocking(SharedId().routes[0]) && SharedId().routes[0].id == "rt_1"
    ensures Reaches(Compiled(lib, SharedId()).value, ServiceName("rt_1"), "DIRECT")
  {
    hide Compiled, Reaches, ReplaceStep, UsableServer, ServiceName, PlainId;
    var doc := SharedId();
    OneIsUsable(Defaults(), [], doc.routes);
    SmallCompiles(lib, Defaults(), [], doc.routes);
    SmallIsImported(lib, known, st, doc);
    BracketFreeIds(doc, "rt_1");
    assert doc.routes[1] in doc.routes && doc.routes[1].enabled && !Blocking(doc.routes[1]);
    assert doc.routes[0].id == doc.routes[1].id;
    FailClosedIff(lib, doc, "rt_1");
  }

  lemma BracketFreeIds(st: State, id: string)
    requires id == "rt_1" || id == "default"
    requires forall rt | rt in st.routes :: rt.id == id
    ensures BracketFree(st) && '[' !in id
  {
    assert forall i | 0 <= i < |"rt_1"| :: "rt_1"[i] != '[';
    assert forall i | 0 <= i < |"default"| :: "default"[i] != '[';
  }

  lemma SmallIsImported(lib: Library, known: Option<set<string>>, st: State, doc: State)
    requires Compiled(lib, doc).Ok? && forall rt | rt in doc.routes :: rt.providers == []
    ensures ReplaceStep(lib, known, st, doc) == (doc, Done)
  {
    hide Compiled, Build.Checked;
    NoProviders(doc.routes);
    CompilesIff(lib, doc);
    GeneratesIff(lib, doc, known);
  }

  function NamedDefault(): State {
    Small(Defaults(), [], [Via("default", Target(ToServer, "srv_1"), "block")])
  }

  /** A route with the ID "default" shares its service group's name with the default policy. */
  lemma DefaultIdLeaks(lib: Library, known: Option<set<string>>, st: State)
    ensures ReplaceStep(lib, known, st, NamedDefault()) == (NamedDefault(), Done)
    ensures Compiled(lib, NamedDefault()).Ok? && Blocking(NamedDefault().routes[0])
    ensures Reaches(Compiled(lib, NamedDefault()).value, ServiceName(NamedDefault().routes[0].id), "DIRECT")
  {
    hide Compiled, Reaches, ReplaceStep, UsableServer, ServiceName;
    var doc := NamedDefault();
    OneIsUsable(Defaults(), [], doc.routes);
    SmallCompiles(lib, Defaults(), [], doc.routes);
    SmallIsImported(lib, known, st, doc);
    BracketFreeIds(doc, "default");
    FailClosedIff(lib, doc, "default");
  }

  // ---------------------------------------------------------------- rule lines

  /** The routes API accepts a keyword with a leading space; its own line is read back without it. */
  lemma OuterSpaceIsLost(lib: Library)
    ensures var c := Condition(DomainKeyword, " x", "");
      && Accepted(lib, c)
      && var parsed := ParseRuleLine(Render(Rule(R_DOMAIN_KEYWORD, " x", ServiceName("rt_1"))));
         parsed.Some? && ConditionFromRule(lib, parsed.value, DomainKeyword) != Ok(c)
  {
    var c := Condition(DomainKeyword, " x", "");
    assert forall i | 0 <= i < 2 :: c.value[i] !in ",:\n\r";
    assert forall i | 0 <= i < |"rt_1"| :: "rt_1"[i] != ',' && !IsSpace("rt_1"[i]);
    hide ParseRuleLine, Render, ConditionFromRule;
    PrintParseIff(lib, c, "rt_1");
  }

  function CommaId(): State {
    Small(Defaults(), [], [Via("a,b", Target(ToServer, "srv_1"), "block")])
  }

  function CommaLine(): Rule {
    Rule(R_DOMAIN, "example.org", ServiceName("a,b"))
  }

  /** An imported document may carry a comma in a route ID; the route's line splits into four. */
  lemma CommaIdSplitsWrong(lib: Library, known: Option<set<string>>, st: State)
    ensures ReplaceStep(lib, known, st, CommaId()) == (CommaId(), Done) && Compiled(lib, CommaId()).Ok?
    ensures CommaLine() in Compiled(lib, CommaId()).value.rules
    ensures SplitCommas(Render(CommaLine())) == ["DOMAIN", "example.org", "rt:a", "b"] != Segments(CommaLine())
  {
    hide Compiled, ReplaceStep, UsableServer;
    var doc := CommaId();
    OneIsUsable(Defaults(), [], doc.routes);
    SmallCompiles(lib, Defaults(), [], doc.routes);
    SmallIsImported(lib, known, st, doc);
    hide Render, SplitCommas;
    ViaHasLine(lib, doc, doc.routes[0]);
    CommaLineSplits();
  }

  lemma CommaLineSplits()
    ensures SplitCommas(Render(CommaLine())) == ["DOMAIN", "example.org", "rt:a", "b"] != Segments(CommaLine())
  {
    hide SplitCommas, Render;
    assert ServiceName("a,b") == "rt:a" + "," + "b";
    assert forall i | 0 <= i < |"example.org"| :: "example.org"[i] != ',';
    assert forall i | 0 <= i < |"rt:a"| :: "rt:a"[i] != ',';
    RenderPieces(CommaLine());
    SplitAtComma("rt:a", "b");
    SplitNoComma("b");
  }

  lemma ViaLine(lib: Library, st: State, rt: Route)
    requires rt.conditions == [Condition(Domain, "example.org", "")]
    ensures Meaning.LineOfRoute(ContextOf(lib, st), rt, Rule(R_DOMAIN, "example.org", ServiceName(rt.id)))
  {
    PlainCondition(lib, st.settings);
    hide ContextOf, Meaning.AdditionsOf;
    assert rt.conditions[0] in rt.conditions;
    var r := Rule(R_DOMAIN, "example.org", ServiceName(rt.id));
    assert Meaning.LineOf(ContextOf(lib, st), rt.id, rt.conditions[0], r);
  }

  lemma ViaHasLine(lib: Library, st: State, rt: Route)
    requires Compiled(lib, st).Ok? && rt in st.routes && rt.enabled
    requires rt.conditions == [Condition(Domain, "example.org", "")]
    ensures Rule(R_DOMAIN, "example.org", ServiceName(rt.id)) in Compiled(lib, st).value.rules
  {
    hide Compiled, ContextOf, Meaning.LineOfRoute, Closure.Assembled;
    ViaLine(lib, st, rt);
    Closure.SuccessAssembles(lib, st);
    EmittingRoute(ContextOf(lib, st), st, Compiled(lib, st).value, rt,
                  Rule(R_DOMAIN, "example.org", ServiceName(rt.id)));
  }

  // ---------------------------------------------------------------- importing one's own profile

  function Running(): State {
    Small(Defaults(), [], [Via("rt_1", Target(ToServer, "srv_1"), "block")])
  }

  /** The document after the server is renamed and the route deleted. */
  function Reserved(): State {
    State(Defaults(), [Home()], [One().(name := "rt:rt_1")], [], [])
  }

  /** Renaming a server to the name of a service group is accepted; once the route is gone, importing
      the rules that still run brings its condition back with that server as target. */
  lemma OwnProfileIsImported(lib: Library, hash: IdHash, rules: seq<External>)
    requires OwnProfile.ReadFrom(lib, Running(), rules)
    ensures Run(lib, hash, Running(), [EditServer("srv_1", "rt:rt_1", "", map[]), ApiSafety.DeleteRoute("rt_1")])
         == Reserved()
    ensures Import.ImportRules(lib, Reserved(), rules).imported > 0
  {
    hide Compiled, UsableServer, Run, Step, OwnProfile.Importable;
    var st, a, b := Running(), EditServer("srv_1", "rt:rt_1", "", map[]), ApiSafety.DeleteRoute("rt_1");
    RunTwo(lib, hash, st, a, b);
    RenamedAndDeleted(lib, hash);
    ViaHasLine(lib, st, st.routes[0]);
    LineIsImportable(lib);
    OwnProfile.OwnProfileImportedIff(lib, st, Reserved(), rules);
  }

  /** There are such rules. */
  lemma RunningCompiles(lib: Library)
    ensures Compiled(lib, Running()).Ok?
  {
    hide Compiled, UsableServer;
    OneIsUsable(Defaults(), [], Running().routes);
    SmallCompiles(lib, Defaults(), [], Running().routes);
  }

  lemma RenamedAndDeleted(lib: Library, hash: IdHash)
    ensures var st := Running();
      Step(lib, hash, Step(lib, hash, st, EditServer("srv_1", "rt:rt_1", "", map[])), ApiSafety.DeleteRoute("rt_1"))
      == Reserved()
  {
    hide EditServerStep, CreateServersStep, ReplaceStep, DeleteServerStep, DeleteGroupStep, PatchGroupStep,
      CreateRouteStep, PatchRouteStep, DeleteRouteStep, DeleteSourceStep, ApplyTemplateStep, CreateGroupStep, Merged;
    RenamedToReserved();
    OnlyRouteDeleted();
  }

  lemma RenamedToReserved()
    ensures EditServerStep(Running(), "srv_1", "rt:rt_1", "", map[]).0 == Reserved().(routes := Running().routes)
  {
    var st := Running();
    TrimmedIff("rt:rt_1");
    TrimmedIff("");
    assert TrimSpace("rt:rt_1") == "rt:rt_1" && TrimSpace("") == "";
    assert IndexOfServer(st.servers, "srv_1") == Some(0);
    hide TrimSpace;
    assert EditedRaw(One().raw, "", map[]) == One().raw;
  }

  lemma OnlyRouteDeleted()
    ensures DeleteRouteStep(Reserved().(routes := Running().routes), "rt_1").0 == Reserved()
  {
    assert IndexOfRoute(Running().routes, "rt_1") == Some(0);
  }

  lemma LineIsImportable(lib: Library)
    ensures OwnProfile.Importable(lib, Reserved(), Rule(R_DOMAIN, "example.org", ServiceName("rt_1")))
  {
    hide OwnProfile.LineCondition, OwnProfile.PolicyRead, OwnProfile.NamesTarget;
    LineIsCondition(lib);
    PolicyIsRead();
    NameIsTarget();
    assert Import.KeysOf(Reserved().routes) == {};
  }

  lemma LineIsCondition(lib: Library)
    ensures OwnProfile.LineCondition(lib, Rule(R_DOMAIN, "example.org", ServiceName("rt_1")))
         == Some(Condition(Domain, "example.org", ""))
  {
    var v := "example.org";
    assert forall i | 0 <= i < |v| :: v[i] !in ",:\n\r" && v[i] !in " \t/";
    TrimmedIff(v);
    hide TrimSpace;
  }

  lemma PolicyIsRead()
    ensures OwnProfile.PolicyRead(ServiceName("rt_1")) == Some("rt:rt_1")
  {
    hide SplitCommas, TrimSpace;
    assert ServiceName("rt_1") == "rt:rt_1";
    assert forall i | 0 <= i < |"rt:rt_1"| :: "rt:rt_1"[i] != ',';
    TrimmedIff("rt:rt_1");
    SplitNoComma("rt:rt_1");
  }

  lemma NameIsTarget()
    ensures OwnProfile.NamesTarget(Reserved(), "rt:rt_1")
  {
    var s := Reserved().servers[0];
    assert Import.FirstServerNamed(Reserved().servers, "rt:rt_1") == Some(s);
    assert FirstServer(Reserved().servers, s.id) == Some(s);
  }

  // ---------------------------------------------------------------- links between objects

  function Grouped(settings: Settings): State {
    Small(settings, [Group("grp_1", "all", Select, ["srv_1"])], [])
  }

  lemma GroupedCompiles(lib: Library, settings: Settings)
    requires settings == Defaults() || settings == Defaults().(defaultPolicy := Target(ToGroup, "grp_1"))
    ensures Compiled(lib, Grouped(settings)).Ok?
  {
    hide Compiled, HasPrefix, UsableServer;
    var st := Grouped(settings);
    DirectIsPlain();
    GroupIsThere(st);
    SmallCompiles(lib, settings, st.groups, []);
  }

  lemma GroupedIsTidy(settings: Settings)
    ensures Tidy(Grouped(settings)) && Linked(Grouped(settings))
    ensures IndexOfServer(Grouped(settings).servers, "srv_1") == Some(0)
    ensures IndexOfGroup(Grouped(settings).groups, "grp_1") == Some(0)
  {
    var st := Grouped(settings);
    DirectIsPlain();
    assert st.groups[0].id == "grp_1" && st.servers[0].id == "srv_1";
    assert ExistsServer(st, "srv_1");
    assert !ExistsServer(st, "") && !ExistsGroup(st, "");
  }

  lemma NoSuchMember(settings: Settings)
    ensures !Member(Grouped(settings), "srv_9")
  {
    var st := Grouped(settings);
    assert st.servers[0].id == "srv_1" && "srv_1"[4] != "srv_9"[4];
    assert st.groups[0].id == "grp_1" && "grp_1"[0] != "srv_9"[0];
  }

  /** A group patch is accepted with a member that does not exist. */
  lemma GroupPatchBreaksLinks()
    ensures var st, g := Grouped(Defaults()), GroupIn("all", Select, ["srv_9"]);
      Linked(st) && PatchGroupStep(st, "grp_1", g).1.Done? && !Linked(PatchGroupStep(st, "grp_1", g).0)
  {
    hide Linked, Member, IndexOfGroup, HasPrefix;
    var st, g := Grouped(Defaults()), GroupIn("all", Select, ["srv_9"]);
    DirectIsPlain();
    GroupedIsTidy(Defaults());
    NoSuchMember(Defaults());
    assert "srv_9" in g.members;
    GroupPatchIff(st, "grp_1", g);
  }

  lemma NothingExpendable()
    ensures !Expendable(Grouped(Defaults()), "srv_1")
    ensures !Expendable(Grouped(Defaults().(defaultPolicy := Target(ToGroup, "grp_1"))), "grp_1")
  {
    var st := Grouped(Defaults());
    DirectIsPlain();
    assert st.groups[0] in st.groups && forall m | m in st.groups[0].members :: m == "srv_1";
  }

  /** Deleting the only member of a group is accepted and the profile no longer compiles. */
  lemma ServerDeletionBreaksProfile(lib: Library)
    ensures var st := Grouped(Defaults());
      && Compiled(lib, st).Ok? && DeleteServerStep(st, "srv_1").1.Done?
      && !Compiled(lib, DeleteServerStep(st, "srv_1").0).Ok?
  {
    hide Compiled, Tidy, Expendable, Linked, IndexOfServer, Stripped;
    GroupedCompiles(lib, Defaults());
    GroupedIsTidy(Defaults());
    NothingExpendable();
    ServerDeletionCompilesIff(lib, Grouped(Defaults()), "srv_1");
  }

  /** So is deleting the group the default policy points at. */
  lemma GroupDeletionBreaksProfile(lib: Library)
    ensures var st := Grouped(Defaults().(defaultPolicy := Target(ToGroup, "grp_1")));
      && Compiled(lib, st).Ok? && DeleteGroupStep(st, "grp_1").1.Done?
      && !Compiled(lib, DeleteGroupStep(st, "grp_1").0).Ok?
  {
    hide Compiled, Tidy, Expendable, Linked, IndexOfGroup, Stripped;
    var settings := Defaults().(defaultPolicy := Target(ToGroup, "grp_1"));
    GroupedCompiles(lib, settings);
    GroupedIsTidy(settings);
    NothingExpendable();
    GroupDeletionCompilesIff(lib, Grouped(settings), "grp_1");
  }

  /** A route payload that names one provider twice. */
  function Repeated(): RouteIn {
    RouteIn("all", None, None, None, Some(Target(ToDirect, "")), None, Some(["ads", "ads"]))
  }

  /** It is accepted, and the profile no longer compiles. */
  lemma RepeatedProviderBreaksProfile(lib: Library, known: Option<set<string>>)
    requires known.Some? ==> "ads" in known.value
    ensures var st := Grouped(Defaults());
      && Compiled(lib, st).Ok? && CreateRouteStep(lib, known, st, Repeated()).1.Done?
      && !Compiled(lib, CreateRouteStep(lib, known, st, Repeated()).0).Ok?
  {
    hide Compiled, CreateRouteStep;
    GroupedCompiles(lib, Defaults());
    RepeatedAccepted(lib, known);
    RepeatedFails(lib, CreateRouteStep(lib, known, Grouped(Defaults()), Repeated()).0);
  }

  lemma RepeatedAccepted(lib: Library, known: Option<set<string>>)
    requires known.Some? ==> "ads" in known.value
    ensures var (next, resp) := CreateRouteStep(lib, known, Grouped(Defaults()), Repeated());
      resp.Done? && |next.routes| == 1 && next.routes[0].enabled && next.routes[0].providers == ["ads", "ads"]
  {
    hide NewId;
    assert ProviderAccepted(known, "ads");
  }

  lemma RepeatedFails(lib: Library, st: State)
    requires |st.routes| == 1 && st.routes[0].enabled && st.routes[0].providers == ["ads", "ads"]
    ensures !Compiled(lib, st).Ok?
  {
    hide Compiled, ProviderUses, GoodRoute, GoodGroup, GoodTarget, ActiveServer, GoodGeoSource;
    ApiCompiles.UsesOfOne(st.routes[0]);
    assert st.routes == [st.routes[0]];
    assert ProviderUses(st.routes)["ads"] == 2;
    CompilesIff(lib, st);
  }

  function Pasted(name: string): Raw {
    map["name" := Str(name), "server" := Str(name)]
  }

  lemma PastedKeys(answer: seq<Raw>, name: string, k: MatchKey)
    requires answer == [Pasted(name)] && name != ""
    ensures Usable(Pasted(name)) && KeyOf(Pasted(name)) == MatchKey(name, name, "")
    ensures PoolHistory.Answers(answer, k) <==> k == MatchKey(name, name, "")
  {
    assert Pasted(name) in answer;
  }

  /** A pasted server at its second miss, and a route that uses it. */
  function Aged(hash: IdHash): State {
    var id := ServerId(hash, "sub_1", MatchKey("old", "old", ""));
    State(Defaults(), [Home()], [Server(id, "sub_1", "old", "", Pasted("old"), 0, true, 2)], [],
          [Via("rt_1", Target(ToServer, id), "block")])
  }

  /** Pasting other links is accepted and takes the server from under the route. */
  lemma PastedLinksBreakLinks(hash: IdHash)
    requires hash("sub_1", MatchKey("old", "old", "")) != hash("sub_1", MatchKey("new", "new", ""))
    ensures var st, proxies := Aged(hash), [Pasted("new")];
      && Linked(st) && CreateServersStep(hash, st, proxies).1.Done?
      && !Linked(CreateServersStep(hash, st, proxies).0)
  {
    var st, proxies := Aged(hash), [Pasted("new")];
    var id := st.servers[0].id;
    var aged, brought := MatchKey("old", "old", ""), MatchKey("new", "new", "");
    assert "old"[0] != "new"[0];
    assert ServerId(hash, "sub_1", aged)[4..] == hash("sub_1", aged);
    assert ServerId(hash, "sub_1", brought)[4..] == hash("sub_1", brought);
    PastedKeys(proxies, "new", brought);
    assert Pasted("new") in proxies;
    assert Linked(st) by {
      assert ExistsServer(st, id);
      assert !ExistsServer(st, "") && !ExistsGroup(st, "");
    }
    assert WithManual(st).1 == "sub_1" by { assert st.sources[0].kind.Manual?; }
    assert !Stays(hash, st.servers, "sub_1", proxies, id) by {
      assert StoredKey(st.servers[0]) == aged;
      PastedKeys(proxies, "new", aged);
      forall s | s in st.servers ensures s.id != id || Dropped(s, "sub_1", proxies) { assert s == st.servers[0]; }
      forall k | Brings(st.servers, "sub_1", proxies, k) ensures ServerId(hash, "sub_1", k) != id {
        PastedKeys(proxies, "new", k);
      }
    }
    assert st.routes[0] in st.routes && st.routes[0].target.kind.ToServer? && st.routes[0].target.id == id;
    CreateServersIff(hash, st, proxies);
  }

  /** A pasted server as it was added. */
  function Added(hash: IdHash): State {
    State(Defaults(), [Home()],
          [Server(ServerId(hash, "sub_1", MatchKey("old", "old", "")), "sub_1", "old", "", Pasted("old"), 0, false, 0)],
          [], [])
  }

  /** Renaming a pasted server and pasting its link again gives two servers one ID. */
  lemma RenameThenPasteClashes(lib: Library, hash: IdHash)
    ensures var st := Added(hash);
      var id := st.servers[0].id;
      && Tidy(st)
      && !Tidy(Run(lib, hash, st, [EditServer(id, "renamed", "", map[]), CreateServers([Pasted("old")])]))
  {
    var st := Added(hash);
    var id := st.servers[0].id;
    AddedIsTidy(hash);
    Renamed(hash);
    hide Tidy, EditServerStep, CreateServersStep, Run, ServerId, Step;
    RunTwo(lib, hash, st, EditServer(id, "renamed", "", map[]), CreateServers([Pasted("old")]));
    EditAndPaste(lib, hash, st, id);
    PastedAgain(hash, EditServerStep(st, id, "renamed", "", map[]).0);
  }

  lemma EditAndPaste(lib: Library, hash: IdHash, st: State, id: string)
    ensures Step(lib, hash, st, EditServer(id, "renamed", "", map[])) == EditServerStep(st, id, "renamed", "", map[]).0
    ensures var mid := EditServerStep(st, id, "renamed", "", map[]).0;
      Step(lib, hash, mid, CreateServers([Pasted("old")])) == CreateServersStep(hash, mid, [Pasted("old")]).0
  {
    hide EditServerStep, CreateServersStep, ReplaceStep, DeleteServerStep, DeleteGroupStep, PatchGroupStep,
      CreateRouteStep, PatchRouteStep, DeleteRouteStep, DeleteSourceStep, ApplyTemplateStep, CreateGroupStep, Merged;
  }

  lemma AddedIsTidy(hash: IdHash)
    ensures Tidy(Added(hash))
  {
    assert !ExistsServer(Added(hash), "") && !ExistsGroup(Added(hash), "");
  }

  lemma RunTwo(lib: Library, hash: IdHash, st: State, a: ApiSafety.Command, b: ApiSafety.Command)
    ensures Run(lib, hash, st, [a, b]) == Step(lib, hash, Step(lib, hash, st, a), b)
  {
    hide Step;
    assert [a] + [b] == [a, b] && [] + [a] == [a];
    RunLast(lib, hash, st, [], a);
    RunLast(lib, hash, st, [a], b);
  }

  lemma Renamed(hash: IdHash)
    ensures var st := Added(hash);
      var mid := EditServerStep(st, st.servers[0].id, "renamed", "", map[]).0;
      && mid.(servers := st.servers) == st && |mid.servers| == 1
      && mid.servers[0] == st.servers[0].(name := "renamed")
  {
    var st := Added(hash);
    var id := st.servers[0].id;
    TrimmedIff("renamed");
    TrimmedIff("");
    assert TrimSpace("renamed") == "renamed" && TrimSpace("") == "";
    assert IndexOfServer(st.servers, id) == Some(0);
    hide TrimSpace;
    assert EditedRaw(st.servers[0].raw, "", map[]) == st.servers[0].raw;
  }

  lemma PastedAgain(hash: IdHash, st: State)
    requires st.(servers := Added(hash).servers) == Added(hash) && |st.servers| == 1
    requires st.servers[0] == Added(hash).servers[0].(name := "renamed")
    ensures CreateServersStep(hash, st, [Pasted("old")]).1.Done?
    ensures !Tidy(CreateServersStep(hash, st, [Pasted("old")]).0)
  {
    var proxies, k := [Pasted("old")], MatchKey("old", "old", "");
    PastedKeys(proxies, "old", k);
    assert Pasted("old") in proxies;
    assert st.sources == [Home()] && WithManual(st).1 == "sub_1" by { assert st.sources[0].kind.Manual?; }
    assert StoredKey(st.servers[0]).name == "renamed" && "renamed"[0] != "old"[0];
    assert Brings(st.servers, "sub_1", proxies, k);
    assert st.servers[0] in st.servers && st.servers[0].id == ServerId(hash, "sub_1", k);
    assert !Dropped(st.servers[0], "sub_1", proxies);
    assert !MergeTidy(hash, st, "sub_1", proxies);
    assert Tidy(st) by { assert !ExistsServer(st, "") && !ExistsGroup(st, ""); }
    hide Tidy, MergeTidy;
    CreateServersTidyIff(hash, st, proxies);
  }

  function Dangling(): State {
    Small(Defaults(), [], [Via("rt_1", Target(ToServer, "srv_9"), "block").(enabled := false)])
  }

  /** A document whose switched-off route points at nothing is imported. */
  lemma ImportBreaksLinks(lib: Library, known: Option<set<string>>, st: State)
    ensures ReplaceStep(lib, known, st, Dangling()) == (Dangling(), Done) && !Linked(Dangling())
  {
    hide Compiled, ReplaceStep, UsableServer;
    var doc := Dangling();
    SmallCompiles(lib, Defaults(), [], doc.routes);
    SmallIsImported(lib, known, st, doc);
    assert doc.routes[0] in doc.routes && !Resolves(doc, doc.routes[0].target) by {
      assert doc.servers[0].id == "srv_1" && "srv_1"[4] != "srv_9"[4];
    }
  }

  // ---------------------------------------------------------------- apply and rollback

  function AllWorks(): Apply.Restart {
    Apply.Restart(true, true, true)
  }

  function Good(name: string): Apply.ApplyInput {
    Apply.ApplyInput(Some(Grouped(Defaults())), name, true, true, AllWorks(), true, AllWorks(), true, true, true, 0)
  }

  lemma Reached(lib: Library, a: Apply.ApplyInput)
    requires a.state == Some(Grouped(Defaults())) && a.writes && a.accepted && ApplySafety.Succeeds(a.restart)
    ensures ApplySafety.ReachesHealth(lib, None, a)
  {
    GroupedCompiles(lib, Defaults());
    CompilesIff(lib, Grouped(Defaults()));
  }

  /** A restart that fails after the commit stops at "activate" with the new profile selected. */
  lemma ActivateLeavesNewProfile(lib: Library, hash: Apply.StateHash, w: Apply.World)
    ensures var a := Good("new").(restart := Apply.Restart(true, true, false));
      var (w', out) := Apply.ApplyStep(lib, None, hash, w, a);
      && out.stage.AtActivate? && w'.selected == Some(Apply.Sanitize("new")) && w'.running == None
      && w'.lastGood == w.lastGood
  {
    var a := Good("new").(restart := Apply.Restart(true, true, false));
    GroupedCompiles(lib, Defaults());
    assert Build.Checked(Compiled(lib, Grouped(Defaults())), None) == Compiled(lib, Grouped(Defaults()));
    hide Compiled, Build.Checked, Apply.Sanitize;
  }

  function Start(): Apply.World {
    ApplySafety.Boot(map[], None, false, [])
  }

  function StepBack(): Apply.RollbackInput {
    Apply.RollbackInput(1, AllWorks(), true, true, true, true, 0)
  }

  lemma Plain()
    ensures Apply.Sanitize("a") == "a" && Apply.Sanitize("b") == "b" && Apply.Sanitize("c") == "c"
  {
  }

  /** A successful apply, as far as the later steps look at it. */
  lemma Applied(lib: Library, hash: Apply.StateHash, w: Apply.World, name: string)
    requires Apply.Sanitize(name) == name
    ensures var w' := Apply.ApplyStep(lib, None, hash, w, Good(name)).0;
      && w'.lastGood == Some(name) && name in w'.files && (forall n | n in w.files :: n in w'.files)
      && w'.history == Apply.Trim(w.history + [Apply.Record(name, hash(Grouped(Defaults())), 0)])
  {
    var a := Good(name);
    Reached(lib, a);
    GroupedCompiles(lib, Defaults());
    var st := Grouped(Defaults());
    assert Build.Checked(Compiled(lib, st), None) == Compiled(lib, st);
    hide Compiled, Build.Checked, Apply.Sanitize, Apply.Trim, ApplySafety.Generates;
    ApplySafety.ApplySucceedsIff(lib, None, hash, w, a);
  }

  lemma RolledBack(w: Apply.World, first: Apply.Record, second: Apply.Record)
    requires w.history == [first, second] && Apply.Sanitize(first.profile) in w.files
    ensures var (w', back) := Apply.RollbackStep(w, StepBack());
      && back.Restored? && back.rec.profile == first.profile && w'.files == w.files
      && w'.selected == Some(Apply.Sanitize(first.profile))
  {
    hide Apply.Sanitize, Apply.Trim;
  }

  /** The world after two successful applies. */
  function Twice(lib: Library, hash: Apply.StateHash): Apply.World {
    Apply.ApplyStep(lib, None, hash, Apply.ApplyStep(lib, None, hash, Start(), Good("a")).0, Good("b")).0
  }

  lemma TwiceIs(lib: Library, hash: Apply.StateHash)
    ensures var w, h := Twice(lib, hash), hash(Grouped(Defaults()));
      && w.lastGood == Some("b") && "a" in w.files && "b" in w.files
      && w.history == [Apply.Record("a", h, 0), Apply.Record("b", h, 0)]
  {
    StartIs();
    hide Apply.ApplyStep, Apply.Sanitize, Apply.Trim, Start, Good, Grouped;
    Plain();
    Applied(lib, hash, Start(), "a");
    Applied(lib, hash, Apply.ApplyStep(lib, None, hash, Start(), Good("a")).0, "b");
    var a, b := Apply.Record("a", hash(Grouped(Defaults())), 0), Apply.Record("b", hash(Grouped(Defaults())), 0);
    assert [] + [a] == [a] && [a] + [b] == [a, b];
    TrimShort([a]);
    TrimShort([a, b]);
  }

  lemma StartIs()
    ensures Start().history == []
  {
  }

  lemma TrimShort(recs: seq<Apply.Record>)
    requires |recs| <= 5
    ensures Apply.Trim(recs) == recs
  {
  }

  lemma FailsBackTo(lib: Library, hash: Apply.StateHash, w: Apply.World)
    requires w.lastGood == Some("b") && "b" in w.files
    ensures var (w', out) := Apply.ApplyStep(lib, None, hash, w, Good("c").(healthy := false));
      out.rolledBack == Some("b") && w'.selected == w'.running == Some("b")
  {
    hide Apply.ApplyStep, Apply.Sanitize, ApplySafety.ReachesHealth;
    Plain();
    Reached(lib, Good("c").(healthy := false));
    ApplySafety.RollsBackIff(lib, None, hash, w, Good("c").(healthy := false));
  }

  /** Apply A, apply B, roll back to A, then an apply that fails: the router ends up on B. */
  lemma FailureForgetsRollback(lib: Library, hash: Apply.StateHash)
    ensures var (w3, back) := Apply.RollbackStep(Twice(lib, hash), StepBack());
      && back.Restored? && back.rec.profile == "a" && w3.selected == Some("a")
      && var (w4, out) := Apply.ApplyStep(lib, None, hash, w3, Good("c").(healthy := false));
         out.rolledBack == Some("b") && w4.selected == w4.running == Some("b")
  {
    hide Apply.ApplyStep, Apply.Sanitize, Apply.RollbackStep, Twice;
    Plain();
    TwiceIs(lib, hash);
    var w, h := Twice(lib, hash), hash(Grouped(Defaults()));
    RolledBack(w, Apply.Record("a", h, 0), Apply.Record("b", h, 0));
    ApplySafety.RollbackKeepsLastGood(w, StepBack());
    FailsBackTo(lib, hash, Apply.RollbackStep(w, StepBack()).0);
  }

  // ---------------------------------------------------------------- the login throttle

  /** The fifth failure at time 0 announces 600 s, and an attempt after 600 s is refused; asked 0.7 s
      later the announcement is the same, and then the attempt at its end is let in. */
  lemma AnnouncedTimeIsRefused()
    ensures var t := map["ip" := Limiter.Entry(5, Limiter.WINDOW)];
      var late := 700_000_000;
      && Limiter.LoginStep(t, Limiter.Attempt("ip", 0, 0, 0, Limiter.RightPassword)).1
         == Limiter.LoginStep(t, Limiter.Attempt("ip", late, late, late, Limiter.RightPassword)).1
         == Limiter.Throttled(Some(600))
      && !Limiter.AllowStep(t, "ip", 600 * Limiter.SECOND).1
      && Limiter.AllowStep(t, "ip", late + 600 * Limiter.SECOND).1
  {
  }

  /** Four wrong passwords, the right one, and four wrong ones again, a second apart. */
  function Tries(): seq<Limiter.Attempt> {
    seq(9, i requires 0 <= i < 9 =>
      Limiter.Attempt("ip", i * Limiter.SECOND, i * Limiter.SECOND, i * Limiter.SECOND,
                      if i == 4 then Limiter.RightPassword else Limiter.WrongPassword))
  }

  lemma {:induction false} TriesTable(n: nat)
    requires n <= 9
    ensures Limiter.Run(Tries()[..n])
         == if n == 0 || n == 5 then map[]
            else map["ip" := Limiter.Entry(if n < 5 then n else n - 5, (n - 1) * Limiter.SECOND + Limiter.WINDOW)]
  {
    if n > 0 {
      TriesTable(n - 1);
      assert Tries()[..n][..n - 1] == Tries()[..n - 1];
    }
  }

  /** A success starts the count over: eight wrong passwords within ten minutes are all checked. */
  lemma SuccessStartsOver()
    ensures forall i | 0 <= i < 9 ::
      Limiter.LoginStep(Limiter.Run(Tries()[..i]), Tries()[i]).1
      == if i == 4 then Limiter.LoggedIn else Limiter.Unauthorized
  {
    forall i | 0 <= i < 9
      ensures Limiter.LoginStep(Limiter.Run(Tries()[..i]), Tries()[i]).1
           == if i == 4 then Limiter.LoggedIn else Limiter.Unauthorized
    {
      TriesTable(i);
    }
  }
}
