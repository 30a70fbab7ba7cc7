/** Every request that changes the state document, and the updater's merges: which of them can leave
    a route or a group pointing at something that is not there, and exactly when. */
module ApiSafety {
  import opened Prelude
  import opened Text
  import opened Model
  import opened RuleLine
  import opened Ids
  import opened Api
  import opened Import
  import opened Generator
  import opened WellFormedness
  import opened Merge
  import opened MergeIds
  import Build
  import Templates
  import Updater

  // ---------------------------------------------------------------- the invariant

  /** A route target names something that exists. */
  predicate Resolves(st: State, t: Target) {
    match t.kind
    case ToDirect => true
    case ToReject => true
    case ToServer => ExistsServer(st, t.id)
    case ToGroup => ExistsGroup(st, t.id)
    case UnknownTarget(_) => false
  }

  predicate Member(st: State, id: string) {
    ExistsServer(st, id) || ExistsGroup(st, id)
  }

  ghost predicate Linked(st: State) {
    && (forall rt | rt in st.routes :: Resolves(st, rt.target))
    && (forall g, m | g in st.groups && m in g.members :: Member(st, m))
    && !Member(st, "")
  }

  // ---------------------------------------------------------------- the requests

  /** The requests, the merges of update rounds, and EditElsewhere for everything that touches
      only sources and settings (creating, patching and discovering sources, the settings page,
      template toggles, the bookkeeping of update rounds), free to write anything there. */
  datatype Command =
    | CreateGroup(g: GroupIn)
    | PatchGroup(id: string, g: GroupIn)
    | DeleteGroup(id: string)
    | CreateRoute(known: Option<set<string>>, r: RouteIn)
    | PatchRoute(known: Option<set<string>>, id: string, r: RouteIn)
    | DeleteRoute(id: string)
    | ApplyTemplate(t: Templates.Template, target: Target)
    | ImportOneRule(live: seq<External>, raw: string, name: string, asked: Target)
    | ImportExternal(rules: seq<External>)
    | CreateServers(proxies: seq<Raw>)
    | EditServer(id: string, name: string, address: string, patch: Raw)
    | DeleteServer(id: string)
    | DeleteSource(id: string)
    | RefreshSource(sid: string, answer: seq<Raw>)
    | EditElsewhere(sources: seq<Source>, settings: Settings)
    | ReplaceState(known: Option<set<string>>, doc: State)

  function Step(lib: Library, hash: IdHash, st: State, c: Command): State {
    match c
    case CreateGroup(g) => CreateGroupStep(st, g).0
    case PatchGroup(id, g) => PatchGroupStep(st, id, g).0
    case DeleteGroup(id) => DeleteGroupStep(st, id).0
    case CreateRoute(known, r) => CreateRouteStep(lib, known, st, r).0
    case PatchRoute(known, id, r) => PatchRouteStep(lib, known, st, id, r).0
    case DeleteRoute(id) => DeleteRouteStep(st, id).0
    case ApplyTemplate(t, target) => ApplyTemplateStep(st, t, target).0
    case ImportOneRule(live, raw, name, asked) => ImportOneStep(lib, st, live, raw, name, asked).0
    case ImportExternal(rules) => ImportRules(lib, st, rules).st
    case CreateServers(proxies) => CreateServersStep(hash, st, proxies).0
    case EditServer(id, name, address, patch) => EditServerStep(st, id, name, address, patch).0
    case DeleteServer(id) => DeleteServerStep(st, id).0
    case DeleteSource(id) => DeleteSourceStep(st, id).0
    case RefreshSource(sid, answer) => st.(servers := Merged(hash, st.servers, sid, answer))
    case EditElsewhere(sources, settings) => st.(sources := sources, settings := settings)
    case ReplaceState(known, doc) => ReplaceStep(lib, known, st, doc).0
  }

  function Run(lib: Library, hash: IdHash, st: State, cs: seq<Command>): State {
    if |cs| == 0 then st else Step(lib, hash, Run(lib, hash, st, cs[..|cs| - 1]), cs[|cs| - 1])
  }

  // ---------------------------------------------------------------- steps that only touch routes

  lemma ValidTargetResolves(st: State, t: Target)
    requires ValidateTarget(st, t).Done?
    ensures Resolves(st, t)
  {
  }

  /** References survive when no ID goes away. */
  lemma MoreObjects(st: State, next: State)
    requires forall id | ExistsServer(st, id) :: ExistsServer(next, id)
    requires forall id | ExistsGroup(st, id) :: ExistsGroup(next, id)
    ensures forall id | Member(st, id) :: Member(next, id)
    ensures forall t | Resolves(st, t) :: Resolves(next, t)
  {
    hide ExistsServer, ExistsGroup;
  }

  /** Same servers and groups, and each route is an old one or points at something. */
  lemma RoutesKeepLinked(st: State, next: State)
    requires Linked(st) && next.servers == st.servers && next.groups == st.groups
    requires forall rt | rt in next.routes :: rt in st.routes || Resolves(st, rt.target)
    ensures Linked(next)
  {
    MoreObjects(st, next);
    MoreObjects(next, st);
  }

  lemma CreateRouteKeepsLinked(lib: Library, known: Option<set<string>>, st: State, r: RouteIn)
    requires Linked(st)
    ensures Linked(CreateRouteStep(lib, known, st, r).0)
  {
    hide Linked, Resolves, ValidateTarget, NewId;
    if CreateRouteStep(lib, known, st, r).1.Done? { ValidTargetResolves(st, r.target.value); }
    RoutesKeepLinked(st, CreateRouteStep(lib, known, st, r).0);
  }

  lemma PatchRouteKeepsLinked(lib: Library, known: Option<set<string>>, st: State, id: string, r: RouteIn)
    requires Linked(st)
    ensures Linked(PatchRouteStep(lib, known, st, id, r).0)
  {
    hide Linked, Resolves, ValidateTarget, NewId;
    var next := PatchRouteStep(lib, known, st, id, r).0;
    if PatchRouteStep(lib, known, st, id, r).1.Done? {
      var i := IndexOfRoute(st.routes, id).value;
      var rt := Patched(st.routes[i], r);
      assert ValidateTarget(next, rt.target).Done?;
      SameValidation(st, next, rt.target);
      ValidTargetResolves(st, rt.target);
      assert next.routes == st.routes[i := rt];
    }
    RoutesKeepLinked(st, next);
  }

  lemma SameValidation(st: State, next: State, t: Target)
    requires next.servers == st.servers && next.groups == st.groups
    ensures ValidateTarget(next, t) == ValidateTarget(st, t)
  {
  }

  lemma DeleteRouteKeepsLinked(st: State, id: string)
    requires Linked(st)
    ensures Linked(DeleteRouteStep(st, id).0)
  {
    hide Linked, Resolves;
    RoutesKeepLinked(st, DeleteRouteStep(st, id).0);
  }

  lemma ApplyTemplateKeepsLinked(st: State, t: Templates.Template, target: Target)
    requires Linked(st)
    ensures Linked(ApplyTemplateStep(st, t, target).0)
  {
    hide Linked, Resolves, ValidateTarget, NewId;
    if ValidateTarget(st, target).Done? { ValidTargetResolves(st, target); }
    RoutesKeepLinked(st, ApplyTemplateStep(st, t, target).0);
  }

  lemma ImportOneKeepsLinked(lib: Library, st: State, live: seq<External>, raw: string, name: string, asked: Target)
    requires Linked(st)
    ensures Linked(ImportOneStep(lib, st, live, raw, name, asked).0)
  {
    hide Linked, Resolves, ValidateTarget, NewId, RuleCondition, AskedTarget, TrimSpace, ImportName;
    var next := ImportOneStep(lib, st, live, raw, name, asked).0;
    if next != st { ValidTargetResolves(st, next.routes[|st.routes|].target); }
    RoutesKeepLinked(st, next);
  }

  lemma {:induction false} ImportKeepsLinked(lib: Library, st: State, rules: seq<External>)
    requires Linked(st)
    ensures Linked(ImportRules(lib, st, rules).st)
  {
    if |rules| > 0 {
      hide Linked, Resolves, ImportRule, Verdict, ImportedRoute;
      ImportKeepsLinked(lib, st, rules[..|rules| - 1]);
      var prev := ImportRules(lib, st, rules[..|rules| - 1]);
      ImportRuleKeepsLinked(lib, prev, rules[|rules| - 1]);
    }
  }

  lemma ImportRuleKeepsLinked(lib: Library, o: Outcome, ru: External)
    requires Linked(o.st)
    ensures Linked(ImportRule(lib, o, ru).st)
  {
    hide Linked, Resolves, ValidateTarget, NewId, RuleCondition, TargetFor;
    var v := Verdict(lib, o.st, o.seen, ru);
    if v.Ok? {
      ValidTargetResolves(o.st, v.value.1);
      RoutesKeepLinked(o.st, ImportRule(lib, o, ru).st);
    }
  }

  // ---------------------------------------------------------------- steps that touch servers and groups

  lemma CreateGroupKeepsLinked(st: State, g: GroupIn)
    requires Linked(st)
    ensures Linked(CreateGroupStep(st, g).0)
  {
    hide Resolves, NewId, HasPrefix;
    var next := CreateGroupStep(st, g).0;
    if CreateGroupStep(st, g).1.Done? {
      var id := NewId("grp", AllIds(st));
      assert id != "" by { NewIdIsText("grp", AllIds(st)); }
      NewGroup(st, next, Group(id, g.name, g.kind, g.members));
      forall x, m | x in next.groups && m in x.members ensures Member(next, m) {
        if x !in st.groups {
          var i :| 0 <= i < |g.members| && g.members[i] == m;
        }
      }
    }
  }

  lemma NewIdIsText(prefix: string, ids: set<string>)
    ensures NewId(prefix, ids) != ""
  {
  }

  lemma NewGroup(st: State, next: State, g: Group)
    requires next == st.(groups := st.groups + [g])
    ensures forall id | Member(st, id) :: Member(next, id)
    ensures forall id | Member(next, id) :: Member(st, id) || id == g.id
    ensures forall t | Resolves(st, t) :: Resolves(next, t)
  {
    assert forall i | 0 <= i < |st.groups| :: next.groups[i] == st.groups[i];
    MoreObjects(st, next);
  }

  lemma EditServerKeepsLinked(st: State, id: string, name: string, address: string, patch: Raw)
    requires Linked(st)
    ensures Linked(EditServerStep(st, id, name, address, patch).0)
  {
    hide TrimSpace, EditedRaw, Resolves, Member;
    var next := EditServerStep(st, id, name, address, patch).0;
    assert |next.servers| == |st.servers| && forall i | 0 <= i < |st.servers| :: next.servers[i].id == st.servers[i].id;
    MoreObjects(st, next);
    MoreObjects(next, st);
  }

  /** Whatever else a deletion drops, objects of other IDs stay. */
  lemma OthersStay(st: State, next: State, id: string)
    requires next == DeleteServerStep(st, id).0 || next == DeleteGroupStep(st, id).0
    ensures forall x | x != id :: Member(next, x) <==> Member(st, x)
    ensures forall x | x != id :: ExistsServer(next, x) <==> ExistsServer(st, x)
    ensures forall x | x != id :: ExistsGroup(next, x) <==> ExistsGroup(st, x)
    ensures forall x :: Member(next, x) ==> Member(st, x)
  {
    hide Without;
    if next != st {
      if next == DeleteServerStep(st, id).0 {
        var i := IndexOfServer(st.servers, id).value;
        DropServer(st, next, i);
        SameGroupIds(st, next);
      } else {
        var i := IndexOfGroup(st.groups, id).value;
        var groups := Stripped(st.groups, id, true);
        DropGroup(st, next, groups, i);
      }
    }
  }

  lemma DropServer(st: State, next: State, i: nat)
    requires i < |st.servers| && next.servers == st.servers[..i] + st.servers[i + 1..]
    ensures forall x | x != st.servers[i].id :: ExistsServer(next, x) <==> ExistsServer(st, x)
    ensures forall x :: ExistsServer(next, x) ==> ExistsServer(st, x)
  {
    forall x | x != st.servers[i].id && ExistsServer(st, x) ensures ExistsServer(next, x) {
      var k :| 0 <= k < |st.servers| && st.servers[k].id == x;
      assert next.servers[if k < i then k else k - 1].id == x;
    }
  }

  lemma SameGroupIds(st: State, next: State)
    requires |next.groups| == |st.groups| && forall i | 0 <= i < |st.groups| :: next.groups[i].id == st.groups[i].id
    ensures forall x :: ExistsGroup(next, x) <==> ExistsGroup(st, x)
  {
  }

  lemma DropGroup(st: State, next: State, groups: seq<Group>, i: nat)
    requires i < |st.groups| == |groups| && next.groups == groups[..i] + groups[i + 1..] && next.servers == st.servers
    requires forall k | 0 <= k < |groups| :: groups[k].id == st.groups[k].id
    ensures forall x | x != st.groups[i].id :: ExistsGroup(next, x) <==> ExistsGroup(st, x)
    ensures forall x :: ExistsGroup(next, x) ==> ExistsGroup(st, x)
    ensures forall x :: ExistsServer(next, x) <==> ExistsServer(st, x)
  {
    forall x | x != st.groups[i].id && ExistsGroup(st, x) ensures ExistsGroup(next, x) {
      var k :| 0 <= k < |st.groups| && st.groups[k].id == x;
      assert next.groups[if k < i then k else k - 1].id == x;
    }
  }

  /** After a deletion nothing refers to the ID: no route of any kind carries it as its target and
      no remaining group of another ID lists it. */
  ghost predicate Forgotten(st: State, id: string) {
    && (forall rt | rt in st.routes :: rt.target.id != id)
    && (forall g | g in st.groups && g.id != id :: id !in g.members)
  }

  lemma UntargetedMeans(routes: seq<Route>, id: string)
    requires id != "" && !Targeted(routes, id)
    ensures forall rt | rt in routes :: rt.target.id != id
  {
  }

  lemma DeletionForgets(st: State, id: string)
    requires id != ""
    ensures DeleteServerStep(st, id).1.Done? ==>
      Forgotten(DeleteServerStep(st, id).0, id) && forall g | g in DeleteServerStep(st, id).0.groups :: id !in g.members
    ensures DeleteGroupStep(st, id).1.Done? ==> Forgotten(DeleteGroupStep(st, id).0, id)
  {
    hide Targeted;
    if DeleteServerStep(st, id).1.Done? || DeleteGroupStep(st, id).1.Done? { UntargetedMeans(st.routes, id); }
  }

  /** Each remaining group is an old one, less the deleted ID. */
  lemma RemainingGroups(st: State, next: State, id: string, g: Group)
    requires next == DeleteServerStep(st, id).0 || next == DeleteGroupStep(st, id).0
    requires g in next.groups
    ensures exists was | was in st.groups :: g == was || g == was.(members := Without(was.members, id))
  {
    hide Without;
    if next == DeleteServerStep(st, id).0 && next != st {
      var k :| 0 <= k < |next.groups| && next.groups[k] == g;
      assert st.groups[k] in st.groups;
    } else if next != st {
      var i := IndexOfGroup(st.groups, id).value;
      var k :| 0 <= k < |next.groups| && next.groups[k] == g;
      var j := if k < i then k else k + 1;
      assert g == Stripped(st.groups, id, true)[j];
      assert st.groups[j] in st.groups;
    }
  }

  lemma DeletedExisted(st: State, next: State, id: string)
    requires next == DeleteServerStep(st, id).0 || next == DeleteGroupStep(st, id).0
    requires next != st
    ensures Member(st, id) && !Targeted(st.routes, id) && next.routes == st.routes
    ensures (next == DeleteServerStep(st, id).0 && DeleteServerStep(st, id).1.Done?)
         || (next == DeleteGroupStep(st, id).0 && DeleteGroupStep(st, id).1.Done?)
  {
    hide Stripped, Targeted;
  }

  lemma DeletionKeepsLinked(st: State, next: State, id: string)
    requires next == DeleteServerStep(st, id).0 || next == DeleteGroupStep(st, id).0
    requires Linked(st)
    ensures Linked(next)
  {
    hide Without, Stripped, Member, ExistsServer, DeleteServerStep, DeleteGroupStep, Targeted;
    if next != st {
      DeletedExisted(st, next, id);
      OthersStay(st, next, id);
      UntargetedMeans(st.routes, id);
      DeletionForgets(st, id);
      forall g, m | g in next.groups && m in g.members ensures Member(next, m) {
        RemainingGroups(st, next, id, g);
        if m == id { GroupIsMember(next, g); }
      }
    }
  }

  lemma GroupIsMember(st: State, g: Group)
    requires g in st.groups
    ensures Member(st, g.id)
  {
  }

  // ---------------------------------------------------------------- servers going away

  /** When only servers change, links survive iff every server that is referred to is still there. */
  lemma ServersChangeIff(st: State, next: State)
    requires Linked(st) && next.groups == st.groups && next.routes == st.routes && !ExistsServer(next, "")
    ensures Linked(next)
        <==> (forall rt | rt in st.routes && rt.target.kind.ToServer? :: ExistsServer(next, rt.target.id))
             && (forall g, m | g in st.groups && m in g.members :: ExistsServer(next, m) || ExistsGroup(st, m))
  {
    hide ExistsServer;
    assert forall id :: ExistsGroup(next, id) <==> ExistsGroup(st, id) by { SameGroupIds(st, next); }
    hide ExistsGroup;
    forall rt | rt in st.routes
      ensures Resolves(next, rt.target) <==> (rt.target.kind.ToServer? ==> ExistsServer(next, rt.target.id))
    {
      assert Resolves(st, rt.target);
    }
    assert !Member(next, "") by { assert !Member(st, ""); }
    if Linked(next) {
      forall g, m | g in st.groups && m in g.members ensures ExistsServer(next, m) || ExistsGroup(st, m) {
        assert Member(next, m);
      }
    }
  }

  /** The server is there whatever becomes of the source. */
  predicate ElsewhereServer(st: State, sid: string, id: string) {
    exists i | 0 <= i < |st.servers| :: st.servers[i].id == id && st.servers[i].sourceId != sid
  }

  /** Nothing refers to a server that only this source provides. */
  ghost predicate SourceUnused(st: State, sid: string) {
    && (forall rt | rt in st.routes && rt.target.kind.ToServer? :: ElsewhereServer(st, sid, rt.target.id))
    && (forall g, m | g in st.groups && m in g.members :: ElsewhereServer(st, sid, m) || ExistsGroup(st, m))
  }

  lemma ElsewhereIff(st: State, next: State, sid: string)
    requires next.servers == NotFrom(st.servers, sid) && next.groups == st.groups
    ensures forall id :: ExistsServer(next, id) <==> ElsewhereServer(st, sid, id)
    ensures forall id :: ExistsGroup(next, id) <==> ExistsGroup(st, id)
  {
    forall id ensures ExistsServer(next, id) <==> ElsewhereServer(st, sid, id) {
      if i :| 0 <= i < |next.servers| && next.servers[i].id == id {
        assert next.servers[i] in st.servers;
      }
      if i :| 0 <= i < |st.servers| && st.servers[i].id == id && st.servers[i].sourceId != sid {
        assert st.servers[i] in next.servers;
      }
    }
  }

  /** A source deletion keeps every reference resolved iff nothing refers to its servers. */
  lemma SourceDeletionIff(st: State, id: string)
    requires Linked(st) && DeleteSourceStep(st, id).1.Done?
    ensures Linked(DeleteSourceStep(st, id).0) <==> SourceUnused(st, id)
  {
    hide ExistsServer, ExistsGroup, ElsewhereServer, Targeted, NotFrom, Linked;
    var next := DeleteSourceStep(st, id).0;
    ElsewhereIff(st, next, id);
    assert !ExistsServer(next, "") by { EmptyStaysAway(st, next, id); }
    ServersChangeIff(st, next);
  }

  lemma EmptyStaysAway(st: State, next: State, sid: string)
    requires next.servers == NotFrom(st.servers, sid) && next.groups == st.groups && Linked(st)
    ensures !ExistsServer(next, "")
  {
    hide NotFrom;
    ElsewhereIff(st, next, sid);
    assert !Member(st, "");
  }

  /** The merge drops no server that a route or a group needs. */
  ghost predicate MergeSpares(hash: IdHash, st: State, src: string, answer: seq<Raw>) {
    && (forall rt | rt in st.routes && rt.target.kind.ToServer? :: Stays(hash, st.servers, src, answer, rt.target.id))
    && (forall g, m | g in st.groups && m in g.members ::
          Stays(hash, st.servers, src, answer, m) || ExistsGroup(st, m))
  }

  lemma CarriesIff(st: State, id: string)
    ensures ExistsServer(st, id) <==> Carries(st.servers, id)
  {
    if i :| 0 <= i < |st.servers| && st.servers[i].id == id { assert st.servers[i] in st.servers; }
  }

  lemma NoEmptyIdStays(hash: IdHash, st: State, src: string, answer: seq<Raw>)
    requires !ExistsServer(st, "")
    ensures !Stays(hash, st.servers, src, answer, "")
  {
    CarriesIff(st, "");
  }

  /** A merge, of an update round or of pasted links, keeps every reference resolved iff it spares
      what is referred to: not every carrier of a needed ID is at its third miss, or the answer
      mints the ID anew. */
  lemma MergeIff(hash: IdHash, st: State, next: State, src: string, answer: seq<Raw>)
    requires Linked(st) && next.groups == st.groups && next.routes == st.routes
    requires next.servers == Merged(hash, st.servers, src, answer)
    ensures Linked(next) <==> MergeSpares(hash, st, src, answer)
  {
    hide Stays, Carries, ExistsServer, ExistsGroup, Merged;
    forall id ensures ExistsServer(next, id) <==> Stays(hash, st.servers, src, answer, id) {
      CarriesIff(next, id);
      MergedIds(hash, st.servers, src, answer, id);
    }
    assert !ExistsServer(st, "") by { assert !Member(st, ""); }
    NoEmptyIdStays(hash, st, src, answer);
    hide Linked;
    ServersChangeIff(st, next);
  }

  lemma CreateServersIff(hash: IdHash, st: State, proxies: seq<Raw>)
    requires Linked(st) && CreateServersStep(hash, st, proxies).1.Done?
    ensures Linked(CreateServersStep(hash, st, proxies).0) <==> MergeSpares(hash, st, WithManual(st).1, proxies)
  {
    hide Linked, MergeSpares, Merged, NewId, Usable;
    MergeIff(hash, st, CreateServersStep(hash, st, proxies).0, WithManual(st).1, proxies);
  }

  /** What the compiler does not look at: the targets of routes that are off, and empty IDs. */
  ghost predicate DocumentLinked(doc: State) {
    (forall rt | rt in doc.routes && !rt.enabled :: Resolves(doc, rt.target)) && !Member(doc, "")
  }

  lemma UsableExists(st: State, id: string)
    ensures UsableServer(st, id) ==> ExistsServer(st, id)
    ensures HasGroup(st, id) ==> ExistsGroup(st, id)
    ensures UsableAsMember(st, id) ==> Member(st, id)
  {
    if UsableServer(st, id) {
      var srv :| ActiveServer(st, srv) && srv.id == id && |srv.raw| > 0;
      assert srv in st.servers;
    }
  }

  /** A document the compiler accepts has no dangling reference iff its switched-off routes have none. */
  lemma ReplaceIff(lib: Library, known: Option<set<string>>, st: State, doc: State)
    requires ReplaceStep(lib, known, st, doc).1.Done?
    ensures Linked(ReplaceStep(lib, known, st, doc).0) <==> DocumentLinked(doc)
  {
    hide Compiled, ExistsServer, ExistsGroup, UsableServer, HasGroup, UsableAsMember, GoodCondition, ProviderUses;
    CompilesIff(lib, doc);
    forall rt | rt in doc.routes && rt.enabled ensures Resolves(doc, rt.target) {
      assert GoodRoute(lib, doc, rt);
      UsableExists(doc, rt.target.id);
    }
    forall g, m | g in doc.groups && m in g.members ensures Member(doc, m) {
      assert GoodGroup(doc, g);
      UsableExists(doc, m);
    }
  }

  /** A group patch keeps every reference resolved iff the new members exist. */
  lemma GroupPatchIff(st: State, id: string, g: GroupIn)
    requires Linked(st) && PatchGroupStep(st, id, g).1.Done?
    ensures Linked(PatchGroupStep(st, id, g).0) <==> forall m | m in g.members :: Member(st, m)
  {
    hide HasPrefix, Resolves, ExistsServer;
    var next := PatchGroupStep(st, id, g).0;
    var i := IndexOfGroup(st.groups, id).value;
    SameGroupIds(st, next);
    assert forall x :: ExistsServer(next, x) <==> ExistsServer(st, x) by { SameServers(st, next); }
    MoreObjects(st, next);
    MoreObjects(next, st);
    assert next.groups[i] in next.groups && next.groups[i].members == g.members;
    forall x, m | x in next.groups && m in x.members && m !in g.members ensures Member(st, m) {
      assert x in st.groups;
    }
  }

  lemma SameServers(st: State, next: State)
    requires next.servers == st.servers
    ensures forall x :: ExistsServer(next, x) <==> ExistsServer(st, x)
  {
  }

  /** Deleting a source whose server a route uses is accepted and leaves the route without a target. */
  lemma SourceDeletionBreaksLinks(settings: Settings, raw: Raw)
    ensures var st := TargetedThroughSource(settings, raw);
      Linked(st) && DeleteSourceStep(st, "src_1").1.Done? && !Linked(DeleteSourceStep(st, "src_1").0)
  {
    var st := TargetedThroughSource(settings, raw);
    assert st.servers[0].id == "srv_1" && st.sources[0].id == "src_1";
    assert ExistsServer(st, "srv_1");
    assert st.routes[0] in st.routes;
    assert !ElsewhereServer(st, "src_1", "srv_1");
    assert Linked(st);
    assert IndexOfSource(st.sources, "src_1") == Some(0);
    SourceDeletionIff(st, "src_1");
  }

  function TargetedThroughSource(settings: Settings, raw: Raw): State {
    State(settings,
          [Source("src_1", Subscription, "home", "", true, 0, Never, 0, Never, false, None)],
          [Server("srv_1", "src_1", "one", "vless", raw, 0, false, 0)],
          [],
          [Route("rt_1", "all", true, 10, [Condition(Domain, "example.org", "")], Target(ToServer, "srv_1"),
                 "block", [])])
  }

  // ---------------------------------------------------------------- every run

  /** What a caller must check before the five unguarded steps; the others need nothing. */
  ghost predicate Careful(lib: Library, hash: IdHash, st: State, c: Command) {
    match c
    case PatchGroup(id, g) => PatchGroupStep(st, id, g).1.Done? ==> forall m | m in g.members :: Member(st, m)
    case DeleteSource(id) => DeleteSourceStep(st, id).1.Done? ==> SourceUnused(st, id)
    case CreateServers(proxies) =>
      CreateServersStep(hash, st, proxies).1.Done? ==> MergeSpares(hash, st, WithManual(st).1, proxies)
    case RefreshSource(sid, answer) => MergeSpares(hash, st, sid, answer)
    case ReplaceState(known, doc) => ReplaceStep(lib, known, st, doc).1.Done? ==> DocumentLinked(doc)
    case _ => true
  }

  /** A refused request changes nothing. */
  lemma RefusedChangesNothing(lib: Library, hash: IdHash, st: State, c: Command)
    ensures c.PatchGroup? && !PatchGroupStep(st, c.id, c.g).1.Done? ==> Step(lib, hash, st, c) == st
    ensures c.DeleteSource? && !DeleteSourceStep(st, c.id).1.Done? ==> Step(lib, hash, st, c) == st
    ensures c.CreateServers? && !CreateServersStep(hash, st, c.proxies).1.Done? ==> Step(lib, hash, st, c) == st
    ensures c.ReplaceState? && !ReplaceStep(lib, c.known, st, c.doc).1.Done? ==> Step(lib, hash, st, c) == st
  {
    hide Compiled, Build.Checked, Targeted, NewId, Usable, Merged, HasPrefix;
  }

  /** Every step, and exactly when it leaves references as resolved as it found them. */
  lemma StepKeepsLinkedIff(lib: Library, hash: IdHash, st: State, c: Command)
    requires Linked(st)
    ensures Linked(Step(lib, hash, st, c)) <==> Careful(lib, hash, st, c)
  {
    hide Linked, CreateGroupStep, CreateRouteStep, PatchRouteStep, DeleteRouteStep, ApplyTemplateStep, EditServerStep,
      DeleteServerStep, DeleteGroupStep, PatchGroupStep, DeleteSourceStep, ImportRules, ImportOneStep,
      CreateServersStep, ReplaceStep, WithManual, SourceUnused, MergeSpares, DocumentLinked, Merged;
    RefusedChangesNothing(lib, hash, st, c);
    match c
    case CreateGroup(g) => CreateGroupKeepsLinked(st, g);
    case CreateRoute(known, r) => CreateRouteKeepsLinked(lib, known, st, r);
    case PatchRoute(known, id, r) => PatchRouteKeepsLinked(lib, known, st, id, r);
    case DeleteRoute(id) => DeleteRouteKeepsLinked(st, id);
    case ApplyTemplate(t, target) => ApplyTemplateKeepsLinked(st, t, target);
    case ImportOneRule(live, raw, name, asked) => ImportOneKeepsLinked(lib, st, live, raw, name, asked);
    case ImportExternal(rules) => ImportKeepsLinked(lib, st, rules);
    case EditServer(id, name, address, patch) => EditServerKeepsLinked(st, id, name, address, patch);
    case DeleteServer(id) => DeletionKeepsLinked(st, DeleteServerStep(st, id).0, id);
    case DeleteGroup(id) => DeletionKeepsLinked(st, DeleteGroupStep(st, id).0, id);
    case EditElsewhere(sources, settings) => RoutesKeepLinked(st, Step(lib, hash, st, c));
    case PatchGroup(id, g) => if PatchGroupStep(st, id, g).1.Done? { GroupPatchIff(st, id, g); }
    case DeleteSource(id) => if DeleteSourceStep(st, id).1.Done? { SourceDeletionIff(st, id); }
    case CreateServers(proxies) =>
      if CreateServersStep(hash, st, proxies).1.Done? { CreateServersIff(hash, st, proxies); }
    case RefreshSource(sid, answer) => MergeIff(hash, st, Step(lib, hash, st, c), sid, answer);
    case ReplaceState(known, doc) => if ReplaceStep(lib, known, st, doc).1.Done? { ReplaceIff(lib, known, st, doc); }
  }

  /** Every step of the run was careful in the state it met. */
  ghost predicate CarefulRun(lib: Library, hash: IdHash, st: State, cs: seq<Command>) {
    |cs| == 0
    || (CarefulRun(lib, hash, st, cs[..|cs| - 1])
        && Careful(lib, hash, Run(lib, hash, st, cs[..|cs| - 1]), cs[|cs| - 1]))
  }

  /** No run leaves a route or a group pointing at nothing, as long as its group patches, source
      deletions, merges and document imports are careful. */
  lemma {:induction false} RunKeepsLinked(lib: Library, hash: IdHash, st: State, cs: seq<Command>)
    requires Linked(st) && CarefulRun(lib, hash, st, cs)
    ensures Linked(Run(lib, hash, st, cs))
  {
    if |cs| > 0 {
      hide Linked, Careful, Step;
      RunKeepsLinked(lib, hash, st, cs[..|cs| - 1]);
      StepKeepsLinkedIff(lib, hash, Run(lib, hash, st, cs[..|cs| - 1]), cs[|cs| - 1]);
    }
  }

  // ---------------------------------------------------------------- update rounds are runs

  function RoundCommands(sources: seq<Source>, outcomes: seq<Updater.Outcome>, force: bool, now: int): seq<Command>
    requires |sources| == |outcomes|
  {
    if |sources| == 0 then []
    else
      var n := |sources| - 1;
      RoundCommands(sources[..n], outcomes[..n], force, now)
      + (if Updater.Due(sources[n], force, now) && outcomes[n].Answers?
         then [RefreshSource(sources[n].id, outcomes[n].proxies)] else [])
  }

  lemma RunLast(lib: Library, hash: IdHash, st: State, cs: seq<Command>, c: Command)
    ensures Run(lib, hash, st, cs + [c]) == Step(lib, hash, Run(lib, hash, st, cs), c)
  {
    assert (cs + [c])[..|cs|] == cs;
  }

  /** What an update round does to the servers is the run of its merges. */
  lemma {:induction false} RoundIsRun(lib: Library, hash: IdHash, st: State, sources: seq<Source>,
                                      outcomes: seq<Updater.Outcome>, force: bool, now: int)
    requires |sources| == |outcomes|
    ensures Run(lib, hash, st, RoundCommands(sources, outcomes, force, now))
         == st.(servers := Updater.RoundServers(hash, st.servers, sources, outcomes, force, now))
  {
    if |sources| > 0 {
      hide Run, Updater.Due, Merged;
      var n := |sources| - 1;
      var init := RoundCommands(sources[..n], outcomes[..n], force, now);
      RoundIsRun(lib, hash, st, sources[..n], outcomes[..n], force, now);
      if Updater.Due(sources[n], force, now) && outcomes[n].Answers? {
        RunLast(lib, hash, st, init, RefreshSource(sources[n].id, outcomes[n].proxies));
      } else {
        assert RoundCommands(sources, outcomes, force, now) == init;
      }
    }
  }
}
