/** The configuration API (internal/api/api.go): what each request makes of the state document.
    A handler loads the document, changes it and saves it, or answers an error and saves nothing. */
module Api {
  import opened Prelude
  import opened Text
  import opened Model
  import opened RuleLine
  import opened Ids
  import opened Merge
  import opened Generator
  import Build
  import Templates

  datatype Response = Done | BadRequest | NotFound | Conflict

  // ---------------------------------------------------------------- lookups

  predicate ExistsServer(st: State, id: string) {
    exists i | 0 <= i < |st.servers| :: st.servers[i].id == id
  }

  predicate ExistsGroup(st: State, id: string) {
    exists i | 0 <= i < |st.groups| :: st.groups[i].id == id
  }

  function FirstServer(servers: seq<Server>, id: string): (r: Option<Server>)
    ensures r.Some? <==> exists i | 0 <= i < |servers| :: servers[i].id == id
    ensures r.Some? ==> r.value in servers && r.value.id == id
  {
    var i := IndexWhere(servers, (s: Server) => s.id == id);
    if i.Some? then Some(servers[i.value]) else None
  }

  /** routesTargeting is non-empty. */
  predicate Targeted(routes: seq<Route>, id: string) {
    id != "" && exists i | 0 <= i < |routes| :: routes[i].target.id == id
  }

  // ---------------------------------------------------------------- validation

  function ValidateTarget(st: State, t: Target): Response {
    match t.kind
    case ToDirect => Done
    case ToReject => Done
    case ToServer =>
      (match FirstServer(st.servers, t.id)
       case None => Conflict
       case Some(s) => if s.stale then Conflict else Done)
    case ToGroup => if ExistsGroup(st, t.id) then Done else Conflict
    case UnknownTarget(_) => BadRequest
  }

  datatype GroupIn = GroupIn(name: string, kind: GroupType, members: seq<string>)

  predicate GoodGroupIn(st: State, g: GroupIn, selfId: string) {
    && g.name != "" && !HasPrefix(g.name, "rt:") && !g.kind.UnknownGroupType? && |g.members| > 0
    && forall i | 0 <= i < |g.members| ::
         g.members[i] != selfId && (ExistsServer(st, g.members[i]) || ExistsGroup(st, g.members[i]))
  }

  /** A route payload; None is a field that was not sent. */
  datatype RouteIn = RouteIn(
    name: string, enabled: Option<bool>, order: Option<int>, conditions: Option<seq<Condition>>,
    target: Option<Target>, onUnavailable: Option<string>, providers: Option<seq<string>>)

  predicate ProviderAccepted(known: Option<set<string>>, p: string) {
    && (forall i | 0 <= i < |p| :: 'a' <= p[i] <= 'z' || 'A' <= p[i] <= 'Z' || '0' <= p[i] <= '9' || p[i] == '-')
    && (known.Some? ==> p in known.value)
  }

  predicate ConditionsAccepted(lib: Library, cs: seq<Condition>) {
    && (forall i | 0 <= i < |cs| :: Accepted(lib, cs[i]))
    && forall i, j | 0 <= i < j < |cs| :: cs[i].kind != cs[j].kind || cs[i].value != cs[j].value
  }

  function ValidateRoute(lib: Library, st: State, known: Option<set<string>>, name: string, cs: seq<Condition>,
                         providers: seq<string>, target: Option<Target>): (r: Response)
    ensures r.Done? ==> target.Some? && ValidateTarget(st, target.value).Done?
  {
    if name == "" || (|cs| == 0 && |providers| == 0) || !ConditionsAccepted(lib, cs)
       || (exists i | 0 <= i < |providers| :: !ProviderAccepted(known, providers[i])) || target.None? then BadRequest
    else ValidateTarget(st, target.value)
  }

  predicate OnUnavailableAccepted(v: string) {
    v == "block" || v == "direct"
  }

  function Or<T>(o: Option<T>, default: T): T {
    match o case Some(x) => x case None => default
  }

  // ---------------------------------------------------------------- what each request does

  function CreateGroupStep(st: State, g: GroupIn): (State, Response) {
    if !GoodGroupIn(st, g, "") then (st, BadRequest)
    else (st.(groups := st.groups + [Group(NewId("grp", AllIds(st)), g.name, g.kind, g.members)]), Done)
  }

  function CreateRouteStep(lib: Library, known: Option<set<string>>, st: State, r: RouteIn): (State, Response) {
    var cs, ps := Or(r.conditions, []), Or(r.providers, []);
    var valid := ValidateRoute(lib, st, known, r.name, cs, ps, r.target);
    if !valid.Done? then (st, valid)
    else if r.onUnavailable.Some? && !OnUnavailableAccepted(r.onUnavailable.value) then (st, BadRequest)
    else
      (st.(routes := st.routes + [Route(NewId("rt", AllIds(st)), r.name, Or(r.enabled, true),
                                        Or(r.order, MaxOrder(st.routes) + 10), cs, r.target.value,
                                        Or(r.onUnavailable, "block"), ps)]), Done)
  }

  function IndexOfRoute(routes: seq<Route>, id: string): (r: Option<nat>)
    ensures r.Some? ==> r.value < |routes| && routes[r.value].id == id
    ensures r.Some? ==> forall j | 0 <= j < r.value :: routes[j].id != id
    ensures r.None? ==> forall j | 0 <= j < |routes| :: routes[j].id != id
  {
    IndexWhere(routes, (rt: Route) => rt.id == id)
  }

  function Patched(rt: Route, r: RouteIn): Route {
    rt.(name := r.name, conditions := Or(r.conditions, rt.conditions), providers := Or(r.providers, rt.providers),
        target := Or(r.target, rt.target), enabled := Or(r.enabled, rt.enabled), order := Or(r.order, rt.order),
        onUnavailable := Or(r.onUnavailable, rt.onUnavailable))
  }

  /** The patch is merged first and the merged route validated as a whole. */
  function PatchRouteStep(lib: Library, known: Option<set<string>>, st: State, id: string, r: RouteIn)
      : (State, Response) {
    match IndexOfRoute(st.routes, id)
    case None => (st, NotFound)
    case Some(i) =>
      if r.name == "" || (r.conditions.None? && r.providers.None? && r.target.None?) then (st, BadRequest)
      else if r.onUnavailable.Some? && !OnUnavailableAccepted(r.onUnavailable.value) then (st, BadRequest)
      else
        var rt := Patched(st.routes[i], r);
        var next := st.(routes := st.routes[i := rt]);
        var valid := ValidateRoute(lib, next, known, rt.name, rt.conditions, rt.providers, Some(rt.target));
        if valid.Done? then (next, Done) else (st, valid)
  }

  function DeleteRouteStep(st: State, id: string): (State, Response) {
    match IndexOfRoute(st.routes, id)
    case None => (st, NotFound)
    case Some(i) => (st.(routes := st.routes[..i] + st.routes[i + 1..]), Done)
  }

  function ApplyTemplateStep(st: State, t: Templates.Template, target: Target): (State, Response) {
    if t.id in st.settings.disabledTemplates then (st, Conflict)
    else if !ValidateTarget(st, target).Done? then (st, ValidateTarget(st, target))
    else if t.id == "all-vpn" then (st.(settings := st.settings.(defaultPolicy := target)), Done)
    else
      (st.(routes := st.routes + [Route(NewId("rt", AllIds(st)), t.name, true, MaxOrder(st.routes) + 10,
                                        t.conditions, target, "block", t.providers)]), Done)
  }

  function IndexOfServer(servers: seq<Server>, id: string): (r: Option<nat>)
    ensures r.Some? ==> r.value < |servers| && servers[r.value].id == id
    ensures r.Some? ==> forall j | 0 <= j < r.value :: servers[j].id != id
    ensures r.None? ==> forall j | 0 <= j < |servers| :: servers[j].id != id
  {
    IndexWhere(servers, (s: Server) => s.id == id)
  }

  function IndexOfGroup(groups: seq<Group>, id: string): (r: Option<nat>)
    ensures r.Some? ==> r.value < |groups| && groups[r.value].id == id
    ensures r.Some? ==> forall j | 0 <= j < r.value :: groups[j].id != id
    ensures r.None? ==> forall j | 0 <= j < |groups| :: groups[j].id != id
  {
    IndexWhere(groups, (g: Group) => g.id == id)
  }

  function EditedRaw(raw: Raw, address: string, patch: Raw): Raw {
    var base := if TrimSpace(address) != "" then raw["server" := Str(TrimSpace(address))] else raw;
    base + (patch - {"server", "name"})
  }

  function EditServerStep(st: State, id: string, name: string, address: string, patch: Raw): (State, Response) {
    var trimmed := TrimSpace(name);
    if trimmed == "" then (st, BadRequest)
    else match IndexOfServer(st.servers, id)
      case None => (st, NotFound)
      case Some(i) =>
        if exists k | 0 <= k < |st.servers| :: st.servers[k].id != id && st.servers[k].name == trimmed
        then (st, Conflict)
        else
          var s := st.servers[i];
          (st.(servers := st.servers[i := s.(name := trimmed, raw := EditedRaw(s.raw, address, patch))]), Done)
  }

  /** Take an ID out of member lists; a group deletion leaves the groups of that ID alone. */
  function Stripped(groups: seq<Group>, id: string, spareOwn: bool): (r: seq<Group>)
    ensures |r| == |groups|
    ensures forall i | 0 <= i < |groups| ::
      r[i] == if spareOwn && groups[i].id == id then groups[i]
              else groups[i].(members := Without(groups[i].members, id))
  {
    seq(|groups|, i requires 0 <= i < |groups| =>
      if spareOwn && groups[i].id == id then groups[i] else groups[i].(members := Without(groups[i].members, id)))
  }

  function IndexOfSource(sources: seq<Source>, id: string): (r: Option<nat>)
    ensures r.Some? ==> r.value < |sources| && sources[r.value].id == id
    ensures r.Some? ==> forall j | 0 <= j < r.value :: sources[j].id != id
    ensures r.None? ==> forall j | 0 <= j < |sources| :: sources[j].id != id
  {
    IndexWhere(sources, (s: Source) => s.id == id)
  }

  /** The servers that do not come from a source. */
  function NotFrom(servers: seq<Server>, sid: string): (r: seq<Server>)
    ensures forall s :: s in r <==> s in servers && s.sourceId != sid
  {
    if |servers| == 0 then []
    else
      var init, s := servers[..|servers| - 1], servers[|servers| - 1];
      assert servers == init + [s];
      if s.sourceId != sid then NotFrom(init, sid) + [s] else NotFrom(init, sid)
  }

  /** The guard looks for routes that target the source's own ID, not its servers. */
  function DeleteSourceStep(st: State, id: string): (State, Response) {
    match IndexOfSource(st.sources, id)
    case None => (st, NotFound)
    case Some(i) =>
      if Targeted(st.routes, id) then (st, Conflict)
      else (st.(sources := st.sources[..i] + st.sources[i + 1..], servers := NotFrom(st.servers, id)), Done)
  }

  /** Neither the type nor the members of a patched group are checked. */
  function PatchGroupStep(st: State, id: string, g: GroupIn): (State, Response) {
    match IndexOfGroup(st.groups, id)
    case None => (st, NotFound)
    case Some(i) =>
      if g.name == "" || HasPrefix(g.name, "rt:") then (st, BadRequest)
      else
        (st.(groups := st.groups[i := st.groups[i].(name := g.name, kind := g.kind, members := g.members)]), Done)
  }

  /** The built-in bucket of pasted servers: the first manual source, created on first use. */
  function WithManual(st: State): (State, string) {
    match IndexWhere(st.sources, (s: Source) => s.kind.Manual?)
    case Some(i) => (st, st.sources[i].id)
    case None =>
      var id := NewId("sub", AllIds(st));
      (st.(sources := st.sources + [Source(id, Manual, "Manual", "", true, 0, Never, 0, Never, false, None)]), id)
  }

  /** Pasted links are merged like an answer of the manual source: what they lack ages. */
  function CreateServersStep(hash: IdHash, st: State, proxies: seq<Raw>): (State, Response) {
    var (st1, src) := WithManual(st);
    if forall p | p in proxies :: !Usable(p) then (st, Conflict)
    else (st1.(servers := Merged(hash, st1.servers, src, proxies)), Done)
  }

  /** The import of a whole state document: the compiler is the only judge. */
  function ReplaceStep(lib: Library, known: Option<set<string>>, st: State, doc: State): (State, Response) {
    if Build.Checked(Compiled(lib, doc), known).Ok? then (doc, Done) else (st, Conflict)
  }

  function DeleteServerStep(st: State, id: string): (State, Response) {
    match IndexOfServer(st.servers, id)
    case None => (st, NotFound)
    case Some(i) =>
      if Targeted(st.routes, id) then (st, Conflict)
      else (st.(groups := Stripped(st.groups, id, false), servers := st.servers[..i] + st.servers[i + 1..]), Done)
  }

  function DeleteGroupStep(st: State, id: string): (State, Response) {
    match IndexOfGroup(st.groups, id)
    case None => (st, NotFound)
    case Some(i) =>
      if Targeted(st.routes, id) then (st, Conflict)
      else
        var groups := Stripped(st.groups, id, true);
        (st.(groups := groups[..i] + groups[i + 1..]), Done)
  }

  lemma NothingUsable(proxies: seq<Raw>)
    ensures |AnswerKeys(proxies)| == 0 <==> forall p | p in proxies :: !Usable(p)
  {
    if p :| p in proxies && Usable(p) { assert KeyOf(p) in AnswerKeys(proxies); }
  }

  // ---------------------------------------------------------------- the handlers

  class Handlers {
    var st: State
    const lib: Library
    const known: Option<set<string>>

    constructor (st: State, lib: Library, known: Option<set<string>>)
      ensures this.st == st && this.lib == lib && this.known == known
    {
      this.st, this.lib, this.known := st, lib, known;
    }

    method HandleGroupsCreate(g: GroupIn) returns (resp: Response)
      modifies this`st
      ensures (st, resp) == CreateGroupStep(old(st), g)
    {
      hide NewId, AllIds, IdText, ExistsServer, ExistsGroup, HasPrefix;
      if g.name == "" || HasPrefix(g.name, "rt:") || g.kind.UnknownGroupType? || |g.members| == 0 { return BadRequest; }
      for i := 0 to |g.members|
        invariant forall j | 0 <= j < i ::
          g.members[j] != "" && (ExistsServer(st, g.members[j]) || ExistsGroup(st, g.members[j]))
      {
        if g.members[i] == "" { return BadRequest; }
        if !ExistsServer(st, g.members[i]) && !ExistsGroup(st, g.members[i]) { return BadRequest; }
      }
      var id, probes := MintId("grp", st);
      st := st.(groups := st.groups + [Group(id, g.name, g.kind, g.members)]);
      return Done;
    }

    method HandleRoutesCreate(r: RouteIn) returns (resp: Response)
      modifies this`st
      ensures (st, resp) == CreateRouteStep(lib, known, old(st), r)
    {
      hide ValidateRoute, NewId, AllIds, MaxOrder, IdText, OnUnavailableAccepted;
      var cs, ps := Or(r.conditions, []), Or(r.providers, []);
      resp := ValidateRoute(lib, st, known, r.name, cs, ps, r.target);
      if !resp.Done? { return; }
      var id, probes := MintId("rt", st);
      var order := NextOrder(st.routes);
      var rt := Route(id, r.name, true, order, cs, r.target.value, "block", ps);
      if r.enabled.Some? { rt := rt.(enabled := r.enabled.value); }
      if r.order.Some? { rt := rt.(order := r.order.value); }
      if r.onUnavailable.Some? {
        if !OnUnavailableAccepted(r.onUnavailable.value) { return BadRequest; }
        rt := rt.(onUnavailable := r.onUnavailable.value);
      }
      st := st.(routes := st.routes + [rt]);
    }

    /** The merged route is written into the loaded document and validated there; a refusal
        leaves the saved document as it was. */
    method HandleRoutePatch(id: string, r: RouteIn) returns (resp: Response)
      modifies this`st
      ensures (st, resp) == PatchRouteStep(lib, known, old(st), id, r)
    {
      hide ValidateRoute, IndexOfRoute, OnUnavailableAccepted;
      var idx := FindRoute(id);
      if idx == |st.routes| { return NotFound; }
      if r.name == "" || (r.conditions.None? && r.providers.None? && r.target.None?) { return BadRequest; }
      if r.onUnavailable.Some? && !OnUnavailableAccepted(r.onUnavailable.value) { return BadRequest; }
      var rt := MergedRoute(st.routes[idx], r);
      var next := st.(routes := st.routes[idx := rt]);
      resp := ValidateRoute(lib, next, known, rt.name, rt.conditions, rt.providers, Some(rt.target));
      if resp.Done? { st := next; }
    }

    /** The fields that were sent replace the stored ones. */
    method MergedRoute(stored: Route, r: RouteIn) returns (rt: Route)
      ensures rt == Patched(stored, r)
    {
      rt := stored.(name := r.name);
      if r.conditions.Some? { rt := rt.(conditions := r.conditions.value); }
      if r.providers.Some? { rt := rt.(providers := r.providers.value); }
      if r.target.Some? { rt := rt.(target := r.target.value); }
      if r.enabled.Some? { rt := rt.(enabled := r.enabled.value); }
      if r.order.Some? { rt := rt.(order := r.order.value); }
      if r.onUnavailable.Some? { rt := rt.(onUnavailable := r.onUnavailable.value); }
    }

    method HandleRouteDelete(id: string) returns (resp: Response)
      modifies this`st
      ensures (st, resp) == DeleteRouteStep(old(st), id)
    {
      var idx := FindRoute(id);
      if idx == |st.routes| { return NotFound; }
      st := st.(routes := st.routes[..idx] + st.routes[idx + 1..]);
      return Done;
    }

    /** The lookup of both route handlers. */
    method FindRoute(id: string) returns (idx: nat)
      ensures idx <= |st.routes|
      ensures IndexOfRoute(st.routes, id) == if idx < |st.routes| then Some(idx) else None
    {
      idx := 0;
      while idx < |st.routes| && st.routes[idx].id != id
        invariant idx <= |st.routes| && forall j | 0 <= j < idx :: st.routes[j].id != id
      {
        idx := idx + 1;
      }
    }

    method HandleTemplateApply(t: Templates.Template, target: Target) returns (resp: Response)
      modifies this`st
      ensures (st, resp) == ApplyTemplateStep(old(st), t, target)
    {
      hide ValidateTarget, NewId, AllIds, MaxOrder, IdText;
      if t.id in st.settings.disabledTemplates { return Conflict; }
      resp := ValidateTarget(st, target);
      if !resp.Done? { return; }
      if t.id == "all-vpn" {
        st := st.(settings := st.settings.(defaultPolicy := target));
        return;
      }
      var id, probes := MintId("rt", st);
      var order := NextOrder(st.routes);
      st := st.(routes := st.routes + [Route(id, t.name, true, order, t.conditions, target, "block", t.providers)]);
    }

    method HandleServerUpdate(id: string, name: string, address: string, patch: Raw) returns (resp: Response)
      modifies this`st
      ensures (st, resp) == EditServerStep(old(st), id, name, address, patch)
    {
      hide TrimSpace, IndexOfServer;
      var trimmed := TrimSpace(name);
      if trimmed == "" { return BadRequest; }
      var idx := 0;
      while idx < |st.servers| && st.servers[idx].id != id
        invariant idx <= |st.servers| && forall j | 0 <= j < idx :: st.servers[j].id != id
      {
        idx := idx + 1;
      }
      if idx == |st.servers| { return NotFound; }
      for k := 0 to |st.servers|
        invariant forall j | 0 <= j < k :: st.servers[j].id == id || st.servers[j].name != trimmed
      {
        if st.servers[k].id != id && st.servers[k].name == trimmed { return Conflict; }
      }
      var s := st.servers[idx].(name := trimmed);
      if TrimSpace(address) != "" { s := s.(raw := s.raw["server" := Str(TrimSpace(address))]); }
      s := s.(raw := s.raw + (patch - {"server", "name"}));
      st := st.(servers := st.servers[idx := s]);
      return Done;
    }

    method HandleServerDelete(id: string) returns (resp: Response)
      modifies this`st
      ensures (st, resp) == DeleteServerStep(old(st), id)
    {
      var idx := 0;
      while idx < |st.servers| && st.servers[idx].id != id
        invariant idx <= |st.servers| && forall j | 0 <= j < idx :: st.servers[j].id != id
      {
        idx := idx + 1;
      }
      if idx == |st.servers| { return NotFound; }
      if Targeted(st.routes, id) { return Conflict; }
      var groups := StripMembers(id, false);
      st := st.(groups := groups, servers := st.servers[..idx] + st.servers[idx + 1..]);
      return Done;
    }

    method HandleGroupDelete(id: string) returns (resp: Response)
      modifies this`st
      ensures (st, resp) == DeleteGroupStep(old(st), id)
    {
      var idx := 0;
      while idx < |st.groups| && st.groups[idx].id != id
        invariant idx <= |st.groups| && forall j | 0 <= j < idx :: st.groups[j].id != id
      {
        idx := idx + 1;
      }
      if idx == |st.groups| { return NotFound; }
      if Targeted(st.routes, id) { return Conflict; }
      var groups := StripMembers(id, true);
      st := st.(groups := groups[..idx] + groups[idx + 1..]);
      return Done;
    }

    method HandleGroupPatch(id: string, g: GroupIn) returns (resp: Response)
      modifies this`st
      ensures (st, resp) == PatchGroupStep(old(st), id, g)
    {
      var idx := 0;
      while idx < |st.groups| && st.groups[idx].id != id
        invariant idx <= |st.groups| && forall j | 0 <= j < idx :: st.groups[j].id != id
      {
        idx := idx + 1;
      }
      if idx == |st.groups| { return NotFound; }
      if g.name == "" { return BadRequest; }
      if HasPrefix(g.name, "rt:") { return BadRequest; }
      var patched := st.groups[idx].(name := g.name, kind := g.kind, members := g.members);
      st := st.(groups := st.groups[idx := patched]);
      return Done;
    }

    method HandleSourceDelete(id: string) returns (resp: Response)
      modifies this`st
      ensures (st, resp) == DeleteSourceStep(old(st), id)
    {
      var idx := 0;
      while idx < |st.sources| && st.sources[idx].id != id
        invariant idx <= |st.sources| && forall j | 0 <= j < idx :: st.sources[j].id != id
      {
        idx := idx + 1;
      }
      if idx == |st.sources| { return NotFound; }
      if Targeted(st.routes, id) { return Conflict; }
      var servers := [];
      for i := 0 to |st.servers|
        invariant st == old(st) && servers == NotFrom(st.servers[..i], id)
      {
        Prefixes(st.servers, i);
        if st.servers[i].sourceId != id { servers := servers + [st.servers[i]]; }
      }
      assert st.servers[..|st.servers|] == st.servers;
      st := st.(sources := st.sources[..idx] + st.sources[idx + 1..], servers := servers);
      return Done;
    }

    method HandleServersCreate(hash: IdHash, proxies: seq<Raw>) returns (resp: Response)
      modifies this`st
      ensures (st, resp) == CreateServersStep(hash, old(st), proxies)
    {
      hide NewId, AllIds, Merged, Usable, ServerId;
      var idx := 0;
      while idx < |st.sources| && !st.sources[idx].kind.Manual?
        invariant idx <= |st.sources| && forall j | 0 <= j < idx :: !st.sources[j].kind.Manual?
      {
        idx := idx + 1;
      }
      var src, sources := "", st.sources;
      if idx < |st.sources| {
        src := st.sources[idx].id;
      } else {
        var id, probes := MintId("sub", st);
        src, sources := id, sources + [Source(id, Manual, "Manual", "", true, 0, Never, 0, Never, false, None)];
      }
      var live := new LiveState(sources, st.servers);
      var res := live.Merge(hash, src, proxies);
      NothingUsable(proxies);
      if res.added + res.updated == 0 { return Conflict; }
      st := st.(sources := sources, servers := live.servers);
      return Done;
    }

    method HandleImport(doc: State) returns (resp: Response)
      modifies this`st
      ensures (st, resp) == ReplaceStep(lib, known, old(st), doc)
    {
      hide Compiled, Build.Checked;
      var generated := Build.GenerateWithProviders(lib, doc, known);
      if generated.Err? { return Conflict; }
      st := doc;
      return Done;
    }

    /** The member loops of both deletions. */
    method StripMembers(id: string, spareOwn: bool) returns (groups: seq<Group>)
      ensures groups == Stripped(st.groups, id, spareOwn)
    {
      groups := st.groups;
      for i := 0 to |st.groups|
        invariant |groups| == |st.groups|
        invariant forall j | 0 <= j < i :: groups[j] == Stripped(st.groups, id, spareOwn)[j]
        invariant forall j | i <= j < |groups| :: groups[j] == st.groups[j]
      {
        if !spareOwn || groups[i].id != id {
          var list := groups[i].members;
          var members := new string[|list|](k requires 0 <= k < |list| => list[k]);
          assert members[..] == list;
          var n := RemoveString(members, id);
          groups := groups[i := groups[i].(members := members[..n])];
        }
      }
    }
  }
}
