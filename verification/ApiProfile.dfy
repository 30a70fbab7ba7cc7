/** How edits through the API and the profile compiler meet: which losses a linked state can have,
    and when a deletion leaves a compilable state compilable. */
module ApiProfile {
  import opened Text
  import opened Model
  import opened Ids
  import opened Api
  import opened Generator
  import opened WellFormedness
  import opened Merge
  import opened MergeIds
  import opened ApiSafety
  import Build
  import Import

  /** A target that exists is usable unless it is a server that is stale, switched off or empty. */
  lemma ExistingTarget(st: State, t: Target)
    requires Resolves(st, t)
    ensures GoodTarget(st, t) <==> (t.kind.ToServer? ==> UsableServer(st, t.id))
  {
  }

  /** In a linked state the only routes reported as lost point at servers that exist but cannot
      be used; no group target and no unknown target type is ever reported. */
  lemma LinkedLosesOnlyServers(lib: Library, st: State, l: Lost)
    requires Linked(st)
    ensures l in Report(lib, st).lost
        <==> exists rt | rt in st.routes && rt.enabled && rt.target.kind.ToServer? && !UsableServer(st, rt.target.id) ::
               l == Lost(rt.id, ServerGone(rt.target.id))
  {
    hide Report, Resolves, UsableServer, GoodTarget;
    LostExactly(lib, st, l);
    forall rt | rt in st.routes
      ensures GoodTarget(st, rt.target) <==> (rt.target.kind.ToServer? ==> UsableServer(st, rt.target.id))
    {
      ExistingTarget(st, rt.target);
    }
  }

  // ---------------------------------------------------------------- deletions

  /** No ID is carried twice, no group is nameless, and nothing has the empty ID. */
  ghost predicate Tidy(st: State) {
    && DistinctServers(st.servers)
    && (forall i, j | 0 <= i < j < |st.groups| :: st.groups[i].id != st.groups[j].id)
    && (forall i, j | 0 <= i < |st.servers| && 0 <= j < |st.groups| :: st.servers[i].id != st.groups[j].id)
    && (forall g | g in st.groups :: g.name != "")
    && !Member(st, "")
  }

  lemma NamedGroupsAreMembers(st: State, id: string)
    requires forall g | g in st.groups :: g.name != ""
    ensures UsableAsMember(st, id) <==> UsableServer(st, id) || HasGroup(st, id)
  {
    if HasGroup(st, id) {
      var i := LastGroup(st.groups, id);
      assert st.groups[i] in st.groups;
    }
  }

  /** What decides whether the profile survives a deletion: no group consists of the deleted object
      alone, and the default policy does not point at it. */
  ghost predicate Expendable(st: State, id: string) {
    && (forall g | g in st.groups && g.id != id :: exists m | m in g.members :: m != id)
    && (st.settings.defaultPolicy.kind.ToServer? || st.settings.defaultPolicy.kind.ToGroup? ==>
          st.settings.defaultPolicy.id != id)
  }

  /** The two states differ by one object only. */
  ghost predicate LessOne(st: State, next: State, id: string) {
    && next.settings == st.settings && next.routes == st.routes
    && (forall m :: UsableServer(next, m) <==> UsableServer(st, m) && m != id)
    && (forall m :: HasGroup(next, m) <==> HasGroup(st, m) && m != id)
    && (forall srv | ActiveServer(next, srv) :: ActiveServer(st, srv))
    && (forall g | g in next.groups ::
          exists was | was in st.groups && was.id != id :: g == was.(members := Without(was.members, id)))
    && (forall was | was in st.groups && was.id != id :: was.(members := Without(was.members, id)) in next.groups)
    && (forall rt | rt in st.routes :: rt.target.id != id)
  }

  lemma GroupLessOne(st: State, next: State, id: string, was: Group)
    requires WellFormedGroups(st) && NamedGroups(st) && NamedGroups(next)
    requires forall m :: UsableServer(next, m) <==> UsableServer(st, m) && m != id
    requires forall m :: HasGroup(next, m) <==> HasGroup(st, m) && m != id
    requires was in st.groups && was.id != id
    ensures GoodGroup(next, was.(members := Without(was.members, id))) <==> exists m | m in was.members :: m != id
  {
    hide Without, UsableServer, HasGroup, UsableAsMember;
    var g := was.(members := Without(was.members, id));
    assert GoodGroup(st, was);
    forall m | m in was.members && m != id ensures UsableAsMember(next, m) && m != g.id {
      assert UsableAsMember(st, m);
      NamedGroupsAreMembers(st, m);
      NamedGroupsAreMembers(next, m);
    }
    if m :| m in was.members && m != id { assert m in g.members; }
    if |g.members| > 0 { assert g.members[0] in g.members; }
  }

  ghost predicate WellFormedGroups(st: State) {
    forall g | g in st.groups :: GoodGroup(st, g)
  }

  ghost predicate NamedGroups(st: State) {
    forall g | g in st.groups :: g.name != ""
  }

  lemma TargetLessOne(st: State, next: State, id: string, t: Target)
    requires LessOne(st, next, id) && GoodTarget(st, t)
    ensures GoodTarget(next, t) <==> (t.kind.ToServer? || t.kind.ToGroup? ==> t.id != id)
  {
    hide UsableServer, HasGroup, ActiveServer, Without;
  }

  lemma SurvivesLessOne(lib: Library, st: State, next: State, id: string)
    requires WellFormed(lib, st) && NamedGroups(st) && LessOne(st, next, id)
    ensures WellFormed(lib, next) <==> Expendable(st, id)
  {
    hide Without, UsableServer, HasGroup, ActiveServer, GoodGroup, GoodTarget, GoodCondition, ValidProvider,
      ProviderUses, GoodGeoSource;
    assert NamedGroups(next);
    assert WellFormedGroups(st);
    forall was | was in st.groups && was.id != id
      ensures GoodGroup(next, was.(members := Without(was.members, id))) <==> exists m | m in was.members :: m != id
    { GroupLessOne(st, next, id, was); }
    TargetLessOne(st, next, id, st.settings.defaultPolicy);
    forall rt | rt in st.routes && rt.enabled ensures GoodRoute(lib, next, rt) {
      assert GoodRoute(lib, st, rt);
      TargetLessOne(st, next, id, rt.target);
    }
  }

  lemma ServerDeletionIsLessOne(st: State, id: string)
    requires Tidy(st) && DeleteServerStep(st, id).1.Done?
    ensures LessOne(st, DeleteServerStep(st, id).0, id)
  {
    hide Without, Targeted, Stripped;
    var next := DeleteServerStep(st, id).0;
    var k := IndexOfServer(st.servers, id).value;
    UntargetedMeans(st.routes, id);
    assert forall srv :: srv in next.servers <==> srv in st.servers && srv.id != id;
    UsableLessOne(st, next, id);
  }

  lemma UsableLessOne(st: State, next: State, id: string)
    requires next.sources == st.sources
    requires forall srv :: srv in next.servers <==> srv in st.servers && srv.id != id
    ensures forall m :: UsableServer(next, m) <==> UsableServer(st, m) && m != id
    ensures forall srv | ActiveServer(next, srv) :: ActiveServer(st, srv)
  {
    forall srv ensures ActiveServer(next, srv) <==> ActiveServer(st, srv) && srv.id != id {
      assert ActiveSource(next, srv.sourceId) <==> ActiveSource(st, srv.sourceId);
    }
  }

  /** Deleting a server nothing routes to keeps the state compilable iff no group consisted of that
      server alone and the default policy does not use it. */
  lemma ServerDeletionCompilesIff(lib: Library, st: State, id: string)
    requires Tidy(st) && Compiled(lib, st).Ok? && DeleteServerStep(st, id).1.Done?
    ensures Compiled(lib, DeleteServerStep(st, id).0).Ok? <==> Expendable(st, id)
  {
    hide Compiled, WellFormed, LessOne, DeleteServerStep, Expendable;
    CompilesIff(lib, st);
    ServerDeletionIsLessOne(st, id);
    SurvivesLessOne(lib, st, DeleteServerStep(st, id).0, id);
    CompilesIff(lib, DeleteServerStep(st, id).0);
  }

  lemma GroupDeletionIsLessOne(st: State, id: string)
    requires Tidy(st) && DeleteGroupStep(st, id).1.Done?
    ensures LessOne(st, DeleteGroupStep(st, id).0, id)
  {
    hide Without, Targeted, UsableServer;
    var next := DeleteGroupStep(st, id).0;
    var k := IndexOfGroup(st.groups, id).value;
    UntargetedMeans(st.routes, id);
    assert forall srv | srv in st.servers :: srv.id != id;
    UsableLessOne(st, next, id);
  }

  /** The same for a group. */
  lemma GroupDeletionCompilesIff(lib: Library, st: State, id: string)
    requires Tidy(st) && Compiled(lib, st).Ok? && DeleteGroupStep(st, id).1.Done?
    ensures Compiled(lib, DeleteGroupStep(st, id).0).Ok? <==> Expendable(st, id)
  {
    hide Compiled, WellFormed, LessOne, DeleteGroupStep, Expendable;
    CompilesIff(lib, st);
    GroupDeletionIsLessOne(st, id);
    SurvivesLessOne(lib, st, DeleteGroupStep(st, id).0, id);
    CompilesIff(lib, DeleteGroupStep(st, id).0);
  }

  // ---------------------------------------------------------------- tidiness is kept

  lemma {:induction false} NotFromDistinct(servers: seq<Server>, sid: string)
    requires DistinctServers(servers)
    ensures DistinctServers(NotFrom(servers, sid))
  {
    if |servers| > 0 {
      var init, s := servers[..|servers| - 1], servers[|servers| - 1];
      NotFromDistinct(init, sid);
      var kept := NotFrom(init, sid);
      forall i | 0 <= i < |kept| ensures kept[i].id != s.id { assert kept[i] in init; }
    }
  }

  /** Tidiness survives when no server or group is added, none changes its ID and no group loses
      its name. */
  lemma FewerObjectsTidy(st: State, next: State)
    requires Tidy(st)
    requires DistinctServers(next.servers)
    requires forall i, j | 0 <= i < j < |next.groups| :: next.groups[i].id != next.groups[j].id
    requires forall id | ExistsServer(next, id) :: ExistsServer(st, id)
    requires forall id | ExistsGroup(next, id) :: ExistsGroup(st, id)
    requires forall g | g in next.groups :: g.name != ""
    ensures Tidy(next)
  {
    forall i, j | 0 <= i < |next.servers| && 0 <= j < |next.groups| ensures next.servers[i].id != next.groups[j].id {
      assert ExistsServer(next, next.servers[i].id) && ExistsGroup(next, next.groups[j].id);
      var k :| 0 <= k < |st.servers| && st.servers[k].id == next.servers[i].id;
      var l :| 0 <= l < |st.groups| && st.groups[l].id == next.groups[j].id;
    }
  }

  lemma SameObjectsTidy(st: State, next: State)
    requires Tidy(st) && next.servers == st.servers && next.groups == st.groups
    ensures Tidy(next)
  {
    hide ExistsServer, ExistsGroup;
    assert Member(next, "") <==> Member(st, "") by { SameServers(st, next); SameGroupIds(st, next); }
  }

  lemma NewGroupTidy(st: State, g: GroupIn)
    requires Tidy(st)
    ensures Tidy(CreateGroupStep(st, g).0)
  {
    hide NewId, HasPrefix;
    var next := CreateGroupStep(st, g).0;
    if CreateGroupStep(st, g).1.Done? {
      var id := NewId("grp", AllIds(st));
      NewIdIsText("grp", AllIds(st));
      assert forall s | s in st.servers :: s.id != id;
      assert forall x | x in st.groups :: x.id != id;
      NewGroup(st, next, Group(id, g.name, g.kind, g.members));
    }
  }

  lemma DeleteServerTidy(st: State, id: string)
    requires Tidy(st)
    ensures Tidy(DeleteServerStep(st, id).0)
  {
    hide Without, Targeted, ExistsServer, ExistsGroup;
    var next := DeleteServerStep(st, id).0;
    if DeleteServerStep(st, id).1.Done? {
      OthersStay(st, next, id);
      SameGroupIds(st, next);
      DropServer(st, next, IndexOfServer(st.servers, id).value);
      FewerObjectsTidy(st, next);
    }
  }

  lemma DeleteGroupTidy(st: State, id: string)
    requires Tidy(st)
    ensures Tidy(DeleteGroupStep(st, id).0)
  {
    hide Without, Targeted, ExistsServer, ExistsGroup, Stripped;
    var next := DeleteGroupStep(st, id).0;
    if DeleteGroupStep(st, id).1.Done? {
      DropGroup(st, next, Stripped(st.groups, id, true), IndexOfGroup(st.groups, id).value);
      forall g | g in next.groups ensures g.name != "" { RemainingGroups(st, next, id, g); }
      FewerObjectsTidy(st, next);
    }
  }

  lemma PatchGroupTidy(st: State, id: string, g: GroupIn)
    requires Tidy(st)
    ensures Tidy(PatchGroupStep(st, id, g).0)
  {
    hide HasPrefix, ExistsServer, ExistsGroup;
    var next := PatchGroupStep(st, id, g).0;
    if PatchGroupStep(st, id, g).1.Done? {
      SameGroupIds(st, next);
      SameServers(st, next);
      FewerObjectsTidy(st, next);
    }
  }

  lemma EditServerTidy(st: State, id: string, name: string, address: string, patch: Raw)
    requires Tidy(st)
    ensures Tidy(EditServerStep(st, id, name, address, patch).0)
  {
    hide TrimSpace, EditedRaw;
    var next := EditServerStep(st, id, name, address, patch).0;
    assert |next.servers| == |st.servers| && forall i | 0 <= i < |st.servers| :: next.servers[i].id == st.servers[i].id;
    FewerObjectsTidy(st, next);
  }

  lemma DeleteSourceTidy(st: State, id: string)
    requires Tidy(st)
    ensures Tidy(DeleteSourceStep(st, id).0)
  {
    hide Targeted;
    var next := DeleteSourceStep(st, id).0;
    if DeleteSourceStep(st, id).1.Done? {
      NotFromDistinct(st.servers, id);
      ElsewhereIff(st, next, id);
      FewerObjectsTidy(st, next);
    }
  }

  /** The IDs a merge mints are free among servers and groups. */
  ghost predicate MergeTidy(hash: IdHash, st: State, src: string, answer: seq<Raw>) {
    && NewIdsFree(hash, st.servers, src, answer)
    && forall k, g | Brings(st.servers, src, answer, k) && g in st.groups :: g.id != ServerId(hash, src, k)
  }

  ghost predicate Disjoint(st: State) {
    forall id :: !(ExistsServer(st, id) && ExistsGroup(st, id))
  }

  lemma DisjointIff(st: State)
    ensures Disjoint(st) <==>
      forall i, j | 0 <= i < |st.servers| && 0 <= j < |st.groups| :: st.servers[i].id != st.groups[j].id
  {
    if Disjoint(st) {
      forall i, j | 0 <= i < |st.servers| && 0 <= j < |st.groups| ensures st.servers[i].id != st.groups[j].id {
        assert !(ExistsServer(st, st.servers[i].id) && ExistsGroup(st, st.servers[i].id));
      }
    }
  }

  lemma MergeDisjointIff(hash: IdHash, st: State, next: State, src: string, answer: seq<Raw>)
    requires Disjoint(st) && next.groups == st.groups && next.servers == Merged(hash, st.servers, src, answer)
    ensures Disjoint(next)
        <==> forall k, g | Brings(st.servers, src, answer, k) && g in st.groups :: g.id != ServerId(hash, src, k)
  {
    hide Merged, Brings, ServerId, Dropped;
    forall id ensures ExistsServer(next, id) <==> Stays(hash, st.servers, src, answer, id) {
      CarriesIff(next, id);
      MergedIds(hash, st.servers, src, answer, id);
    }
    assert forall id :: ExistsGroup(next, id) <==> ExistsGroup(st, id) by { SameGroupIds(st, next); }
    if Disjoint(next) {
      forall k, g | Brings(st.servers, src, answer, k) && g in st.groups ensures g.id != ServerId(hash, src, k) {
        assert Stays(hash, st.servers, src, answer, ServerId(hash, src, k));
        assert !(ExistsServer(next, g.id) && ExistsGroup(next, g.id));
      }
    } else {
      var id :| ExistsServer(next, id) && ExistsGroup(next, id);
      if s :| s in st.servers && s.id == id && !Dropped(s, src, answer) {
        CarriesIff(st, id);
        assert !(ExistsServer(st, id) && ExistsGroup(st, id));
      }
    }
  }

  /** A merge keeps the document tidy iff the IDs it mints are free and different. */
  lemma MergeTidyIff(hash: IdHash, st: State, next: State, src: string, answer: seq<Raw>)
    requires Tidy(st) && next.groups == st.groups && next.servers == Merged(hash, st.servers, src, answer)
    ensures Tidy(next) <==> MergeTidy(hash, st, src, answer)
  {
    hide Merged, NewIdsFree, Brings, ServerId, Disjoint, Stays, ExistsServer, ExistsGroup, DistinctServers;
    MergeDistinctIff(hash, st.servers, src, answer);
    DisjointIff(st);
    DisjointIff(next);
    MergeDisjointIff(hash, st, next, src, answer);
    NoEmptyIdStays(hash, st, src, answer);
    CarriesIff(next, "");
    MergedIds(hash, st.servers, src, answer, "");
    SameGroupIds(st, next);
  }

  /** What keeps the document tidy: merges must mint free IDs, an imported document brings its own. */
  ghost predicate TidyCareful(lib: Library, hash: IdHash, st: State, c: Command) {
    match c
    case CreateServers(proxies) =>
      CreateServersStep(hash, st, proxies).1.Done? ==> MergeTidy(hash, st, WithManual(st).1, proxies)
    case RefreshSource(sid, answer) => MergeTidy(hash, st, sid, answer)
    case ReplaceState(known, doc) => ReplaceStep(lib, known, st, doc).1.Done? ==> Tidy(doc)
    case _ => true
  }

  lemma CreateServersTidyIff(hash: IdHash, st: State, proxies: seq<Raw>)
    requires Tidy(st) && CreateServersStep(hash, st, proxies).1.Done?
    ensures Tidy(CreateServersStep(hash, st, proxies).0) <==> MergeTidy(hash, st, WithManual(st).1, proxies)
  {
    hide Tidy, MergeTidy, Merged, NewId, Usable;
    MergeTidyIff(hash, st, CreateServersStep(hash, st, proxies).0, WithManual(st).1, proxies);
  }

  lemma StepKeepsTidyIff(lib: Library, hash: IdHash, st: State, c: Command)
    requires Tidy(st)
    ensures Tidy(Step(lib, hash, st, c)) <==> TidyCareful(lib, hash, st, c)
  {
    hide Tidy, CreateGroupStep, EditServerStep, DeleteServerStep, DeleteGroupStep, PatchGroupStep, DeleteSourceStep,
      Import.ImportRules, ValidateRoute, ValidateTarget, NewId, CreateServersStep, WithManual, MergeTidy, Compiled,
      Build.Checked, Merged, Import.RuleCondition, Import.AskedTarget, TrimSpace;
    RefusedChangesNothing(lib, hash, st, c);
    match c
    case CreateGroup(g) => NewGroupTidy(st, g);
    case EditServer(id, name, address, patch) => EditServerTidy(st, id, name, address, patch);
    case DeleteServer(id) => DeleteServerTidy(st, id);
    case DeleteGroup(id) => DeleteGroupTidy(st, id);
    case PatchGroup(id, g) => PatchGroupTidy(st, id, g);
    case DeleteSource(id) => DeleteSourceTidy(st, id);
    case CreateServers(proxies) =>
      if CreateServersStep(hash, st, proxies).1.Done? { CreateServersTidyIff(hash, st, proxies); }
    case RefreshSource(sid, answer) => MergeTidyIff(hash, st, Step(lib, hash, st, c), sid, answer);
    case ReplaceState(known, doc) =>
    case ImportExternal(rules) =>
      Import.ImportConserves(lib, st, rules);
      SameObjectsTidy(st, Step(lib, hash, st, c));
    case _ => SameObjectsTidy(st, Step(lib, hash, st, c));
  }

  ghost predicate TidyRun(lib: Library, hash: IdHash, st: State, cs: seq<Command>) {
    |cs| == 0
    || (TidyRun(lib, hash, st, cs[..|cs| - 1])
        && TidyCareful(lib, hash, Run(lib, hash, st, cs[..|cs| - 1]), cs[|cs| - 1]))
  }

  /** The hypotheses of the deletion theorems hold after every run whose merges and document imports
      bring no ID twice. */
  lemma {:induction false} RunKeepsTidy(lib: Library, hash: IdHash, st: State, cs: seq<Command>)
    requires Tidy(st) && TidyRun(lib, hash, st, cs)
    ensures Tidy(Run(lib, hash, st, cs))
  {
    if |cs| > 0 {
      hide Tidy, Step, TidyCareful;
      RunKeepsTidy(lib, hash, st, cs[..|cs| - 1]);
      StepKeepsTidyIff(lib, hash, Run(lib, hash, st, cs[..|cs| - 1]), cs[|cs| - 1]);
    }
  }
}
