/** Route IDs over runs: what the compiler and importer theorems ask of them is kept by every step
    but the import of a document that lacks it. */
module ApiRoutes {
  import opened Prelude
  import opened Text
  import opened Model
  import opened Ids
  import opened Api
  import opened Import
  import opened ApiSafety
  import opened Generator
  import opened Merge
  import opened FailClosed
  import Build
  import RuleLine
  import Templates

  /** An ID that is neither the default group's nor able to disturb a rule line or a name. */
  predicate PlainId(id: string) {
    && id != "" && id != "default" && ',' !in id && '[' !in id
    && !IsSpace(id[|id| - 1])
  }

  ghost predicate PlainRoutes(st: State) {
    && (forall i, j | 0 <= i < j < |st.routes| :: st.routes[i].id != st.routes[j].id)
    && (forall i | 0 <= i < |st.routes| :: PlainId(st.routes[i].id))
  }

  lemma PlainMeans(st: State)
    requires PlainRoutes(st)
    ensures BracketFree(st)
    ensures forall rt | rt in st.routes :: rt.id != "default" && ',' !in rt.id && !IsSpace(rt.id[|rt.id| - 1])
    ensures forall x, y | x in st.routes && y in st.routes && x.id == y.id :: x == y
  {
  }

  lemma MintedIsPlain(ids: set<string>)
    ensures PlainId(NewId("rt", ids))
  {
    var n := FirstFree("rt", ids, 1);
    var id := IdText("rt", n);
    assert id[0] == 'r' && id[2] == '_' && "default"[0] == 'd';
    assert id == "rt_" + Itoa(n);
    forall i | 0 <= i < |id| ensures id[i] != ',' && id[i] != '[' && (i >= 3 ==> '0' <= id[i] <= '9') {
      assert i >= 3 ==> id[i] == Itoa(n)[i - 3];
    }
  }

  lemma NewRoutePlain(st: State, next: State, rt: Route)
    requires PlainRoutes(st) && next.routes == st.routes + [rt] && rt.id == NewId("rt", AllIds(st))
    ensures PlainRoutes(next)
  {
    hide PlainId, NewId;
    MintedIsPlain(AllIds(st));
    forall i | 0 <= i < |st.routes| ensures st.routes[i].id != rt.id { assert st.routes[i] in st.routes; }
  }

  lemma CreateRoutePlain(lib: Library, known: Option<set<string>>, st: State, r: RouteIn)
    requires PlainRoutes(st)
    ensures PlainRoutes(CreateRouteStep(lib, known, st, r).0)
  {
    hide PlainRoutes, ValidateRoute, NewId;
    var next := CreateRouteStep(lib, known, st, r).0;
    if CreateRouteStep(lib, known, st, r).1.Done? { NewRoutePlain(st, next, next.routes[|st.routes|]); }
  }

  lemma ApplyTemplatePlain(st: State, t: Templates.Template, target: Target)
    requires PlainRoutes(st)
    ensures PlainRoutes(ApplyTemplateStep(st, t, target).0)
  {
    hide ValidateTarget, NewId, PlainId;
    var next := ApplyTemplateStep(st, t, target).0;
    if next.routes != st.routes { NewRoutePlain(st, next, next.routes[|st.routes|]); }
  }

  lemma PatchRoutePlain(lib: Library, known: Option<set<string>>, st: State, id: string, r: RouteIn)
    requires PlainRoutes(st)
    ensures PlainRoutes(PatchRouteStep(lib, known, st, id, r).0)
  {
    hide ValidateRoute, PlainId;
    var next := PatchRouteStep(lib, known, st, id, r).0;
    assert |next.routes| == |st.routes| && forall i | 0 <= i < |st.routes| :: next.routes[i].id == st.routes[i].id;
  }

  lemma DeleteRoutePlain(st: State, id: string)
    requires PlainRoutes(st)
    ensures PlainRoutes(DeleteRouteStep(st, id).0)
  {
    hide PlainId;
    var next := DeleteRouteStep(st, id).0;
    if next.routes != st.routes {
      var k := IndexOfRoute(st.routes, id).value;
      assert forall i | 0 <= i < |next.routes| :: next.routes[i] == st.routes[if i < k then i else i + 1];
    }
  }

  lemma {:induction false} ImportPlain(lib: Library, st: State, rules: seq<RuleLine.External>)
    requires PlainRoutes(st)
    ensures PlainRoutes(ImportRules(lib, st, rules).st)
  {
    if |rules| > 0 {
      hide PlainRoutes, ImportRule, Verdict;
      ImportPlain(lib, st, rules[..|rules| - 1]);
      var prev := ImportRules(lib, st, rules[..|rules| - 1]);
      var ru := rules[|rules| - 1];
      StateStep(lib, prev, ru);
      var v := Verdict(lib, prev.st, prev.seen, ru);
      if v.Ok? {
        NewRoutePlain(prev.st, ImportRule(lib, prev, ru).st, ImportedRoute(prev.st, ru, v.value.0, v.value.1));
      }
    }
  }

  lemma SameRoutesPlain(st: State, next: State)
    requires PlainRoutes(st) && next.routes == st.routes
    ensures PlainRoutes(next)
  {
  }

  lemma ImportOnePlain(lib: Library, st: State, live: seq<RuleLine.External>, raw: string, name: string, asked: Target)
    requires PlainRoutes(st)
    ensures PlainRoutes(ImportOneStep(lib, st, live, raw, name, asked).0)
  {
    hide PlainRoutes, ValidateTarget, NewId, RuleCondition, AskedTarget, TrimSpace, ImportName;
    var next := ImportOneStep(lib, st, live, raw, name, asked).0;
    if next != st { NewRoutePlain(st, next, next.routes[|st.routes|]); }
  }

  ghost predicate PlainCareful(lib: Library, st: State, c: Command) {
    c.ReplaceState? && ReplaceStep(lib, c.known, st, c.doc).1.Done? ==> PlainRoutes(c.doc)
  }

  /** Only a document import can bring route IDs that are shared or not plain. */
  lemma StepKeepsPlainIff(lib: Library, hash: IdHash, st: State, c: Command)
    requires PlainRoutes(st)
    ensures PlainRoutes(Step(lib, hash, st, c)) <==> PlainCareful(lib, st, c)
  {
    hide PlainRoutes, CreateRouteStep, PatchRouteStep, DeleteRouteStep, ApplyTemplateStep, ImportRules, ImportOneStep,
      NewId, Targeted, HasPrefix, TrimSpace, Stripped, Merged, Usable, Compiled, Build.Checked;
    match c
    case CreateRoute(known, r) => CreateRoutePlain(lib, known, st, r);
    case PatchRoute(known, id, r) => PatchRoutePlain(lib, known, st, id, r);
    case DeleteRoute(id) => DeleteRoutePlain(st, id);
    case ApplyTemplate(t, target) => ApplyTemplatePlain(st, t, target);
    case ImportOneRule(live, raw, name, asked) => ImportOnePlain(lib, st, live, raw, name, asked);
    case ImportExternal(rules) => ImportPlain(lib, st, rules);
    case ReplaceState(known, doc) =>
    case _ => SameRoutesPlain(st, Step(lib, hash, st, c));
  }

  ghost predicate PlainRun(lib: Library, hash: IdHash, st: State, cs: seq<Command>) {
    |cs| == 0
    || (PlainRun(lib, hash, st, cs[..|cs| - 1])
        && PlainCareful(lib, Run(lib, hash, st, cs[..|cs| - 1]), cs[|cs| - 1]))
  }

  /** Route IDs stay distinct and plain over every run whose imported documents have such IDs. */
  lemma {:induction false} RunKeepsPlain(lib: Library, hash: IdHash, st: State, cs: seq<Command>)
    requires PlainRoutes(st) && PlainRun(lib, hash, st, cs)
    ensures PlainRoutes(Run(lib, hash, st, cs))
  {
    if |cs| > 0 {
      hide PlainRoutes, Step, PlainCareful;
      RunKeepsPlain(lib, hash, st, cs[..|cs| - 1]);
      StepKeepsPlainIff(lib, hash, Run(lib, hash, st, cs[..|cs| - 1]), cs[|cs| - 1]);
    }
  }

  /** The guarantee behind `on_unavailable` in every state such a run reaches: the route alone decides. */
  lemma RunFailsClosed(lib: Library, hash: IdHash, st: State, cs: seq<Command>, rt: Route)
    requires PlainRoutes(st) && PlainRun(lib, hash, st, cs)
    requires Compiled(lib, Run(lib, hash, st, cs)).Ok? && NoGroupNamedDirect(Run(lib, hash, st, cs))
    requires rt in Run(lib, hash, st, cs).routes && rt.enabled
    ensures Reaches(Compiled(lib, Run(lib, hash, st, cs)).value, ServiceName(rt.id), "DIRECT")
        <==> rt.onUnavailable == "direct" || rt.target.kind.ToDirect?
  {
    hide Compiled, Run, PlainRoutes, Reaches, PlainRun;
    RunKeepsPlain(lib, hash, st, cs);
    PlainMeans(Run(lib, hash, st, cs));
    OwnPolicyDecides(lib, Run(lib, hash, st, cs), rt);
  }
}
