/** Bulk import of a running rule list (internal/api/api.go:1407-1559): each importable rule not
    seen before becomes a disabled route; nothing else changes. */
module Import {
  import opened Prelude
  import opened Text
  import opened Model
  import opened RuleLine
  import opened Ids
  import opened Api
  import opened Generator

  function CondText(k: CondType): string {
    match k
    case Domain => "domain"
    case DomainSuffix => "domain-suffix"
    case DomainKeyword => "domain-keyword"
    case Geosite => "geosite"
    case GeoIp => "geoip"
    case IpCidr => "ip-cidr"
    case SrcDevice => "src-device"
    case DstPort => "dst-port"
    case UnknownCond(text) => text
  }

  /** The key a condition is recognised by; labels do not count. */
  function CondKey(c: Condition): string {
    CondText(c.kind) + ['\U{0}'] + c.value
  }

  function KeysOf(routes: seq<Route>): set<string> {
    set rt, c | rt in routes && c in rt.conditions :: CondKey(c)
  }

  // ---------------------------------------------------------------- one rule

  datatype SkipReason =
    | NotImportable | BadRuleValue(e: ImportError) | AlreadyImported | UnknownPolicy | BadTarget(r: Response)

  datatype Note = Note(raw: string, reason: SkipReason)

  function FirstGroupNamed(groups: seq<Group>, name: string): (r: Option<Group>)
    ensures r.Some? ==> r.value in groups && r.value.name == name
    ensures r.None? ==> forall g | g in groups :: g.name != name
  {
    var i := IndexWhere(groups, (g: Group) => g.name == name);
    if i.Some? then Some(groups[i.value]) else None
  }

  function FirstServerNamed(servers: seq<Server>, name: string): (r: Option<Server>)
    ensures r.Some? ==> r.value in servers && r.value.name == name
    ensures r.None? ==> forall s | s in servers :: s.name != name
  {
    var i := IndexWhere(servers, (s: Server) => s.name == name);
    if i.Some? then Some(servers[i.value]) else None
  }

  /** targetFromPolicy. */
  function BuiltinTarget(policy: string): Option<Target> {
    var trimmed := TrimSpace(policy);
    if trimmed == "DIRECT" then Some(Target(ToDirect, ""))
    else if trimmed == "REJECT" || trimmed == "REJECT-DROP" then Some(Target(ToReject, ""))
    else None
  }

  /** serverOrGroupByName: groups come before servers. */
  function NamedTarget(st: State, name: string): (r: Option<Target>)
    ensures r.Some? && r.value.kind.ToServer? ==> exists s | s in st.servers :: s.id == r.value.id && s.name == name
    ensures r.Some? && r.value.kind.ToGroup? ==> exists g | g in st.groups :: g.id == r.value.id && g.name == name
    ensures r.Some? ==> r.value.kind.ToServer? || r.value.kind.ToGroup?
  {
    match FirstGroupNamed(st.groups, name)
    case Some(g) => Some(Target(ToGroup, g.id))
    case None =>
      match FirstServerNamed(st.servers, name)
      case Some(s) => Some(Target(ToServer, s.id))
      case None => None
  }

  function TargetFor(st: State, policy: string): Option<Target> {
    if BuiltinTarget(policy).Some? then BuiltinTarget(policy) else NamedTarget(st, policy)
  }

  function RuleCondition(lib: Library, ru: External): Result<Condition, SkipReason> {
    match ImportableType(ru.kind)
    case None => Err(NotImportable)
    case Some(kind) =>
      match ConditionFromRule(lib, ru, kind)
      case Err(e) => Err(BadRuleValue(e))
      case Ok(c) => Ok(c)
  }

  function RuleTarget(st: State, ru: External): Result<Target, SkipReason> {
    match TargetFor(st, ru.target)
    case None => Err(UnknownPolicy)
    case Some(t) => if ValidateTarget(st, t).Done? then Ok(t) else Err(BadTarget(ValidateTarget(st, t)))
  }

  function Verdict(lib: Library, st: State, seen: set<string>, ru: External): Result<(Condition, Target), SkipReason> {
    match RuleCondition(lib, ru)
    case Err(e) => Err(e)
    case Ok(c) =>
      if CondKey(c) in seen then Err(AlreadyImported)
      else
        match RuleTarget(st, ru)
        case Err(e) => Err(e)
        case Ok(t) => Ok((c, t))
  }

  /** defaultImportName. */
  function ImportName(ru: External): (name: string)
    ensures |name| <= 64
  {
    var name := "nikki: " + ru.kind + (if ru.value != "" then " " + ru.value else "");
    if |name| > 64 then name[..61] + "..." else name
  }

  function ImportedRoute(st: State, ru: External, c: Condition, t: Target): Route {
    Route(NewId("rt", AllIds(st)), ImportName(ru), false, MaxOrder(st.routes) + 10, [c], t, "block", [])
  }

  const NO_TARGET := Target(UnknownTarget(""), "")

  /** The target of a single import: the caller's, else the rule's policy, else its name looked up. */
  function AskedTarget(st: State, ru: External, asked: Target): Target {
    var t := if asked.kind != NO_TARGET.kind then asked
             else if BuiltinTarget(ru.target).Some? then BuiltinTarget(ru.target).value else NO_TARGET;
    var open := t.kind == NO_TARGET.kind || (t.id == "" && (t.kind.ToServer? || t.kind.ToGroup?));
    if open && NamedTarget(st, ru.target).Some? then NamedTarget(st, ru.target).value else t
  }

  /** Import of one rule, found among the live ones by its text. */
  function ImportOneStep(lib: Library, st: State, rules: seq<External>, raw: string, name: string, asked: Target)
      : (State, Response) {
    if TrimSpace(raw) == "" then (st, BadRequest)
    else match IndexWhere(rules, (ru: External) => ru.raw == TrimSpace(raw))
      case None => (st, Conflict)
      case Some(i) =>
        var ru := rules[i];
        var t := AskedTarget(st, ru, asked);
        if RuleCondition(lib, ru).Err? || t.kind == NO_TARGET.kind then (st, BadRequest)
        else if !ValidateTarget(st, t).Done? then (st, ValidateTarget(st, t))
        else
          var rt := ImportedRoute(st, ru, RuleCondition(lib, ru).value, t);
          (st.(routes := st.routes + [if name == "" then rt else rt.(name := name)]), Done)
  }

  method ImportOne(lib: Library, loaded: State, rules: seq<External>, raw: string, name: string, asked: Target)
    returns (st: State, resp: Response)
    ensures (st, resp) == ImportOneStep(lib, loaded, rules, raw, name, asked)
  {
    hide RuleCondition, TrimSpace, BuiltinTarget, NamedTarget, ValidateTarget, ImportedRoute;
    st := loaded;
    if TrimSpace(raw) == "" { return st, BadRequest; }
    var i := 0;
    while i < |rules| && rules[i].raw != TrimSpace(raw)
      invariant i <= |rules| && forall j | 0 <= j < i :: rules[j].raw != TrimSpace(raw)
    {
      i := i + 1;
    }
    if i == |rules| { return st, Conflict; }
    var cond := RuleCondition(lib, rules[i]);
    if cond.Err? { return st, BadRequest; }
    var target := AskedTarget(st, rules[i], asked);
    if target.kind == NO_TARGET.kind { return st, BadRequest; }
    resp := ValidateTarget(st, target);
    if !resp.Done? { return; }
    var rt := NewRoute(st, rules[i], cond.value, target);
    if name != "" { rt := rt.(name := name); }
    st := st.(routes := st.routes + [rt]);
  }

  // ---------------------------------------------------------------- the whole list

  datatype Outcome = Outcome(st: State, seen: set<string>, imported: nat, notes: seq<Note>)

  function ImportRule(lib: Library, o: Outcome, ru: External): Outcome {
    match Verdict(lib, o.st, o.seen, ru)
    case Err(why) => o.(notes := o.notes + [Note(ru.raw, why)])
    case Ok((c, t)) =>
      o.(st := o.st.(routes := o.st.routes + [ImportedRoute(o.st, ru, c, t)]),
         seen := o.seen + {CondKey(c)}, imported := o.imported + 1)
  }

  function ImportRules(lib: Library, st: State, rules: seq<External>): Outcome {
    if |rules| == 0 then Outcome(st, KeysOf(st.routes), 0, [])
    else ImportRule(lib, ImportRules(lib, st, rules[..|rules| - 1]), rules[|rules| - 1])
  }

  method SeenKeys(routes: seq<Route>) returns (seen: set<string>)
    ensures seen == KeysOf(routes)
  {
    seen := {};
    for i := 0 to |routes|
      invariant seen == KeysOf(routes[..i])
    {
      Prefixes(routes, i);
      var cs := routes[i].conditions;
      for j := 0 to |cs|
        invariant seen == KeysOf(routes[..i]) + set c | c in cs[..j] :: CondKey(c)
      {
        Prefixes(cs, j);
        seen := seen + {CondKey(cs[j])};
      }
      assert cs[..|cs|] == cs;
    }
    assert routes[..|routes|] == routes;
  }

  method NewRoute(st: State, ru: External, c: Condition, t: Target) returns (rt: Route)
    ensures rt == ImportedRoute(st, ru, c, t)
  {
    var id, probes := MintId("rt", st);
    var order := NextOrder(st.routes);
    rt := Route(id, ImportName(ru), false, order, [c], t, "block", []);
  }

  /** The handler: rules in file order, the document growing as it goes. */
  method ImportAll(lib: Library, loaded: State, rules: seq<External>)
      returns (st: State, imported: nat, skipped: nat, notes: seq<Note>)
    ensures var o := ImportRules(lib, loaded, rules); st == o.st && imported == o.imported && notes == o.notes
    ensures skipped == |notes| && imported + skipped == |rules|
  {
    hide Verdict, KeysOf, ImportedRoute, CondKey;
    st, imported, skipped, notes := loaded, 0, 0, [];
    var seen := SeenKeys(st.routes);
    for i := 0 to |rules|
      invariant ImportRules(lib, loaded, rules[..i]) == Outcome(st, seen, imported, notes)
      invariant skipped == |notes| && imported + skipped == i
    {
      Prefixes(rules, i);
      var ru := rules[i];
      var verdict := Verdict(lib, st, seen, ru);
      if verdict.Err? {
        skipped, notes := skipped + 1, notes + [Note(ru.raw, verdict.error)];
      } else {
        var rt := NewRoute(st, ru, verdict.value.0, verdict.value.1);
        st := st.(routes := st.routes + [rt]);
        seen, imported := seen + {CondKey(verdict.value.0)}, imported + 1;
      }
    }
    assert rules[..|rules|] == rules;
  }

  // ---------------------------------------------------------------- what a run leaves alone, and what it adds

  /** The routes a run has appended. */
  function Added(before: State, after: State): seq<Route>
    requires |before.routes| <= |after.routes|
  {
    after.routes[|before.routes|..]
  }

  /** Everything but new routes at the end is as it was. */
  ghost predicate OnlyAppends(before: State, after: State) {
    before.routes <= after.routes && after.(routes := before.routes) == before
  }

  lemma {:induction false} ImportConserves(lib: Library, st: State, rules: seq<External>)
    ensures var o := ImportRules(lib, st, rules);
      && OnlyAppends(st, o.st) && |Added(st, o.st)| == o.imported
      && o.imported + |o.notes| == |rules|
      && o.seen == KeysOf(o.st.routes)
  {
    if |rules| > 0 {
      hide Verdict, ImportedRoute, CondKey;
      var init, ru := rules[..|rules| - 1], rules[|rules| - 1];
      ImportConserves(lib, st, init);
      var prev := ImportRules(lib, st, init);
      match Verdict(lib, prev.st, prev.seen, ru)
      case Err(_) =>
      case Ok((c, t)) => KeysOfAppend(prev.st.routes, ImportedRoute(prev.st, ru, c, t), c);
    }
  }

  lemma KeysOfAppend(routes: seq<Route>, rt: Route, c: Condition)
    requires rt.conditions == [c]
    ensures KeysOf(routes + [rt]) == KeysOf(routes) + {CondKey(c)}
  {
    hide CondKey;
    var longer := routes + [rt];
    assert rt in longer && c in rt.conditions;
    forall k | k in KeysOf(longer) ensures k in KeysOf(routes) + {CondKey(c)} {
      var x, y :| x in longer && y in x.conditions && k == CondKey(y);
      assert x in routes || x == rt;
    }
  }

  /** What makes an appended list of routes harmless: none is on, each has one condition of its
      own that the document did not have, a new ID, and a later order than all before it. */
  ghost predicate Harmless(before: State, added: seq<Route>) {
    && (forall i | 0 <= i < |added| ::
          && !added[i].enabled && |added[i].conditions| == 1 && added[i].onUnavailable == "block"
          && added[i].id !in AllIds(before)
          && CondKey(added[i].conditions[0]) !in KeysOf(before.routes)
          && forall rt | rt in before.routes :: rt.order < added[i].order)
    && (forall i, j | 0 <= i < j < |added| ::
          && added[i].id != added[j].id
          && added[i].order < added[j].order
          && CondKey(added[i].conditions[0]) != CondKey(added[j].conditions[0]))
  }

  /** One rule either adds its route or leaves the document alone. */
  lemma StateStep(lib: Library, o: Outcome, ru: External)
    ensures var v := Verdict(lib, o.st, o.seen, ru);
      && (v.Err? ==> ImportRule(lib, o, ru).st == o.st)
      && (v.Ok? ==>
            && ImportRule(lib, o, ru).st.routes == o.st.routes + [ImportedRoute(o.st, ru, v.value.0, v.value.1)]
            && CondKey(v.value.0) !in o.seen)
  {
    hide RuleCondition, RuleTarget, ImportedRoute, CondKey;
  }

  lemma SeenStep(lib: Library, o: Outcome, ru: External)
    ensures ImportRule(lib, o, ru).seen == o.seen + if Eligible(lib, o.st, ru) then {RuleKey(lib, ru)} else {}
  {
    hide RuleCondition, RuleTarget, ImportedRoute, CondKey;
  }

  lemma AddedAppend(st: State, grown: State, rt: Route)
    requires st.routes <= grown.routes
    ensures (grown.routes + [rt])[|st.routes|..] == Added(st, grown) + [rt]
  {
  }

  lemma {:induction false} ImportIsHarmless(lib: Library, st: State, rules: seq<External>)
    ensures OnlyAppends(st, ImportRules(lib, st, rules).st)
    ensures Harmless(st, Added(st, ImportRules(lib, st, rules).st))
  {
    ImportConserves(lib, st, rules);
    if |rules| > 0 {
      hide Verdict, Harmless, ImportedRoute, CondKey, KeysOf, ImportRule;
      var init, ru := rules[..|rules| - 1], rules[|rules| - 1];
      ImportConserves(lib, st, init);
      ImportIsHarmless(lib, st, init);
      var prev := ImportRules(lib, st, init);
      StateStep(lib, prev, ru);
      var v := Verdict(lib, prev.st, prev.seen, ru);
      if v.Ok? {
        HarmlessAppend(st, prev.st, ru, v.value.0, v.value.1);
        AddedAppend(st, prev.st, ImportedRoute(prev.st, ru, v.value.0, v.value.1));
      }
    } else {
      assert Added(st, st) == [];
    }
  }

  lemma MoreRoutes(st: State, grown: State)
    requires OnlyAppends(st, grown)
    ensures AllIds(st) <= AllIds(grown) && KeysOf(st.routes) <= KeysOf(grown.routes)
    ensures forall rt | rt in st.routes :: rt in grown.routes
  {
    assert grown.sources == st.sources && grown.servers == st.servers && grown.groups == st.groups;
    assert forall rt | rt in st.routes :: rt in grown.routes;
  }

  lemma InTheDocument(st: State, rt: Route)
    requires rt in st.routes
    ensures rt.id in AllIds(st) && forall c | c in rt.conditions :: CondKey(c) in KeysOf(st.routes)
  {
  }

  lemma HarmlessAppend(st: State, grown: State, ru: External, c: Condition, t: Target)
    requires OnlyAppends(st, grown) && Harmless(st, Added(st, grown)) && CondKey(c) !in KeysOf(grown.routes)
    ensures Harmless(st, Added(st, grown) + [ImportedRoute(grown, ru, c, t)])
  {
    hide CondKey, NewId, ImportName, AllIds, KeysOf;
    var added, rt := Added(st, grown), ImportedRoute(grown, ru, c, t);
    MoreRoutes(st, grown);
    forall i | 0 <= i < |added|
      ensures added[i].id != rt.id && added[i].order < rt.order && CondKey(added[i].conditions[0]) != CondKey(c)
    {
      assert added[i] in grown.routes;
      InTheDocument(grown, added[i]);
    }
  }

  // ---------------------------------------------------------------- which rules are imported

  /** The rule could be imported into an empty route list: nothing here looks at routes. */
  ghost predicate Eligible(lib: Library, st: State, ru: External) {
    RuleCondition(lib, ru).Ok? && RuleTarget(st, ru).Ok?
  }

  ghost function RuleKey(lib: Library, ru: External): string
    requires RuleCondition(lib, ru).Ok?
  {
    CondKey(RuleCondition(lib, ru).value)
  }

  ghost function EligibleKeys(lib: Library, st: State, rules: seq<External>): set<string> {
    set ru | ru in rules && Eligible(lib, st, ru) :: RuleKey(lib, ru)
  }

  /** Rule i is the first eligible one with its key, and the document has no such condition yet. */
  ghost predicate FirstOfItsKey(lib: Library, st: State, rules: seq<External>, i: nat)
    requires i < |rules|
  {
    && Eligible(lib, st, rules[i])
    && RuleKey(lib, rules[i]) !in KeysOf(st.routes)
    && forall ru | ru in rules[..i] && Eligible(lib, st, ru) :: RuleKey(lib, ru) != RuleKey(lib, rules[i])
  }

  /** Targets do not depend on the routes. */
  lemma SameTargets(st: State, grown: State, ru: External)
    requires OnlyAppends(st, grown)
    ensures RuleTarget(grown, ru) == RuleTarget(st, ru)
  {
    assert grown.groups == st.groups && grown.servers == st.servers;
  }

  lemma SameEligible(lib: Library, st: State, grown: State, ru: External)
    requires OnlyAppends(st, grown)
    ensures Eligible(lib, grown, ru) <==> Eligible(lib, st, ru)
  {
    hide RuleTarget, RuleCondition;
    SameTargets(st, grown, ru);
  }

  lemma {:induction false} SeenIs(lib: Library, st: State, rules: seq<External>)
    ensures ImportRules(lib, st, rules).seen == KeysOf(st.routes) + EligibleKeys(lib, st, rules)
  {
    hide KeysOf, ImportRule, RuleKey, RuleCondition, RuleTarget, OnlyAppends;
    if |rules| > 0 {
      hide EligibleKeys;
      var init, ru := rules[..|rules| - 1], rules[|rules| - 1];
      SeenIs(lib, st, init);
      ImportConserves(lib, st, init);
      SameEligible(lib, st, ImportRules(lib, st, init).st, ru);
      SeenStep(lib, ImportRules(lib, st, init), ru);
      assert rules == init + [ru];
    }
  }

  /** Rule i adds a route exactly when it is the first eligible one with its key; the route then
      carries its condition and target. */
  lemma ImportedIff(lib: Library, st: State, rules: seq<External>, i: nat)
    requires i < |rules|
    ensures var before, after := ImportRules(lib, st, rules[..i]).st, ImportRules(lib, st, rules[..i + 1]).st;
      && OnlyAppends(st, before)
      && (FirstOfItsKey(lib, st, rules, i) ==>
            |after.routes| == |before.routes| + 1
            && var rt := after.routes[|before.routes|];
               rt.conditions == [RuleCondition(lib, rules[i]).value] && rt.target == RuleTarget(st, rules[i]).value)
      && (!FirstOfItsKey(lib, st, rules, i) ==> after == before)
  {
    hide KeysOf, CondKey, RuleCondition, RuleTarget;
    var prev := ImportRules(lib, st, rules[..i]);
    Prefixes(rules, i);
    ImportConserves(lib, st, rules[..i]);
    SameTargets(st, prev.st, rules[i]);
    SeenIs(lib, st, rules[..i]);
  }

  // ---------------------------------------------------------------- importing again

  lemma {:induction false} NothingLeft(lib: Library, st: State, done: State, rules: seq<External>)
    requires OnlyAppends(st, done)
    requires forall ru | ru in rules && Eligible(lib, st, ru) :: RuleKey(lib, ru) in KeysOf(done.routes)
    ensures var o := ImportRules(lib, done, rules);
      o.st == done && o.imported == 0 && o.seen == KeysOf(done.routes) && |o.notes| == |rules|
  {
    hide KeysOf, CondKey, RuleCondition, RuleTarget, OnlyAppends;
    if |rules| > 0 {
      var init, ru := rules[..|rules| - 1], rules[|rules| - 1];
      NothingLeft(lib, st, done, init);
      SameTargets(st, done, ru);
      assert ru in rules;
    }
  }

  /** A second import of the same rules changes nothing. */
  lemma ImportIsIdempotent(lib: Library, st: State, rules: seq<External>)
    ensures var once := ImportRules(lib, st, rules).st;
      var again := ImportRules(lib, once, rules);
      again.st == once && again.imported == 0 && |again.notes| == |rules|
  {
    hide KeysOf, CondKey, RuleCondition, RuleTarget, OnlyAppends;
    var o := ImportRules(lib, st, rules);
    ImportConserves(lib, st, rules);
    SeenIs(lib, st, rules);
    NothingLeft(lib, st, o.st, rules);
  }

  /** Nothing is imported exactly when the document already has the condition of every eligible rule. */
  lemma NothingImportedIff(lib: Library, st: State, rules: seq<External>)
    ensures var o := ImportRules(lib, st, rules);
      && (o.imported == 0
          <==> forall ru | ru in rules && Eligible(lib, st, ru) :: RuleKey(lib, ru) in KeysOf(st.routes))
      && (o.imported == 0 ==> o.st == st && |o.notes| == |rules|)
  {
    hide KeysOf, RuleKey, RuleCondition, RuleTarget;
    ImportConserves(lib, st, rules);
    SeenIs(lib, st, rules);
    var o := ImportRules(lib, st, rules);
    if o.imported == 0 {
      assert o.st.routes == st.routes;
      forall ru | ru in rules && Eligible(lib, st, ru) ensures RuleKey(lib, ru) in KeysOf(st.routes) {
        assert RuleKey(lib, ru) in EligibleKeys(lib, st, rules);
      }
    }
    if forall ru | ru in rules && Eligible(lib, st, ru) :: RuleKey(lib, ru) in KeysOf(st.routes) {
      NothingLeft(lib, st, st, rules);
    }
  }

  // ---------------------------------------------------------------- the lines of a running profile

  /** LoadExternalRules: a line that does not parse stays in the list, shown as raw text only. */
  function ReadLine(line: string): External {
    match ParseRuleLine(line)
    case Some(ru) => ru
    case None => External("", "", "unknown", false, line)
  }

  method LoadExternalRules(lines: seq<string>) returns (rules: seq<External>)
    ensures |rules| == |lines| && forall i | 0 <= i < |lines| :: rules[i] == ReadLine(lines[i])
  {
    rules := [];
    for i := 0 to |lines|
      invariant |rules| == i && forall j | 0 <= j < i :: rules[j] == ReadLine(lines[j])
    {
      match ParseRuleLine(lines[i]) {
        case Some(ru) => rules := rules + [ru];
        case None => rules := rules + [External("", "", "unknown", false, lines[i])];
      }
    }
  }
}
