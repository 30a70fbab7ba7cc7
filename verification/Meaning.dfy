/** What a compiled profile does with a packet, against what the routes say. Whether a
    matcher accepts a packet is left open: `m` decides it. */
module Meaning {
  import opened Prelude
  import opened Sorting
  import opened Model
  import opened Generator
  import opened WellFormedness

  type Matcher<!Packet> = (RuleType, string, Packet) -> bool

  predicate RuleMatches<Packet>(m: Matcher<Packet>, rule: Rule, pkt: Packet) {
    rule.Final? || m(rule.kind, rule.value, pkt)
  }

  /** First match wins. */
  function FirstMatch<Packet>(m: Matcher<Packet>, rules: seq<Rule>, pkt: Packet): Option<string> {
    if |rules| == 0 then None
    else if RuleMatches(m, rules[0], pkt) then Some(rules[0].policy)
    else FirstMatch(m, rules[1..], pkt)
  }

  // ---------------------------------------------------------------- what the routes say

  /** A condition applies when it matches itself or an addition to its category does. */
  ghost predicate ConditionHits<Packet>(lib: Library, s: Settings, m: Matcher<Packet>, c: Condition, pkt: Packet) {
    && ConditionRule(c).Some?
    && (m(ConditionRule(c).value, c.value, pkt)
        || exists v | v in AdditionsOf(lib, s, c) :: m(ExtraType(c), v, pkt))
  }

  ghost function AdditionsOf(lib: Library, s: Settings, c: Condition): seq<string> {
    var key := AdditionKey(lib, c);
    if key in s.additions && key != "" then s.additions[key] else []
  }

  ghost predicate RouteHits<Packet>(lib: Library, s: Settings, m: Matcher<Packet>, rt: Route, pkt: Packet) {
    && rt.enabled
    && ((exists c | c in rt.conditions :: ConditionHits(lib, s, m, c, pkt))
        || (exists p | p in rt.providers :: m(R_RULE_SET, p, pkt)))
  }

  /** The route a packet belongs to: least (order, ID) among the enabled routes that hit. */
  ghost predicate Decides<Packet>(lib: Library, st: State, m: Matcher<Packet>, rt: Route, pkt: Packet) {
    && rt in st.routes && RouteHits(lib, st.settings, m, rt, pkt)
    && forall other | other in st.routes && RouteHits(lib, st.settings, m, other, pkt) ::
         !KeyLess(RouteKey(other), RouteKey(rt))
  }

  // ---------------------------------------------------------------- first match over pieces

  lemma {:induction false} FirstMatchAppend<Packet>(m: Matcher<Packet>, a: seq<Rule>, b: seq<Rule>, pkt: Packet)
    ensures FirstMatch(m, a + b, pkt)
         == if FirstMatch(m, a, pkt).Some? then FirstMatch(m, a, pkt) else FirstMatch(m, b, pkt)
  {
    if |a| == 0 {
      assert a + b == b;
    } else {
      assert (a + b)[1..] == a[1..] + b;
      FirstMatchAppend(m, a[1..], b, pkt);
    }
  }

  /** When all lines share a policy, only whether any of them matches counts. */
  lemma {:induction false} FirstMatchUniform<Packet>(m: Matcher<Packet>, rules: seq<Rule>, policy: string, pkt: Packet)
    requires forall r | r in rules :: r.policy == policy
    ensures FirstMatch(m, rules, pkt)
         == if exists r | r in rules :: RuleMatches(m, r, pkt) then Some(policy) else None
  {
    if |rules| > 0 {
      assert rules[0] in rules;
      forall r | r in rules[1..] ensures r in rules { }
      FirstMatchUniform(m, rules[1..], policy, pkt);
      if exists r | r in rules :: RuleMatches(m, r, pkt) {
        var r :| r in rules && RuleMatches(m, r, pkt);
        assert r == rules[0] || r in rules[1..];
      }
    }
  }

  // ---------------------------------------------------------------- the lines of one route

  lemma {:induction false} ExtraRulesAre(c: Condition, extras: seq<string>, policy: string, r: Rule)
    ensures r in ExtraRules(c, extras, policy) <==> exists v | v in extras :: r == Rule(ExtraType(c), v, policy)
  {
    if |extras| > 0 {
      var init, v := extras[..|extras| - 1], extras[|extras| - 1];
      assert extras == init + [v];
      ExtraRulesAre(c, init, policy, r);
    }
  }

  ghost predicate LineOf(ctx: Context, rid: string, c: Condition, r: Rule) {
    && ConditionRule(c).Some?
    && (r == Rule(ConditionRule(c).value, c.value, ServiceName(rid))
        || exists v | v in AdditionsOf(ctx.lib, ctx.settings, c) :: r == Rule(ExtraType(c), v, ServiceName(rid)))
  }

  lemma {:induction false} ConditionLines(ctx: Context, rid: string, cs: seq<Condition>, r: Rule)
    ensures r in AllConditionRules(ctx, rid, cs) <==> exists c | c in cs :: LineOf(ctx, rid, c, r)
  {
    if |cs| > 0 {
      var init, c := cs[..|cs| - 1], cs[|cs| - 1];
      assert cs == init + [c];
      ConditionLines(ctx, rid, init, r);
      ExtraRulesAre(c, Extras(ctx, c), ServiceName(rid), r);
      assert r in ConditionRules(ctx, rid, c) <==> LineOf(ctx, rid, c, r);
    }
  }

  lemma {:induction false} ProviderLines(rid: string, used: set<string>, ps: seq<string>, r: Rule)
    requires ProviderProblems(rid, used, ps) == []
    ensures r in ProviderRules(rid, used, ps) <==> exists p | p in ps :: r == Rule(R_RULE_SET, p, ServiceName(rid))
  {
    if |ps| > 0 {
      var init, p := ps[..|ps| - 1], ps[|ps| - 1];
      assert ps == init + [p];
      ProviderLines(rid, used, init, r);
    }
  }

  ghost predicate LineOfRoute(ctx: Context, rt: Route, r: Rule) {
    || (exists c | c in rt.conditions :: LineOf(ctx, rt.id, c, r))
    || (exists p | p in rt.providers :: r == Rule(R_RULE_SET, p, ServiceName(rt.id)))
  }

  lemma RouteLines(ctx: Context, used: set<string>, rt: Route, r: Rule)
    requires Emits(ctx, rt) && RouteProblems(ctx, used, rt) == []
    ensures r in RouteRules(ctx, used, rt) <==> LineOfRoute(ctx, rt, r)
  {
    hide LineOf;
    ConditionLines(ctx, rt.id, rt.conditions, r);
    ProviderLines(rt.id, used, rt.providers, r);
  }

  /** The lines of a route catch exactly the packets the route describes. */
  lemma RouteMeaning<Packet>(ctx: Context, used: set<string>, rt: Route, m: Matcher<Packet>, pkt: Packet)
    requires Emits(ctx, rt) && RouteProblems(ctx, used, rt) == []
    ensures FirstMatch(m, RouteRules(ctx, used, rt), pkt)
         == if RouteHits(ctx.lib, ctx.settings, m, rt, pkt) then Some(ServiceName(rt.id)) else None
  {
    var rules := RouteRules(ctx, used, rt);
    forall r | r in rules ensures r.policy == ServiceName(rt.id) { RouteLines(ctx, used, rt, r); }
    FirstMatchUniform(m, rules, ServiceName(rt.id), pkt);
    if exists r | r in rules :: RuleMatches(m, r, pkt) {
      var r :| r in rules && RuleMatches(m, r, pkt);
      RouteLines(ctx, used, rt, r);
      if c :| c in rt.conditions && LineOf(ctx, rt.id, c, r) {
        assert ConditionHits(ctx.lib, ctx.settings, m, c, pkt);
      }
    }
    if RouteHits(ctx.lib, ctx.settings, m, rt, pkt) {
      var r := HitLine(ctx, rt, m, pkt);
      RouteLines(ctx, used, rt, r);
    }
  }

  lemma HitLine<Packet>(ctx: Context, rt: Route, m: Matcher<Packet>, pkt: Packet) returns (r: Rule)
    requires RouteHits(ctx.lib, ctx.settings, m, rt, pkt)
    ensures RuleMatches(m, r, pkt)
    ensures LineOfRoute(ctx, rt, r)
  {
    if c :| c in rt.conditions && ConditionHits(ctx.lib, ctx.settings, m, c, pkt) {
      if m(ConditionRule(c).value, c.value, pkt) {
        r := Rule(ConditionRule(c).value, c.value, ServiceName(rt.id));
      } else {
        var v :| v in AdditionsOf(ctx.lib, ctx.settings, c) && m(ExtraType(c), v, pkt);
        r := Rule(ExtraType(c), v, ServiceName(rt.id));
      }
      assert LineOf(ctx, rt.id, c, r);
    } else {
      var p :| p in rt.providers && m(R_RULE_SET, p, pkt);
      r := Rule(R_RULE_SET, p, ServiceName(rt.id));
    }
  }

  // ---------------------------------------------------------------- the whole rule list

  /** The first of the routes, in list order, that hits. */
  ghost function FirstHit<Packet>(lib: Library, s: Settings, m: Matcher<Packet>, routes: seq<Route>,
      pkt: Packet): Option<Route> {
    if |routes| == 0 then None
    else
      var prev, rt := FirstHit(lib, s, m, routes[..|routes| - 1], pkt), routes[|routes| - 1];
      if prev.Some? then prev else if RouteHits(lib, s, m, rt, pkt) then Some(rt) else None
  }

  lemma {:induction false} RulesMeaning<Packet>(ctx: Context, routes: seq<Route>, m: Matcher<Packet>, pkt: Packet)
    requires LostTargets(ctx, routes) == [] && AllRouteProblems(ctx, routes) == []
    ensures FirstMatch(m, Rules(ctx, routes), pkt)
         == match FirstHit(ctx.lib, ctx.settings, m, routes, pkt)
            case Some(rt) => Some(ServiceName(rt.id))
            case None => None
  {
    if |routes| > 0 {
      var init, rt := routes[..|routes| - 1], routes[|routes| - 1];
      var used := UsedProviders(ctx, init);
      RulesMeaning(ctx, init, m, pkt);
      FirstMatchAppend(m, Rules(ctx, init), RouteRules(ctx, used, rt), pkt);
      if rt.enabled { RouteMeaning(ctx, used, rt, m, pkt); }
    }
  }

  lemma {:induction false} FirstHitIs<Packet>(lib: Library, s: Settings, m: Matcher<Packet>, routes: seq<Route>,
      pkt: Packet)
    ensures match FirstHit(lib, s, m, routes, pkt)
            case Some(rt) =>
              exists i | 0 <= i < |routes| ::
                routes[i] == rt && RouteHits(lib, s, m, rt, pkt)
                    && forall j | 0 <= j < i :: !RouteHits(lib, s, m, routes[j], pkt)
            case None => forall rt | rt in routes :: !RouteHits(lib, s, m, rt, pkt)
  {
    if |routes| > 0 {
      var init := routes[..|routes| - 1];
      assert routes == init + [routes[|routes| - 1]];
      FirstHitIs(lib, s, m, init, pkt);
      match FirstHit(lib, s, m, init, pkt)
      case Some(rt) =>
        var i :| 0 <= i < |init| && init[i] == rt && RouteHits(lib, s, m, rt, pkt)
                 && forall j | 0 <= j < i :: !RouteHits(lib, s, m, init[j], pkt);
        assert routes[i] == rt;
      case None =>
        if RouteHits(lib, s, m, routes[|routes| - 1], pkt) {
          forall j | 0 <= j < |routes| - 1 ensures !RouteHits(lib, s, m, routes[j], pkt) { assert init[j] in init; }
        }
    }
  }

  /** The first hit of the sorted list is a least hit of the table. */
  lemma FirstHitDecides<Packet>(lib: Library, st: State, m: Matcher<Packet>, pkt: Packet)
    ensures match FirstHit(lib, st.settings, m, SortedRoutes(st), pkt)
            case Some(rt) => Decides(lib, st, m, rt, pkt)
            case None => forall rt | rt in st.routes :: !RouteHits(lib, st.settings, m, rt, pkt)
  {
    var routes := SortedRoutes(st);
    FirstHitIs(lib, st.settings, m, routes, pkt);
    SameMembers(routes, st.routes);
    SortSorted(RouteKey, st.routes);
    match FirstHit(lib, st.settings, m, routes, pkt)
    case None =>
    case Some(rt) =>
      var i :| 0 <= i < |routes| && routes[i] == rt && RouteHits(lib, st.settings, m, rt, pkt)
               && forall j | 0 <= j < i :: !RouteHits(lib, st.settings, m, routes[j], pkt);
      forall other | other in st.routes && RouteHits(lib, st.settings, m, other, pkt)
        ensures !KeyLess(RouteKey(other), RouteKey(rt))
      {
        var j :| 0 <= j < |routes| && routes[j] == other;
        KeyOrder(RouteKey(rt), RouteKey(rt), RouteKey(rt));
      }
  }

  /** Compilation preserves the meaning of the routing table. */
  lemma RoutingMeaning<Packet>(lib: Library, st: State, m: Matcher<Packet>, pkt: Packet)
    requires Compiled(lib, st).Ok?
    ensures var policy := FirstMatch(m, Compiled(lib, st).value.rules, pkt);
      if exists rt | rt in st.routes :: RouteHits(lib, st.settings, m, rt, pkt)
      then exists rt | rt in st.routes :: Decides(lib, st, m, rt, pkt) && policy == Some(ServiceName(rt.id))
      else policy == Some(DEFAULT_GROUP)
  {
    var ctx, routes := ContextOf(lib, st), SortedRoutes(st);
    assert Report(lib, st).lost == [] && Report(lib, st).invalid == [];
    assert AllRouteProblems(ctx, routes) == [];
    RulesMeaning(ctx, routes, m, pkt);
    FirstMatchAppend(m, Rules(ctx, routes), [Final(DEFAULT_GROUP)], pkt);
    FirstHitDecides(lib, st, m, pkt);
  }

  /** The deciding route's ID does not depend on which least route is picked. */
  lemma DecisionUnique<Packet>(lib: Library, st: State, m: Matcher<Packet>, a: Route, b: Route, pkt: Packet)
    requires Decides(lib, st, m, a, pkt) && Decides(lib, st, m, b, pkt)
    ensures a.id == b.id && a.order == b.order
  {
    KeyOrder(RouteKey(a), RouteKey(b), RouteKey(a));
  }

  // ---------------------------------------------------------------- order of st.routes

  ghost predicate UniqueRouteIds(routes: seq<Route>) {
    forall x, y | x in routes && y in routes && x.id == y.id :: x == y
  }

  /** The stored order of the routes changes nothing in the outcome, problem report included. */
  lemma PermutationInvariance(lib: Library, st: State, routes: seq<Route>)
    requires multiset(routes) == multiset(st.routes) && UniqueRouteIds(st.routes)
    ensures Compiled(lib, st.(routes := routes)) == Compiled(lib, st)
  {
    SortedAlike(st.routes, routes);
    assert ContextOf(lib, st.(routes := routes)) == ContextOf(lib, st);
    assert Report(lib, st.(routes := routes)) == Report(lib, st);
  }

  lemma SortedAlike(a: seq<Route>, b: seq<Route>)
    requires multiset(a) == multiset(b) && UniqueRouteIds(a)
    ensures SortByKey(RouteKey, a) == SortByKey(RouteKey, b)
  {
    hide SortByKey;
    SortSorted(RouteKey, a);
    SortSorted(RouteKey, b);
    SameMembers(SortByKey(RouteKey, a), a);
    SortedUnique(RouteKey, SortByKey(RouteKey, a), SortByKey(RouteKey, b));
  }
}
