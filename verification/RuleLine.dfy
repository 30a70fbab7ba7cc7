/** Rule lines as text: the generator's printer (internal/generator/generator.go:389-428, 597-633),
    the parser of the running configuration (internal/nikki/external.go:100-130) and the value
    checks of the routes API (internal/api/api.go:926-973, 1488-1516). */
module RuleLine {
  import opened Prelude
  import opened Text
  import opened Model
  import opened Generator
  import opened WellFormedness
  import opened Meaning
  import opened Closure

  // ---------------------------------------------------------------- printing

  function TypeText(k: RuleType): string {
    match k
    case R_DOMAIN => "DOMAIN"
    case R_DOMAIN_SUFFIX => "DOMAIN-SUFFIX"
    case R_DOMAIN_KEYWORD => "DOMAIN-KEYWORD"
    case R_GEOSITE => "GEOSITE"
    case R_GEOIP => "GEOIP"
    case R_IP_CIDR => "IP-CIDR"
    case R_SRC_IP_CIDR => "SRC-IP-CIDR"
    case R_DST_PORT => "DST-PORT"
    case R_RULE_SET => "RULE-SET"
  }

  function Segments(r: Rule): seq<string> {
    match r
    case Rule(k, v, p) => [TypeText(k), v, p]
    case Final(p) => ["MATCH", p]
  }

  function Render(r: Rule): string {
    match r
    case Rule(k, v, p) => TypeText(k) + "," + v + "," + p
    case Final(p) => "MATCH," + p
  }

  // ---------------------------------------------------------------- parsing

  datatype External = External(kind: string, value: string, target: string, noResolve: bool, raw: string)

  function UpperChar(c: char): char {
    if 'a' <= c <= 'z' then (c as int - 32) as char else c
  }

  /** strings.ToUpper on ASCII letters. */
  function ToUpper(s: string): (r: string)
    ensures |r| == |s|
  {
    seq(|s|, i requires 0 <= i < |s| => UpperChar(s[i]))
  }

  function ParseRuleLine(line: string): Option<External> {
    var trimmed := TrimSpace(line);
    if trimmed == "" then None
    else
      var parts := SplitCommas(trimmed);
      var kind := ToUpper(TrimSpace(parts[0]));
      if |parts| == 2 then Some(External(kind, "", TrimSpace(parts[1]), false, trimmed))
      else if |parts| == 3 then Some(External(kind, TrimSpace(parts[1]), TrimSpace(parts[2]), false, trimmed))
      else if |parts| == 4 then
        if TrimSpace(parts[3]) == "no-resolve" then
          Some(External(kind, TrimSpace(parts[1]), TrimSpace(parts[2]), true, trimmed))
        else
          Some(External(kind, TrimSpace(parts[1]), TrimSpace(parts[2]) + "," + TrimSpace(parts[3]), false, trimmed))
      else None
  }

  /** importableRuleTypes. */
  function ImportableType(kind: string): Option<CondType> {
    match kind
    case "DOMAIN" => Some(Domain)
    case "DOMAIN-SUFFIX" => Some(DomainSuffix)
    case "DOMAIN-KEYWORD" => Some(DomainKeyword)
    case "GEOSITE" => Some(Geosite)
    case "GEOIP" => Some(GeoIp)
    case "IP-CIDR" => Some(IpCidr)
    case "IP-CIDR6" => Some(IpCidr)
    case "SRC-IP-CIDR" => Some(SrcDevice)
    case "DST-PORT" => Some(DstPort)
    case _ => None
  }

  // ---------------------------------------------------------------- value checks

  /** strings.SplitN(s, sep, 2): the part before the first separator and the rest, if any. */
  function CutAt(s: string, sep: char): (r: (string, Option<string>)) {
    if |s| == 0 then ("", None)
    else if s[0] == sep then ("", Some(s[1..]))
    else var (before, after) := CutAt(s[1..], sep); ([s[0]] + before, after)
  }

  function IsCidr(lib: Library, v: string): bool {
    var (addr, bits) := CutAt(v, '/');
    lib.maxPrefix(addr).Some? &&
    match bits
    case None => true
    case Some(b) => Atoi(b).Some? && 0 <= Atoi(b).value <= lib.maxPrefix(addr).value
  }

  predicate IsPort(p: string) {
    Atoi(p).Some? && 1 <= Atoi(p).value <= 65535
  }

  predicate IsPortOrRange(v: string) {
    var (low, high) := CutAt(v, '-');
    IsPort(low) && (high.Some? ==> IsPort(high.value) && Atoi(low).value <= Atoi(high.value).value)
  }

  /** The format checks shared by the routes API, template input and rule import. */
  predicate ValueOk(lib: Library, kind: CondType, value: string) {
    && !ContainsAny(value, ",:\n\r")
    && (kind.IpCidr? || kind.SrcDevice? ==> IsCidr(lib, value))
    && (kind.DomainSuffix? || kind.Domain? ==> !ContainsAny(value, " \t/") && !HasPrefix(value, "."))
    && (kind.DstPort? ==> IsPortOrRange(value))
  }

  /** What validateRouteIn demands of one condition. */
  predicate Accepted(lib: Library, c: Condition) {
    !c.kind.UnknownCond? && c.value != "" && ValueOk(lib, c.kind, c.value)
  }

  datatype ImportError = NoValue | BadValue

  function ConditionFromRule(lib: Library, ru: External, kind: CondType): Result<Condition, ImportError> {
    var value := TrimSpace(ru.value);
    if value == "" then Err(NoValue)
    else if ValueOk(lib, kind, value) then Ok(Condition(kind, value, ""))
    else Err(BadValue)
  }

  // ---------------------------------------------------------------- print, then parse

  predicate CapsOnly(s: string) {
    forall i | 0 <= i < |s| :: 'A' <= s[i] <= 'Z' || s[i] == '-'
  }

  lemma TypeTextShape(k: RuleType)
    ensures CapsOnly(TypeText(k)) && |TypeText(k)| > 0
  {
  }

  lemma CapsSurvive(s: string)
    requires CapsOnly(s) && |s| > 0
    ensures ToUpper(TrimSpace(s)) == s && ',' !in s
  {
    TrimmedIff(s);
  }

  /** What a printed line splits into: type, value, and the pieces of its policy. */
  lemma RenderPieces(r: Rule)
    requires r.Rule? ==> ',' !in r.value
    ensures SplitCommas(Render(r)) == Segments(r)[..|Segments(r)| - 1] + SplitCommas(r.policy)
  {
    hide SplitCommas;
    match r
    case Rule(k, v, p) =>
      TypeTextShape(k);
      SplitAtComma(v, p);
      SplitAtComma(TypeText(k), v + "," + p);
      assert Render(r) == TypeText(k) + "," + (v + "," + p);
    case Final(p) =>
      SplitAtComma("MATCH", p);
      assert "MATCH" + "," + p == Render(r);
  }

  lemma SamePrefix<T>(a: seq<T>, b: seq<T>, c: seq<T>)
    ensures a + b == a + c <==> b == c
  {
    if a + b == a + c { assert b == (a + b)[|a|..] == (a + c)[|a|..] == c; }
  }

  /** The printed line splits into the segments it was made of exactly when its policy has no comma. */
  lemma RenderSplitsIff(r: Rule)
    requires r.Rule? ==> ',' !in r.value
    ensures SplitCommas(Render(r)) == Segments(r) <==> ',' !in r.policy
  {
    hide SplitCommas, Render;
    var front := Segments(r)[..|Segments(r)| - 1];
    RenderPieces(r);
    SplitWholeIff(r.policy);
    SamePrefix(front, SplitCommas(r.policy), [r.policy]);
    assert Segments(r) == front + [r.policy];
  }

  lemma LineValueCommaFree(lib: Library, st: State, rt: Route, r: Rule)
    requires GoodRoute(lib, st, rt) && LineOfRoute(ContextOf(lib, st), rt, r)
    ensures r.Rule? && ',' !in r.value
  {
    var ctx := ContextOf(lib, st);
    LinePolicy(ctx, rt, r);
    if c :| c in rt.conditions && LineOf(ctx, rt.id, c, r) {
      assert GoodCondition(lib, st.settings, c);
      if v :| v in AdditionsOf(lib, st.settings, c) && r == Rule(ExtraType(c), v, ServiceName(rt.id)) {
        assert ValidAddition(lib, AdditionKey(lib, c), v);
      }
    } else {
      assert ValidProvider(r.value);
    }
  }

  lemma ServiceNameCommas(rid: string)
    ensures ',' in ServiceName(rid) <==> ',' in rid
    ensures ',' !in DEFAULT_GROUP
  {
    var name := ServiceName(rid);
    assert name == "rt:" + rid && name[3..] == rid;
    assert forall i | 0 <= i < 3 :: "rt:"[i] != ',';
    assert forall i | 0 <= i < |DEFAULT_GROUP| :: DEFAULT_GROUP[i] != ',';
  }

  /** Every line but the last belongs to some enabled route, and shows it in its policy. */
  lemma ProfileLine(lib: Library, st: State, r: Rule) returns (rid: string)
    requires Compiled(lib, st).Ok? && r in Compiled(lib, st).value.rules && r != Final(DEFAULT_GROUP)
    ensures exists rt | rt in st.routes && rt.enabled :: rt.id == rid
    ensures r.Rule? && r.policy == ServiceName(rid) && ',' !in r.value
  {
    SuccessAssembles(lib, st);
    CompilesIff(lib, st);
    rid := AssembledLine(lib, st, Compiled(lib, st).value, r);
  }

  lemma AssembledLine(lib: Library, st: State, p: Profile, r: Rule) returns (rid: string)
    requires Assembled(ContextOf(lib, st), st, p) && WellFormed(lib, st) && r in p.rules && r != Final(DEFAULT_GROUP)
    ensures exists rt | rt in st.routes && rt.enabled :: rt.id == rid
    ensures r.Rule? && r.policy == ServiceName(rid) && ',' !in r.value
  {
    hide ContextOf, Assembled;
    RuleOrigin(ContextOf(lib, st), st, p, r);
    var rt :| rt in st.routes && Emits(ContextOf(lib, st), rt) && LineOfRoute(ContextOf(lib, st), rt, r);
    assert GoodRoute(lib, st, rt);
    LineValueCommaFree(lib, st, rt, r);
    LinePolicy(ContextOf(lib, st), rt, r);
    rid := rt.id;
  }

  lemma FirstLine(lib: Library, st: State, rt: Route) returns (r: Rule)
    requires GoodRoute(lib, st, rt)
    ensures LineOfRoute(ContextOf(lib, st), rt, r)
  {
    hide ContextOf, ValidAddition, AdditionKey, GoodTarget, ValidProvider;
    if |rt.conditions| > 0 {
      var c := rt.conditions[0];
      assert GoodCondition(lib, st.settings, c);
      assert ConditionRule(c).Some?;
      r := Rule(ConditionRule(c).value, c.value, ServiceName(rt.id));
      assert LineOf(ContextOf(lib, st), rt.id, c, r);
    } else {
      r := Rule(R_RULE_SET, rt.providers[0], ServiceName(rt.id));
    }
  }

  /** Every enabled route has a line. */
  lemma RouteHasLine(lib: Library, st: State, rt: Route) returns (r: Rule)
    requires Compiled(lib, st).Ok? && rt in st.routes && rt.enabled
    ensures r in Compiled(lib, st).value.rules && r.Rule? && r.policy == ServiceName(rt.id) && ',' !in r.value
  {
    hide ContextOf, Compiled, Assembled, GoodRoute, LineOfRoute;
    SuccessAssembles(lib, st);
    CompilesIff(lib, st);
    r := FirstLine(lib, st, rt);
    LinePolicy(ContextOf(lib, st), rt, r);
    LineValueCommaFree(lib, st, rt, r);
    EmittingRoute(ContextOf(lib, st), st, Compiled(lib, st).value, rt, r);
  }

  lemma EmittingRoute(ctx: Context, st: State, p: Profile, rt: Route, r: Rule)
    requires Assembled(ctx, st, p) && rt in st.routes && rt.enabled && LineOfRoute(ctx, rt, r)
    ensures r in p.rules
  {
    hide LineOfRoute;
    RuleOrigin(ctx, st, p, r);
  }

  /** A line splits back into its rule exactly when the route ID it names has no comma. */
  lemma LineSplitsIff(lib: Library, st: State, r: Rule)
    requires Compiled(lib, st).Ok? && r in Compiled(lib, st).value.rules
    ensures SplitCommas(Render(r)) == Segments(r) <==> ',' !in r.policy
  {
    hide Compiled, SplitCommas, Render, Segments;
    if r != Final(DEFAULT_GROUP) { var rid := ProfileLine(lib, st, r); }
    RenderSplitsIff(r);
  }

  /** Printing a whole profile loses nothing, every line splitting back into its rule, exactly when no
      enabled route has a comma in its ID. */
  lemma ProfileLinesSplitIff(lib: Library, st: State)
    requires Compiled(lib, st).Ok?
    ensures (forall r | r in Compiled(lib, st).value.rules :: SplitCommas(Render(r)) == Segments(r))
        <==> forall rt | rt in st.routes && rt.enabled :: ',' !in rt.id
  {
    hide Compiled, SplitCommas, Render, Segments, ServiceName;
    forall rt | rt in st.routes && rt.enabled && ',' in rt.id
      ensures exists r | r in Compiled(lib, st).value.rules :: SplitCommas(Render(r)) != Segments(r)
    {
      var r := RouteHasLine(lib, st, rt);
      ServiceNameCommas(rt.id);
      LineSplitsIff(lib, st, r);
    }
    forall r | r in Compiled(lib, st).value.rules && SplitCommas(Render(r)) != Segments(r)
      ensures exists rt | rt in st.routes && rt.enabled :: ',' in rt.id
    {
      LineSplitsIff(lib, st, r);
      ServiceNameCommas("");
      var rid := ProfileLine(lib, st, r);
      ServiceNameCommas(rid);
    }
  }

  lemma TrimIdempotent(v: string)
    ensures TrimSpace(TrimSpace(v)) == TrimSpace(v)
  {
    TrimmedIff(TrimSpace(v));
  }

  lemma ServiceNameTrimmed(rid: string)
    requires ',' !in rid && (|rid| > 0 ==> !IsSpace(rid[|rid| - 1]))
    ensures TrimSpace(ServiceName(rid)) == ServiceName(rid) && ',' !in ServiceName(rid)
    ensures !IsSpace(ServiceName(rid)[|ServiceName(rid)| - 1])
  {
    var name := ServiceName(rid);
    assert name[0] == 'r' && name[|name| - 1] == (if |rid| > 0 then rid[|rid| - 1] else ':');
    TrimmedIff(name);
  }

  lemma LineTrimmed(r: Rule)
    requires r.Rule? && |r.policy| > 0 && !IsSpace(r.policy[|r.policy| - 1])
    ensures TrimSpace(Render(r)) == Render(r) && Render(r) != ""
  {
    hide TrimSpace;
    var line := Render(r);
    TypeTextShape(r.kind);
    assert line[0] == TypeText(r.kind)[0];
    assert line[|line| - 1] == r.policy[|r.policy| - 1];
    TrimmedIff(line);
  }

  /** How a printed line is read back. */
  lemma ParsedLine(r: Rule)
    requires r.Rule? && ',' !in r.value && ',' !in r.policy
    requires |r.policy| > 0 && TrimSpace(r.policy) == r.policy && !IsSpace(r.policy[|r.policy| - 1])
    ensures |SplitCommas(TrimSpace(Render(r)))| == 3
    ensures ParseRuleLine(Render(r))
         == Some(External(TypeText(r.kind), TrimSpace(r.value), r.policy, false, Render(r)))
  {
    hide TrimSpace, SplitCommas, ToUpper, TypeText, Render;
    LineTrimmed(r);
    RenderSplitsIff(r);
    TypeTextShape(r.kind);
    CapsSurvive(TypeText(r.kind));
  }

  lemma AcceptedRule(lib: Library, c: Condition)
    requires Accepted(lib, c)
    ensures ConditionRule(c).Some? && ',' !in c.value
    ensures ImportableType(TypeText(ConditionRule(c).value)) == Some(c.kind)
  {
    assert forall i | 0 <= i < |c.value| :: c.value[i] !in ",:\n\r";
    assert ",:\n\r"[0] == ',';
  }

  /** Printing a condition and importing the line gives the condition back exactly when its
      value carries no surrounding white space. */
  lemma PrintParseIff(lib: Library, c: Condition, rid: string)
    requires Accepted(lib, c)
    requires ',' !in rid && (|rid| > 0 ==> !IsSpace(rid[|rid| - 1]))
    ensures ConditionRule(c).Some?
    ensures var line := Render(Rule(ConditionRule(c).value, c.value, ServiceName(rid)));
      var parsed := ParseRuleLine(line);
      && |SplitCommas(TrimSpace(line))| == 3
      && parsed.Some? && parsed.value.target == "rt:" + rid
      && ImportableType(parsed.value.kind) == Some(c.kind)
      && (ConditionFromRule(lib, parsed.value, c.kind) == Ok(Condition(c.kind, c.value, ""))
          <==> !IsSpace(c.value[0]) && !IsSpace(c.value[|c.value| - 1]))
  {
    hide ValueOk, TrimSpace, SplitCommas, Render, TypeText, ConditionRule, ParseRuleLine, ImportableType;
    AcceptedRule(lib, c);
    ServiceNameTrimmed(rid);
    ParsedLine(Rule(ConditionRule(c).value, c.value, ServiceName(rid)));
    TrimIdempotent(c.value);
    TrimmedIff(c.value);
  }
}
