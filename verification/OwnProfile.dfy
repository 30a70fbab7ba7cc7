/** Importing the profile this program generated itself: how its lines are read back, whatever the
    route IDs look like, and exactly when nothing of it is imported. */
module OwnProfile {
  import opened Prelude
  import opened Text
  import opened Model
  import opened RuleLine
  import opened Api
  import opened Import
  import opened Generator

  // ---------------------------------------------------------------- trimming

  lemma {:induction false} TrimRightKeeps(s: string, i: nat)
    requires i < |s| && !IsSpace(s[i])
    ensures |TrimRight(s)| > i
  {
    if IsSpace(s[|s| - 1]) { TrimRightKeeps(s[..|s| - 1], i); }
  }

  lemma {:induction false} TrimRightAppend(x: string, s: string)
    requires TrimRight(s) != ""
    ensures TrimRight(x + s) == x + TrimRight(s)
  {
    if IsSpace(s[|s| - 1]) {
      assert (x + s)[..|x + s| - 1] == x + s[..|s| - 1];
      TrimRightAppend(x, s[..|s| - 1]);
    }
  }

  /** A prefix whose ends are no spaces survives trimming. */
  lemma TrimKeepsPrefix(s: string, p: string)
    requires HasPrefix(s, p) && |p| > 0 && !IsSpace(p[0]) && !IsSpace(p[|p| - 1])
    ensures HasPrefix(TrimSpace(s), p)
    ensures TrimSpace(s) == TrimRight(s)
  {
    assert s[0] == p[0] && s[|p| - 1] == p[|p| - 1];
    TrimRightKeeps(s, |p| - 1);
  }

  lemma {:induction false} FirstPiece(s: string, p: string)
    requires HasPrefix(s, p) && ',' !in p
    ensures HasPrefix(SplitCommas(s)[0], p)
  {
    if |p| > 0 {
      assert s[0] == p[0] && p[0] in p;
      assert HasPrefix(s[1..], p[1..]);
      FirstPiece(s[1..], p[1..]);
      var rest := SplitCommas(s[1..])[0];
      assert p == [p[0]] + p[1..];
      assert ([s[0]] + rest)[..|p|] == [s[0]] + rest[..|p| - 1];
    }
  }

  // ---------------------------------------------------------------- reading a printed line

  /** The policy a printed line is read back with: its pieces are taken for a policy, a policy and an
      option, or a policy in two parts. */
  function PolicyRead(policy: string): Option<string> {
    var parts := SplitCommas(TrimSpace(policy));
    if |parts| == 1 then Some(TrimSpace(parts[0]))
    else if |parts| == 2 then
      if TrimSpace(parts[1]) == "no-resolve" then Some(TrimSpace(parts[0]))
      else Some(TrimSpace(parts[0]) + "," + TrimSpace(parts[1]))
    else None
  }

  lemma ServicePrefix(rid: string)
    ensures HasPrefix(ServiceName(rid), "rt:") && ',' !in "rt:" && !IsSpace("rt:"[0]) && !IsSpace("rt:"[2])
  {
    assert "rt:"[0] == 'r' && "rt:"[1] == 't' && "rt:"[2] == ':';
  }

  lemma PolicyReadIsService(rid: string)
    ensures PolicyRead(ServiceName(rid)).Some? ==> HasPrefix(PolicyRead(ServiceName(rid)).value, "rt:")
  {
    hide TrimSpace, SplitCommas, ServiceName;
    ServicePrefix(rid);
    var trimmed := TrimSpace(ServiceName(rid));
    TrimKeepsPrefix(ServiceName(rid), "rt:");
    FirstPiece(trimmed, "rt:");
    TrimKeepsPrefix(SplitCommas(trimmed)[0], "rt:");
  }

  lemma TypeStarts(r: Rule)
    requires r.Rule?
    ensures HasPrefix(Render(r), TypeText(r.kind)) && |TypeText(r.kind)| > 0
    ensures !IsSpace(TypeText(r.kind)[0]) && !IsSpace(TypeText(r.kind)[|TypeText(r.kind)| - 1])
  {
    TypeTextShape(r.kind);
    hide TypeText;
    var t := TypeText(r.kind);
    assert Render(r)[..|t|] == t;
  }

  /** Trimming a printed line trims its policy. */
  lemma TrimmedLine(r: Rule, rid: string)
    requires r.Rule? && r.policy == ServiceName(rid)
    ensures TrimSpace(Render(r)) == Render(r.(policy := TrimSpace(r.policy))) && TrimSpace(Render(r)) != ""
  {
    hide TrimRight, TrimLeft, TrimSpace, TypeText, ServiceName, HasPrefix, IsSpace;
    var front := TypeText(r.kind) + "," + r.value + ",";
    ServicePrefix(rid);
    TrimKeepsPrefix(r.policy, "rt:");
    NotEmpty(r.policy, "rt:");
    TypeStarts(r);
    TrimKeepsPrefix(Render(r), TypeText(r.kind));
    assert Render(r) == front + r.policy;
    TrimRightAppend(front, r.policy);
  }

  lemma NotEmpty(s: string, p: string)
    requires HasPrefix(s, p) && |p| > 0 && !IsSpace(p[0]) && !IsSpace(p[|p| - 1])
    ensures TrimRight(s) != ""
  {
    hide TrimSpace;
    TrimKeepsPrefix(s, p);
  }

  /** How a line of a profile is read back, for any route ID. */
  lemma ReadBack(r: Rule, rid: string)
    requires r.Rule? && ',' !in r.value && r.policy == ServiceName(rid)
    ensures var ru := ReadLine(Render(r));
      match PolicyRead(r.policy)
      case Some(name) => ru.kind == TypeText(r.kind) && ru.value == TrimSpace(r.value) && ru.target == name
      case None => ru.kind == ""
  {
    hide TrimSpace, SplitCommas, ToUpper, TypeText, Render, ServiceName;
    var trimmed := r.(policy := TrimSpace(r.policy));
    TrimmedLine(r, rid);
    RenderPieces(trimmed);
    TypeTextShape(r.kind);
    CapsSurvive(TypeText(r.kind));
    var pieces := SplitCommas(TrimSpace(r.policy));
    assert SplitCommas(Render(trimmed)) == [TypeText(r.kind), r.value] + pieces;
  }

  // ---------------------------------------------------------------- which lines are eligible

  /** The condition a line is imported as. */
  function LineCondition(lib: Library, r: Rule): Option<Condition>
    requires r.Rule?
  {
    match ImportableType(TypeText(r.kind))
    case None => None
    case Some(kind) =>
      var value := TrimSpace(r.value);
      if value != "" && ValueOk(lib, kind, value) then Some(Condition(kind, value, "")) else None
  }

  /** A group of the name, or else a first server of the name whose ID does not lead to a stale one. */
  predicate NamesTarget(st: State, name: string) {
    || FirstGroupNamed(st.groups, name).Some?
    || (FirstServerNamed(st.servers, name).Some?
        && var s := FirstServer(st.servers, FirstServerNamed(st.servers, name).value.id);
           s.Some? && !s.value.stale)
  }

  lemma NotBuiltin(name: string)
    requires HasPrefix(name, "rt:")
    ensures BuiltinTarget(name) == None
  {
    hide TrimSpace;
    ServicePrefix("");
    TrimKeepsPrefix(name, "rt:");
    assert TrimSpace(name)[0] == 'r' by { assert TrimSpace(name)[..3] == "rt:" && TrimSpace(name)[..3][0] == 'r'; }
    assert "DIRECT"[0] == 'D' && "REJECT"[0] == 'R' && "REJECT-DROP"[0] == 'R';
  }

  lemma ServiceTargetIff(st: State, ru: External)
    requires HasPrefix(ru.target, "rt:")
    ensures RuleTarget(st, ru).Ok? <==> NamesTarget(st, ru.target)
  {
    hide BuiltinTarget, HasPrefix;
    NotBuiltin(ru.target);
    var g := FirstGroupNamed(st.groups, ru.target);
    if g.Some? {
      var i :| 0 <= i < |st.groups| && st.groups[i] == g.value;
      assert ExistsGroup(st, g.value.id);
    }
  }

  lemma LineConditionIff(lib: Library, r: Rule, ru: External)
    requires r.Rule? && ru.kind == TypeText(r.kind) && ru.value == TrimSpace(r.value)
    ensures RuleCondition(lib, ru).Ok? <==> LineCondition(lib, r).Some?
    ensures RuleCondition(lib, ru).Ok? ==> RuleCondition(lib, ru).value == LineCondition(lib, r).value
  {
    hide TrimSpace, ValueOk, TypeText, ImportableType;
    TrimIdempotent(r.value);
  }

  /** The line would add a route: it is importable, its policy as read back names a valid target, and
      the document does not have its condition. */
  ghost predicate Importable(lib: Library, into: State, r: Rule) {
    && r.Rule? && LineCondition(lib, r).Some?
    && PolicyRead(r.policy).Some? && NamesTarget(into, PolicyRead(r.policy).value)
    && CondKey(LineCondition(lib, r).value) !in KeysOf(into.routes)
  }

  lemma FinalLineSkipped(lib: Library, into: State)
    ensures !Eligible(lib, into, ReadLine(Render(Final(DEFAULT_GROUP))))
  {
    hide TrimSpace, SplitCommas, ToUpper;
    var line := Render(Final(DEFAULT_GROUP));
    assert line == "MATCH" + "," + "rt:default" == "MATCH,rt:default";
    TrimmedIff(line);
    SplitNoComma("rt:default");
    SplitAtComma("MATCH", "rt:default");
    CapsSurvive("MATCH");
  }

  lemma OwnLineIff(lib: Library, st: State, into: State, r: Rule)
    requires Compiled(lib, st).Ok? && r in Compiled(lib, st).value.rules
    ensures var ru := ReadLine(Render(r));
      Importable(lib, into, r) <==> Eligible(lib, into, ru) && RuleKey(lib, ru) !in KeysOf(into.routes)
  {
    hide Compiled, Render, LineCondition, PolicyRead, NamesTarget, CondKey, KeysOf, RuleTarget, ReadLine;
    if r == Final(DEFAULT_GROUP) {
      FinalLineSkipped(lib, into);
    } else {
      var rid := ProfileLine(lib, st, r);
      hide ServiceName;
      var ru := ReadLine(Render(r));
      ReadBack(r, rid);
      if PolicyRead(r.policy).Some? {
        PolicyReadIsService(rid);
        LineConditionIff(lib, r, ru);
        ServiceTargetIff(into, ru);
      }
    }
  }

  // ---------------------------------------------------------------- the whole profile

  /** The rules are the lines of the profile compiled from the state, read back. */
  ghost predicate ReadFrom(lib: Library, st: State, rules: seq<External>) {
    && Compiled(lib, st).Ok?
    && var own := Compiled(lib, st).value.rules;
       |rules| == |own| && forall i | 0 <= i < |own| :: rules[i] == ReadLine(Render(own[i]))
  }

  /** Reading back the profile this program generated imports nothing exactly when none of its lines
      is importable into the document at hand. */
  lemma OwnProfileImportedIff(lib: Library, st: State, into: State, rules: seq<External>)
    requires ReadFrom(lib, st, rules)
    ensures var o := ImportRules(lib, into, rules);
      && (o.imported == 0 <==> forall r | r in Compiled(lib, st).value.rules :: !Importable(lib, into, r))
      && (o.imported == 0 ==> o.st == into && |o.notes| == |rules|)
  {
    hide Compiled, Importable, RuleCondition, RuleTarget, RuleKey, KeysOf, ReadLine, Render;
    NothingImportedIff(lib, into, rules);
    var own := Compiled(lib, st).value.rules;
    forall r | r in own && Importable(lib, into, r)
      ensures exists ru | ru in rules && Eligible(lib, into, ru) :: RuleKey(lib, ru) !in KeysOf(into.routes)
    {
      var i :| 0 <= i < |own| && own[i] == r;
      OwnLineIff(lib, st, into, r);
      assert rules[i] in rules;
    }
    forall ru | ru in rules && Eligible(lib, into, ru) && RuleKey(lib, ru) !in KeysOf(into.routes)
      ensures exists r | r in own :: Importable(lib, into, r)
    {
      var i :| 0 <= i < |rules| && rules[i] == ru;
      OwnLineIff(lib, st, into, own[i]);
      assert own[i] in own;
    }
  }

  ghost predicate NoServiceNames(st: State) {
    && (forall g | g in st.groups :: !HasPrefix(g.name, "rt:"))
    && (forall s | s in st.servers :: !HasPrefix(s.name, "rt:"))
  }

  lemma NotImportable(lib: Library, st: State, into: State, r: Rule)
    requires Compiled(lib, st).Ok? && r in Compiled(lib, st).value.rules && NoServiceNames(into)
    ensures !Importable(lib, into, r)
  {
    hide Compiled, LineCondition, PolicyRead, KeysOf, CondKey, ServiceName, HasPrefix;
    if r.Rule? {
      var rid := ProfileLine(lib, st, r);
      PolicyReadIsService(rid);
    }
  }

  /** So nothing is imported as long as no server or group carries a name of the reserved form,
      whatever the route IDs are. */
  lemma OwnProfileNotImported(lib: Library, st: State, into: State, rules: seq<External>)
    requires ReadFrom(lib, st, rules) && NoServiceNames(into)
    ensures var o := ImportRules(lib, into, rules); o.st == into && o.imported == 0 && |o.notes| == |rules|
  {
    hide Compiled, Importable, NoServiceNames, ImportRules;
    OwnProfileImportedIff(lib, st, into, rules);
    forall r | r in Compiled(lib, st).value.rules ensures !Importable(lib, into, r) {
      NotImportable(lib, st, into, r);
    }
  }
}
