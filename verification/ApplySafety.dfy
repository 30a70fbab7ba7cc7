/** What the apply/rollback protocol guarantees for every outcome of every adapter call. */
module ApplySafety {
  import opened Prelude
  import opened Model
  import opened Generator
  import opened Build
  import opened WellFormedness
  import opened Apply

  // ---------------------------------------------------------------- one Apply

  ghost predicate Generates(lib: Library, known: Option<set<string>>, st: State) {
    WellFormed(lib, st) && (known.Some? ==> forall p | p in ProviderUses(st.routes) :: p in known.value)
  }

  ghost predicate Succeeds(r: Restart) {
    r.sets && r.commits && r.restarts
  }

  /** The call got as far as asking the restarted core for its health. */
  ghost predicate ReachesHealth(lib: Library, known: Option<set<string>>, a: ApplyInput) {
    a.state.Some? && Generates(lib, known, a.state.value) && a.writes && a.accepted && Succeeds(a.restart)
  }

  lemma TrimLast(recs: seq<Record>, rec: Record)
    ensures |Trim(recs + [rec])| > 0 && Trim(recs + [rec])[|Trim(recs + [rec])| - 1] == rec
  {
  }

  /** What each step leaves alone. */
  lemma AppendKeeps(w: World, rec: Record, readable: bool, saves: bool)
    ensures var w' := AppendStep(w, rec, readable, saves);
      && w'.files == w.files && w'.selected == w.selected && w'.running == w.running
      && w'.healthy == w.healthy && w'.lastGood == w.lastGood
      && (!saves ==> w' == w)
      && (saves ==> |w'.history| > 0 && w'.history[|w'.history| - 1] == rec)
  {
    hide Trim;
    var recs := if readable then w.history else [];
    if saves {
      TrimLast(recs, rec);
      assert AppendStep(w, rec, readable, saves)
          == World(w.files, w.selected, w.running, w.healthy, w.lastGood, Trim(recs + [rec]), w.log + [rec],
              w.trace + [Recorded(rec)]);
    }
  }

  lemma RestoreKeeps(w: World, name: string, r: Restart, healthy: bool)
    ensures var (w', ok) := RestoreStep(w, name, r, healthy);
      && w'.files == w.files && w'.history == w.history && w'.log == w.log && w'.lastGood == w.lastGood
      && (ok <==> Sanitize(name) in w.files && Succeeds(r) && healthy)
      && (ok ==> w'.running == w'.selected == Some(Sanitize(name)) && w'.healthy)
  {
    hide Sanitize;
  }

  lemma FailoverKeeps(w: World, a: ApplyInput)
    ensures var (w', out) := FailoverStep(w, a);
      && !out.Ok() && w'.history == w.history && w'.log == w.log && w'.lastGood == w.lastGood
      && (out.rolledBack.Some? <==>
            w.lastGood.Some? && w.lastGood.value != a.name && Sanitize(w.lastGood.value) in w.files
                && Succeeds(a.back) && a.backHealthy)
      && (out.rolledBack.Some? ==>
            out.rolledBack == w.lastGood && w'.running == w'.selected == Some(Sanitize(w.lastGood.value)) && w'.healthy)
  {
    hide Sanitize, RestoreStep;
    if w.lastGood.Some? { RestoreKeeps(w, w.lastGood.value, a.back, a.backHealthy); }
  }

  /** The world when the restarted core is asked for its health. */
  function Started(w: World, a: ApplyInput, p: Profile): World {
    HealthStep(ActivateStep(ValidateStep(WriteStep(w, a.name, p), a.name), a.name, a.restart).0, a.healthy)
  }

  lemma StartedKeeps(w: World, a: ApplyInput, p: Profile)
    requires Succeeds(a.restart)
    ensures var n, w' := Sanitize(a.name), Started(w, a, p);
      && w'.files == w.files[n := Generated(p)] && w'.running == w'.selected == Some(n) && w'.healthy == a.healthy
      && w'.lastGood == w.lastGood && w'.history == w.history && w'.log == w.log
  {
    hide Sanitize;
  }

  lemma InstallIs(hash: StateHash, w: World, st: State, a: ApplyInput, p: Profile)
    ensures var (w', out) := InstallStep(hash, w, st, a, p);
      && (a.writes && a.accepted && Succeeds(a.restart) ==>
            (w', out) == if a.healthy then CommitStep(hash, Started(w, a, p), st, a)
                         else FailoverStep(Started(w, a, p), a))
      && (!(a.writes && a.accepted && Succeeds(a.restart)) ==>
            out.rolledBack.None? && !out.Ok() && w'.history == w.history && w'.log == w.log
                && w'.lastGood == w.lastGood)
  {
    hide Sanitize, CommitStep, FailoverStep;
  }

  lemma DocumentIff(lib: Library, known: Option<set<string>>, a: ApplyInput)
    requires a.state.Some?
    ensures Checked(Compiled(lib, a.state.value), known).Ok? <==> Generates(lib, known, a.state.value)
    ensures Checked(Compiled(lib, a.state.value), known).Ok? ==>
      Checked(Compiled(lib, a.state.value), known) == Compiled(lib, a.state.value)
  {
    hide Compiled, WellFormed;
    GeneratesIff(lib, a.state.value, known);
  }

  ghost predicate Installed(w: World, w': World, a: ApplyInput, p: Profile) {
    var n := Sanitize(a.name);
    && w'.files == w.files[n := Generated(p)]
    && w'.running == w'.selected == w'.lastGood == Some(n) && w'.healthy
  }

  /** Success, exactly characterised, and everything it leaves behind: the compiled profile on
      disk, selected, running, healthy and the new rollback target. */
  lemma ApplySucceedsIff(lib: Library, known: Option<set<string>>, hash: StateHash, w: World, a: ApplyInput)
    ensures var (w', out) := ApplyStep(lib, known, hash, w, a);
      && (out.Ok() <==> ReachesHealth(lib, known, a) && a.healthy)
      && (out.Ok() ==> Compiled(lib, a.state.value).Ok? && Installed(w, w', a, Compiled(lib, a.state.value).value)
                       && out.profile == Some(a.name) && out.unsaved == !a.saves)
      && (!out.Ok() ==> w'.history == w.history && w'.log == w.log && w'.lastGood == w.lastGood)
  {
    hide Compiled, Checked, Generates, Sanitize, AppendStep, FailoverStep, InstallStep, Started;
    if a.state.Some? {
      DocumentIff(lib, known, a);
      if Checked(Compiled(lib, a.state.value), known).Ok? {
        var p := Checked(Compiled(lib, a.state.value), known).value;
        InstallIs(hash, w, a.state.value, a, p);
        if Succeeds(a.restart) { StartedKeeps(w, a, p); }
        var w3 := Started(w, a, p);
        FailoverKeeps(w3, a);
        AppendKeeps(w3.(lastGood := Some(Sanitize(a.name))), Record(a.name, hash(a.state.value), a.at), a.readable,
            a.saves);
      }
    }
  }

  /** Automatic rollback, exactly characterised: RolledBack means the last good profile is
      selected, running and healthy again, and nothing was recorded. */
  lemma RollsBackIff(lib: Library, known: Option<set<string>>, hash: StateHash, w: World, a: ApplyInput)
    ensures var (w', out) := ApplyStep(lib, known, hash, w, a);
      && (out.rolledBack.Some? <==>
            ReachesHealth(lib, known, a) && !a.healthy && w.lastGood.Some? && w.lastGood.value != a.name
            && (Sanitize(w.lastGood.value) in w.files || Sanitize(w.lastGood.value) == Sanitize(a.name))
            && Succeeds(a.back) && a.backHealthy)
      && (out.rolledBack.Some? ==>
            && out.rolledBack == w.lastGood == w'.lastGood && w'.healthy
            && w'.running == w'.selected == Some(Sanitize(w'.lastGood.value))
            && w'.history == w.history)
  {
    hide Compiled, Checked, Generates, Sanitize, AppendStep, FailoverStep, InstallStep, Started;
    if a.state.Some? {
      DocumentIff(lib, known, a);
      if Checked(Compiled(lib, a.state.value), known).Ok? {
        var p := Checked(Compiled(lib, a.state.value), known).value;
        InstallIs(hash, w, a.state.value, a, p);
        if Succeeds(a.restart) { StartedKeeps(w, a, p); }
        FailoverKeeps(Started(w, a, p), a);
      }
    }
  }

  /** A stop at "activate" restores nothing: the new profile stays selected exactly when the
      commit went through and only the restart failed. */
  lemma ActivateFailureKeepsSelection(lib: Library, known: Option<set<string>>, hash: StateHash, w: World,
      a: ApplyInput)
    requires ApplyStep(lib, known, hash, w, a).1.stage.AtActivate?
    ensures var w' := ApplyStep(lib, known, hash, w, a).0;
      && w'.selected == (if a.restart.sets && a.restart.commits then Some(Sanitize(a.name)) else w.selected)
      && w'.running == (if a.restart.sets && a.restart.commits then None else w.running)
      && w'.lastGood == w.lastGood && w'.history == w.history
  {
    hide Compiled, Checked, Sanitize, Trim;
  }

  // ---------------------------------------------------------------- runs

  datatype Command = DoApply(a: ApplyInput) | DoRollback(b: RollbackInput)

  function Step(lib: Library, known: Option<set<string>>, hash: StateHash, w: World, c: Command): World {
    match c
    case DoApply(a) => ApplyStep(lib, known, hash, w, a).0
    case DoRollback(b) => RollbackStep(w, b).0
  }

  function Run(lib: Library, known: Option<set<string>>, hash: StateHash, w: World, cs: seq<Command>): World {
    if |cs| == 0 then w
    else Step(lib, known, hash, Run(lib, known, hash, w, cs[..|cs| - 1]), cs[|cs| - 1])
  }

  /** Start-up: history from disk, the rollback target seeded by Detect. */
  function Boot(files: map<string, Content>, selected: Option<string>, uciAnswers: bool, history: seq<Record>): World {
    var seed :=
      if uciAnswers && selected.Some? && selected.value != "" && Sanitize(selected.value) in files then selected
      else None;
    World(files, selected, None, false, seed, history, history, [])
  }

  // ---------------------------------------------------------------- the trace explains itself

  predicate IsActivation(e: Event, n: string) {
    e.Activated? && e.name == n
  }

  /** A profile this application vetted, or one that was in place before it started. */
  ghost predicate Vetted(boot: World, t: seq<Event>, n: string) {
    || (exists c :: Validated(n, c) in t)
    || (boot.lastGood.Some? && n == Sanitize(boot.lastGood.value))
    || (exists r | r in boot.history :: n == Sanitize(r.profile))
  }

  /** Records follow an activation that turned out healthy; activations concern vetted
      profiles; validation judges the file just written. */
  ghost predicate Justified(boot: World, t: seq<Event>, i: nat)
    requires i < |t|
  {
    match t[i]
    case Recorded(rec) => i >= 2 && t[i - 1] == HealthOk && IsActivation(t[i - 2], Sanitize(rec.profile))
    case Activated(n, _) => Vetted(boot, t[..i], n)
    case Validated(n, _) => i >= 1 && t[i - 1] == Wrote(n)
    case _ => true
  }

  ghost predicate Safe(boot: World, w: World) {
    && (forall i | 0 <= i < |w.trace| :: Justified(boot, w.trace, i))
    && (w.lastGood.Some? ==> Vetted(boot, w.trace, Sanitize(w.lastGood.value)))
    && (forall r | r in w.history :: Vetted(boot, w.trace, Sanitize(r.profile)))
  }

  lemma VettedGrows(boot: World, t: seq<Event>, more: seq<Event>, n: string)
    requires Vetted(boot, t, n)
    ensures Vetted(boot, t + more, n)
  {
  }

  lemma JustifiedGrows(boot: World, t: seq<Event>, e: Event)
    requires forall i | 0 <= i < |t| :: Justified(boot, t, i)
    requires Justified(boot, t + [e], |t|)
    ensures forall i | 0 <= i < |t + [e]| :: Justified(boot, t + [e], i)
  {
    forall i | 0 <= i < |t| ensures Justified(boot, t + [e], i) {
      assert Justified(boot, t, i);
      assert (t + [e])[..i] == t[..i];
    }
  }

  /** Appending a justified event keeps a safe world safe. */
  lemma SafeAppend(boot: World, w: World, e: Event, w': World)
    requires Safe(boot, w) && Justified(boot, w.trace + [e], |w.trace|)
    requires w'.trace == w.trace + [e] && w'.lastGood == w.lastGood && w'.history == w.history
    ensures Safe(boot, w')
  {
    hide Vetted, Justified;
    JustifiedGrows(boot, w.trace, e);
    if w.lastGood.Some? { VettedGrows(boot, w.trace, [e], Sanitize(w.lastGood.value)); }
    forall r | r in w'.history ensures Vetted(boot, w'.trace, Sanitize(r.profile)) {
      VettedGrows(boot, w.trace, [e], Sanitize(r.profile));
    }
  }

  lemma SafeActivate(boot: World, w: World, name: string, r: Restart)
    requires Safe(boot, w) && Vetted(boot, w.trace, Sanitize(name))
    ensures Safe(boot, ActivateStep(w, name, r).0)
    ensures ActivateStep(w, name, r).1 ==> var t := ActivateStep(w, name, r).0.trace;
      |t| > 0 && t[|t| - 1] == Activated(Sanitize(name), Held(w.files, Sanitize(name)))
  {
    hide Vetted, Sanitize;
    var w' := ActivateStep(w, name, r).0;
    if ActivateStep(w, name, r).1 {
      var e := Activated(Sanitize(name), w.files[Sanitize(name)]);
      var t := w.trace + [e];
      assert t[..|w.trace|] == w.trace;
      SafeAppend(boot, w, e, w');
    }
  }

  lemma SafeHealth(boot: World, w: World, ok: bool)
    requires Safe(boot, w)
    ensures Safe(boot, HealthStep(w, ok))
  {
    if ok { SafeAppend(boot, w, HealthOk, HealthStep(w, ok)); }
  }

  lemma SafeRecord(boot: World, w: World, rec: Record, readable: bool, saves: bool)
    requires Safe(boot, w) && Vetted(boot, w.trace, Sanitize(rec.profile))
    requires |w.trace| >= 2 && w.trace[|w.trace| - 1] == HealthOk
    requires IsActivation(w.trace[|w.trace| - 2], Sanitize(rec.profile))
    ensures Safe(boot, AppendStep(w, rec, readable, saves))
  {
    hide Vetted, Sanitize, Safe, Trim, Justified;
    if saves {
      var w' := AppendStep(w, rec, readable, saves);
      var mid := w.(trace := w.trace + [Recorded(rec)], log := w.log + [rec]);
      RecordJustified(boot, w.trace, rec);
      SafeAppend(boot, w, Recorded(rec), mid);
      VettedGrows(boot, w.trace, [Recorded(rec)], Sanitize(rec.profile));
      TrimKeeps(if readable then w.history else [], rec);
      SafeHistory(boot, mid, w'.history, rec);
      assert w' == mid.(history := w'.history);
    }
  }

  lemma RecordJustified(boot: World, t: seq<Event>, rec: Record)
    requires |t| >= 2 && t[|t| - 1] == HealthOk && IsActivation(t[|t| - 2], Sanitize(rec.profile))
    ensures Justified(boot, t + [Recorded(rec)], |t|)
  {
    hide Sanitize;
  }

  lemma TrimKeeps(history: seq<Record>, rec: Record)
    ensures forall r | r in Trim(history + [rec]) :: r in history || r == rec
  {
    forall r | r in Trim(history + [rec]) ensures r in history || r == rec { assert r in history + [rec]; }
  }

  /** A history of records already held, and of one more vetted profile, is safe. */
  lemma SafeHistory(boot: World, w: World, history: seq<Record>, rec: Record)
    requires Safe(boot, w) && Vetted(boot, w.trace, Sanitize(rec.profile))
    requires forall r | r in history :: r in w.history || r == rec
    ensures Safe(boot, w.(history := history))
  {
    hide Vetted, Sanitize, Justified;
  }

  lemma SafeRestore(boot: World, w: World, name: string, r: Restart, healthy: bool)
    requires Safe(boot, w) && Vetted(boot, w.trace, Sanitize(name))
    ensures var (w', ok) := RestoreStep(w, name, r, healthy);
      && Safe(boot, w')
      && (ok ==> |w'.trace| >= 2 && w'.trace[|w'.trace| - 1] == HealthOk
                 && IsActivation(w'.trace[|w'.trace| - 2], Sanitize(name)) && Vetted(boot, w'.trace, Sanitize(name)))
      && w'.history == w.history
  {
    hide Vetted, Sanitize, Safe;
    SafeActivate(boot, w, name, r);
    var (w1, ok) := ActivateStep(w, name, r);
    if ok {
      SafeHealth(boot, w1, healthy);
      var e := Activated(Sanitize(name), w.files[Sanitize(name)]);
      VettedGrows(boot, w.trace, [e, HealthOk], Sanitize(name));
      assert w1.trace + [HealthOk] == w.trace + [e, HealthOk];
    }
  }

  lemma SafeWriteValidate(boot: World, w: World, name: string, p: Profile)
    requires Safe(boot, w)
    ensures Safe(boot, WriteStep(w, name, p)) && Safe(boot, ValidateStep(WriteStep(w, name, p), name))
    ensures Vetted(boot, ValidateStep(WriteStep(w, name, p), name).trace, Sanitize(name))
  {
    hide Sanitize;
    var w1 := WriteStep(w, name, p);
    SafeAppend(boot, w, Wrote(Sanitize(name)), w1);
    SafeAppend(boot, w1, Validated(Sanitize(name), Held(w1.files, Sanitize(name))), ValidateStep(w1, name));
  }

  lemma SafeCommit(boot: World, hash: StateHash, w: World, st: State, a: ApplyInput)
    requires Safe(boot, w) && Vetted(boot, w.trace, Sanitize(a.name))
    requires |w.trace| >= 2 && w.trace[|w.trace| - 1] == HealthOk
    requires IsActivation(w.trace[|w.trace| - 2], Sanitize(a.name))
    ensures Safe(boot, CommitStep(hash, w, st, a).0)
  {
    hide Vetted, Justified;
    SanitizeTwice(a.name);
    var marked := w.(lastGood := Some(Sanitize(a.name)));
    assert Safe(boot, marked);
    SafeRecord(boot, marked, Record(a.name, hash(st), a.at), a.readable, a.saves);
  }

  lemma SafeActivated(boot: World, w: World, a: ApplyInput)
    requires Safe(boot, w) && Vetted(boot, w.trace, Sanitize(a.name))
    requires ActivateStep(w, a.name, a.restart).1
    ensures var w3 := HealthStep(ActivateStep(w, a.name, a.restart).0, a.healthy);
      && Safe(boot, w3) && Vetted(boot, w3.trace, Sanitize(a.name))
      && (a.healthy ==> |w3.trace| >= 2 && w3.trace[|w3.trace| - 1] == HealthOk
                        && IsActivation(w3.trace[|w3.trace| - 2], Sanitize(a.name)))
  {
    hide Vetted, Sanitize, Safe;
    SafeActivate(boot, w, a.name, a.restart);
    var w2 := ActivateStep(w, a.name, a.restart).0;
    SafeHealth(boot, w2, a.healthy);
    VettedGrows(boot, w.trace, [Activated(Sanitize(a.name), Held(w.files, Sanitize(a.name)))], Sanitize(a.name));
    VettedGrows(boot, w2.trace, [HealthOk], Sanitize(a.name));
  }

  lemma SafeFailover(boot: World, w: World, a: ApplyInput)
    requires Safe(boot, w)
    ensures Safe(boot, FailoverStep(w, a).0)
  {
    hide Vetted, Justified;
    if w.lastGood.Some? { SafeRestore(boot, w, w.lastGood.value, a.back, a.backHealthy); }
  }

  lemma SafeApply(boot: World, lib: Library, known: Option<set<string>>, hash: StateHash, w: World, a: ApplyInput)
    requires Safe(boot, w)
    ensures Safe(boot, ApplyStep(lib, known, hash, w, a).0)
  {
    hide Vetted, Safe, Sanitize, Compiled, Checked;
    if a.state.Some? && Checked(Compiled(lib, a.state.value), known).Ok? && a.writes {
      var p := Checked(Compiled(lib, a.state.value), known).value;
      SafeWriteValidate(boot, w, a.name, p);
      var v := ValidateStep(WriteStep(w, a.name, p), a.name);
      SafeActivate(boot, v, a.name, a.restart);
      if a.accepted && ActivateStep(v, a.name, a.restart).1 {
        SafeActivated(boot, v, a);
        var w3 := HealthStep(ActivateStep(v, a.name, a.restart).0, a.healthy);
        if a.healthy { SafeCommit(boot, hash, w3, a.state.value, a); } else { SafeFailover(boot, w3, a); }
      }
    }
  }

  lemma RecordVetted(boot: World, w: World, rec: Record)
    requires Safe(boot, w) && rec in w.history
    ensures Vetted(boot, w.trace, Sanitize(rec.profile))
  {
    hide Vetted, Sanitize, Justified;
  }

  lemma SafeRollback(boot: World, w: World, b: RollbackInput)
    requires Safe(boot, w)
    ensures Safe(boot, RollbackStep(w, b).0)
  {
    hide Vetted, Sanitize, Safe, RestoreStep, AppendStep;
    var back := if b.stepBack < 1 then 1 else b.stepBack;
    var recs := if b.readable then w.history else [];
    if |recs| - 1 - back >= 0 {
      var rec := recs[|recs| - 1 - back];
      RecordVetted(boot, w, rec);
      SafeRestore(boot, w, rec.profile, b.restart, b.healthy);
      var (w1, ok) := RestoreStep(w, rec.profile, b.restart, b.healthy);
      if ok { SafeRecord(boot, w1, Record(rec.profile, rec.stateHash, b.at), b.readableAgain, b.saves); }
    }
  }

  /** Every run, whatever fails: records only after activation then health, activations only of
      vetted profiles, rollback targets and history always vetted. */
  lemma {:induction false} RunIsSafe(lib: Library, known: Option<set<string>>, hash: StateHash,
                                     files: map<string, Content>, selected: Option<string>, uciAnswers: bool,
                                     history: seq<Record>, cs: seq<Command>)
    ensures var boot := Boot(files, selected, uciAnswers, history); Safe(boot, Run(lib, known, hash, boot, cs))
  {
    var boot := Boot(files, selected, uciAnswers, history);
    if |cs| > 0 {
      hide Safe;
      RunIsSafe(lib, known, hash, files, selected, uciAnswers, history, cs[..|cs| - 1]);
      var w := Run(lib, known, hash, boot, cs[..|cs| - 1]);
      match cs[|cs| - 1]
      case DoApply(a) => SafeApply(boot, lib, known, hash, w, a);
      case DoRollback(b) => SafeRollback(boot, w, b);
    }
  }

  // ---------------------------------------------------------------- the rollback target

  /** The profile of the latest Apply of a run that reported success. */
  function LatestOk(lib: Library, known: Option<set<string>>, hash: StateHash, w: World,
      cs: seq<Command>): Option<string> {
    if |cs| == 0 then None
    else
      var init, c := cs[..|cs| - 1], cs[|cs| - 1];
      if c.DoApply? && ApplyStep(lib, known, hash, Run(lib, known, hash, w, init), c.a).1.Ok()
      then Some(Sanitize(c.a.name))
      else LatestOk(lib, known, hash, w, init)
  }

  lemma RollbackKeepsLastGood(w: World, b: RollbackInput)
    ensures RollbackStep(w, b).0.lastGood == w.lastGood
  {
    hide RestoreStep, AppendStep;
    var back := if b.stepBack < 1 then 1 else b.stepBack;
    var recs := if b.readable then w.history else [];
    if |recs| - 1 - back >= 0 {
      var rec := recs[|recs| - 1 - back];
      RestoreKeeps(w, rec.profile, b.restart, b.healthy);
      AppendKeeps(RestoreStep(w, rec.profile, b.restart, b.healthy).0, Record(rec.profile, rec.stateHash, b.at),
          b.readableAgain, b.saves);
    }
  }

  /** LastGood is the latest successful apply's profile, or the start-up seed; manual rollbacks
      do not move it. */
  lemma {:induction false} LastGoodIsLatestOk(lib: Library, known: Option<set<string>>, hash: StateHash, w: World,
      cs: seq<Command>)
    ensures var latest := LatestOk(lib, known, hash, w, cs);
      Run(lib, known, hash, w, cs).lastGood == if latest.Some? then latest else w.lastGood
  {
    if |cs| > 0 {
      var init, c := cs[..|cs| - 1], cs[|cs| - 1];
      LastGoodIsLatestOk(lib, known, hash, w, init);
      var mid := Run(lib, known, hash, w, init);
      hide ApplyStep, RollbackStep, Sanitize;
      match c
      case DoApply(a) => ApplySucceedsIff(lib, known, hash, mid, a);
      case DoRollback(b) => RollbackKeepsLastGood(mid, b);
    }
  }

  // ---------------------------------------------------------------- history and its rotation

  ghost predicate IsTail(s: seq<Record>, whole: seq<Record>) {
    |s| <= |whole| && s == whole[|whole| - |s|..]
  }

  ghost predicate ReadsWell(c: Command) {
    match c case DoApply(a) => a.readable case DoRollback(b) => b.readableAgain
  }

  lemma TrimTail(s: seq<Record>, whole: seq<Record>)
    requires IsTail(s, whole)
    ensures IsTail(Trim(s), whole)
    ensures |s| >= HISTORY_SIZE || s == whole ==> Trim(s) == Trim(whole)
  {
  }

  lemma AppendTail(w: World, rec: Record, readable: bool, saves: bool)
    requires IsTail(w.history, w.log) && |w.history| <= HISTORY_SIZE
    ensures var w' := AppendStep(w, rec, readable, saves);
      && IsTail(w'.history, w'.log) && |w'.history| <= HISTORY_SIZE
      && (readable && w.history == Trim(w.log) ==> w'.history == Trim(w'.log))
  {
    if saves {
      var recs := if readable then w.history else [];
      assert IsTail(recs, w.log);
      hide Trim;
      TrimTail(recs + [rec], w.log + [rec]);
    }
  }

  lemma RollbackHistory(w: World, b: RollbackInput)
    requires IsTail(w.history, w.log) && |w.history| <= HISTORY_SIZE
    ensures var w' := RollbackStep(w, b).0;
      && IsTail(w'.history, w'.log) && |w'.history| <= HISTORY_SIZE
      && (b.readableAgain && w.history == Trim(w.log) ==> w'.history == Trim(w'.log))
  {
    hide Trim, IsTail, AppendStep, RestoreStep;
    var back := if b.stepBack < 1 then 1 else b.stepBack;
    var recs := if b.readable then w.history else [];
    if |recs| - 1 - back >= 0 {
      var rec := recs[|recs| - 1 - back];
      RestoreKeeps(w, rec.profile, b.restart, b.healthy);
      AppendTail(RestoreStep(w, rec.profile, b.restart, b.healthy).0, Record(rec.profile, rec.stateHash, b.at),
          b.readableAgain, b.saves);
    }
  }

  lemma InstallHistory(hash: StateHash, w: World, st: State, a: ApplyInput, p: Profile)
    requires IsTail(w.history, w.log) && |w.history| <= HISTORY_SIZE
    ensures var w' := InstallStep(hash, w, st, a, p).0;
      && IsTail(w'.history, w'.log) && |w'.history| <= HISTORY_SIZE
      && (a.readable && w.history == Trim(w.log) ==> w'.history == Trim(w'.log))
  {
    hide Trim, IsTail, AppendStep, FailoverStep, InstallStep, Started, Sanitize;
    InstallIs(hash, w, st, a, p);
    if a.writes && a.accepted && Succeeds(a.restart) {
      StartedKeeps(w, a, p);
      var w3 := Started(w, a, p);
      FailoverKeeps(w3, a);
      AppendTail(w3.(lastGood := Some(Sanitize(a.name))), Record(a.name, hash(st), a.at), a.readable, a.saves);
    }
  }

  lemma StepHistory(lib: Library, known: Option<set<string>>, hash: StateHash, w: World, c: Command)
    requires IsTail(w.history, w.log) && |w.history| <= HISTORY_SIZE
    ensures var w' := Step(lib, known, hash, w, c);
      && IsTail(w'.history, w'.log) && |w'.history| <= HISTORY_SIZE
      && (ReadsWell(c) && w.history == Trim(w.log) ==> w'.history == Trim(w'.log))
  {
    hide Compiled, Checked, Trim, IsTail, InstallStep, RollbackStep;
    match c
    case DoApply(a) =>
      if a.state.Some? && Checked(Compiled(lib, a.state.value), known).Ok? {
        InstallHistory(hash, w, a.state.value, a, Checked(Compiled(lib, a.state.value), known).value);
      }
    case DoRollback(b) => RollbackHistory(w, b);
  }

  /** The stored history is always a tail of the success log, at most five long; when every read
      before an append works it is exactly the last five. */
  lemma {:induction false} HistoryIsLastFive(lib: Library, known: Option<set<string>>, hash: StateHash, w: World,
      cs: seq<Command>)
    requires w.history == w.log && |w.history| <= HISTORY_SIZE
    ensures var w' := Run(lib, known, hash, w, cs);
      && IsTail(w'.history, w'.log) && |w'.history| <= HISTORY_SIZE
      && ((forall c | c in cs :: ReadsWell(c)) ==> w'.history == Trim(w'.log))
  {
    if |cs| > 0 {
      hide Step, Trim;
      var init := cs[..|cs| - 1];
      assert cs == init + [cs[|cs| - 1]];
      HistoryIsLastFive(lib, known, hash, w, init);
      StepHistory(lib, known, hash, Run(lib, known, hash, w, init), cs[|cs| - 1]);
    } else {
      assert Trim(w.log) == w.log;
    }
  }

  // ---------------------------------------------------------------- manual rollback

  ghost predicate OneBack(b: RollbackInput) {
    b.stepBack <= 1 && b.readable && b.readableAgain && b.saves
  }

  lemma OneBackHistory(w: World, b: RollbackInput)
    requires OneBack(b) && RollbackStep(w, b).1.Restored?
    ensures |w.history| >= 2
    ensures var w' := RollbackStep(w, b).0; var n, h := |w'.history|, w.history;
      && n >= 2 && w'.history[n - 2] == h[|h| - 1]
      && w'.history[n - 1].profile == h[|h| - 2].profile && w'.history[n - 1].stateHash == h[|h| - 2].stateHash
      && w'.running == Some(Sanitize(h[|h| - 2].profile)) && w'.healthy
  {
    hide Sanitize;
  }

  /** Undoing an undo: two single-step rollbacks bring back the newest profile and state hash,
      also when the history rotates in between. */
  lemma RollbackTwice(w: World, b1: RollbackInput, b2: RollbackInput)
    requires OneBack(b1) && OneBack(b2)
    requires RollbackStep(w, b1).1.Restored?
    requires RollbackStep(RollbackStep(w, b1).0, b2).1.Restored?
    ensures var w' := RollbackStep(RollbackStep(w, b1).0, b2).0;
      && |w'.history| > 0 && |w.history| > 0
      && w'.history[|w'.history| - 1].profile == w.history[|w.history| - 1].profile
      && w'.history[|w'.history| - 1].stateHash == w.history[|w.history| - 1].stateHash
      && w'.running == Some(Sanitize(w.history[|w.history| - 1].profile)) && w'.healthy
  {
    hide RollbackStep, Sanitize;
    OneBackHistory(w, b1);
    OneBackHistory(RollbackStep(w, b1).0, b2);
  }

  // ---------------------------------------------------------------- the pending indicator

  /** After a recorded apply, a state is pending exactly when its hash is another one. */
  lemma PendingAfterApply(lib: Library, known: Option<set<string>>, hash: StateHash, w: World, a: ApplyInput, st: State)
    requires ApplyStep(lib, known, hash, w, a).1.Ok() && a.saves
    ensures a.state.Some?
    ensures Pending(hash, ApplyStep(lib, known, hash, w, a).0.history, st) <==> hash(st) != hash(a.state.value)
    ensures !Pending(hash, ApplyStep(lib, known, hash, w, a).0.history, a.state.value)
  {
    hide Compiled, Checked, Sanitize, AppendStep, FailoverStep, InstallStep, Started;
    var p := Checked(Compiled(lib, a.state.value), known).value;
    InstallIs(hash, w, a.state.value, a, p);
    var w3 := Started(w, a, p);
    FailoverKeeps(w3, a);
    AppendKeeps(w3.(lastGood := Some(Sanitize(a.name))), Record(a.name, hash(a.state.value), a.at), a.readable,
        a.saves);
  }

  /** After a recorded rollback the comparison is with the restored state. */
  lemma PendingAfterRollback(hash: StateHash, w: World, b: RollbackInput, st: State)
    requires RollbackStep(w, b).1.Restored? && b.saves
    ensures Pending(hash, RollbackStep(w, b).0.history, st) <==> hash(st) != RollbackStep(w, b).1.rec.stateHash
  {
    hide RestoreStep, AppendStep;
    var back := if b.stepBack < 1 then 1 else b.stepBack;
    var rec := w.history[|w.history| - 1 - back];
    AppendKeeps(RestoreStep(w, rec.profile, b.restart, b.healthy).0, Record(rec.profile, rec.stateHash, b.at),
        b.readableAgain, b.saves);
  }

  /** An apply that fails after a manual rollback goes back to the newest applied profile; that is
      the one the user had rolled back to iff the two are one file. */
  lemma FailureAfterManualRollback(lib: Library, known: Option<set<string>>, hash: StateHash,
                                   w: World, b: RollbackInput, a: ApplyInput)
    requires RollbackStep(w, b).1.Restored?
    requires ApplyStep(lib, known, hash, RollbackStep(w, b).0, a).1.rolledBack.Some?
    ensures w.lastGood.Some?
    ensures var (w', out) := ApplyStep(lib, known, hash, RollbackStep(w, b).0, a);
      var rec := RollbackStep(w, b).1.rec;
      && out.rolledBack == w.lastGood && w'.selected == w'.running == Some(Sanitize(w.lastGood.value))
      && (w'.selected == Some(Sanitize(rec.profile)) <==> Sanitize(w.lastGood.value) == Sanitize(rec.profile))
  {
    hide RollbackStep, ApplyStep, Sanitize;
    RollbackKeepsLastGood(w, b);
    RollsBackIff(lib, known, hash, RollbackStep(w, b).0, a);
  }
}
