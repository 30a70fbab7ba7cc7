/** The apply/rollback protocol by content: what a profile name stands for stays what was validated
    under it, as long as apply names are new, as the minted ones are. */
module ApplyContent {
  import opened Prelude
  import opened Model
  import opened Generator
  import opened Build
  import opened Apply
  import opened ApplySafety

  /** A name the protocol may activate again: the rollback target's or a record's. */
  ghost predicate Recalled(w: World, n: string) {
    || (w.lastGood.Some? && Sanitize(w.lastGood.value) == n)
    || exists r | r in w.history :: Sanitize(r.profile) == n
  }

  ghost predicate NewName(w: World, n: string) {
    n !in w.files && !Recalled(w, n)
  }

  ghost predicate FreshRun(lib: Library, known: Option<set<string>>, hash: StateHash, w: World, cs: seq<Command>) {
    |cs| == 0
    || (var init, c := cs[..|cs| - 1], cs[|cs| - 1];
        FreshRun(lib, known, hash, w, init)
        && (c.DoApply? ==> NewName(Run(lib, known, hash, w, init), Sanitize(c.a.name))))
  }

  /** The document was accepted under the name, or was in place and recalled at start-up. */
  ghost predicate Accepted(boot: World, t: seq<Event>, n: string, c: Content) {
    Validated(n, c) in t || (n in boot.files && boot.files[n] == c && Recalled(boot, n))
  }

  ghost predicate TrueActivation(boot: World, t: seq<Event>, i: nat)
    requires i < |t|
  {
    t[i].Activated? ==> Accepted(boot, t[..i], t[i].name, t[i].content)
  }

  /** Activations run accepted documents, accepted documents stay on disk unchanged, and every name
      that can be recalled stands for one. */
  ghost predicate True(boot: World, w: World) {
    && (forall i | 0 <= i < |w.trace| :: TrueActivation(boot, w.trace, i))
    && (forall n, c | Validated(n, c) in w.trace :: n in w.files && w.files[n] == c)
    && (forall n | Recalled(w, n) && n in w.files :: Accepted(boot, w.trace, n, w.files[n]))
  }

  lemma AcceptedGrows(boot: World, t: seq<Event>, more: seq<Event>, n: string, c: Content)
    requires Accepted(boot, t, n, c)
    ensures Accepted(boot, t + more, n, c)
  {
  }

  ghost predicate FitsNext(boot: World, w: World, e: Event) {
    && (e.Activated? ==> Accepted(boot, w.trace, e.name, e.content))
    && (e.Validated? ==> e.name in w.files && w.files[e.name] == e.content)
  }

  lemma TrueEvent(boot: World, w: World, e: Event, w': World)
    requires True(boot, w) && FitsNext(boot, w, e)
    requires w'.trace == w.trace + [e] && w'.files == w.files && w'.lastGood == w.lastGood && w'.history == w.history
    ensures True(boot, w')
  {
    hide Accepted;
    forall i | 0 <= i < |w'.trace| ensures TrueActivation(boot, w'.trace, i) {
      if i < |w.trace| {
        assert TrueActivation(boot, w.trace, i) && w'.trace[..i] == w.trace[..i];
      } else {
        assert w'.trace[..i] == w.trace;
      }
    }
    forall n | Recalled(w', n) && n in w'.files ensures Accepted(boot, w'.trace, n, w'.files[n]) {
      assert Recalled(w, n);
      AcceptedGrows(boot, w.trace, [e], n, w.files[n]);
    }
  }

  lemma TrueWrite(boot: World, w: World, name: string, p: Profile)
    requires True(boot, w) && NewName(w, Sanitize(name))
    ensures True(boot, WriteStep(w, name, p)) && !Recalled(WriteStep(w, name, p), Sanitize(name))
  {
    hide Accepted, Sanitize;
    var n := Sanitize(name);
    var filed := w.(files := w.files[n := Generated(p)]);
    assert True(boot, filed) by {
      forall m | Recalled(filed, m) && m in filed.files ensures Accepted(boot, filed.trace, m, filed.files[m]) {
        assert Recalled(w, m);
      }
    }
    TrueEvent(boot, filed, Wrote(n), WriteStep(w, name, p));
  }

  lemma TrueValidate(boot: World, w: World, name: string)
    requires True(boot, w) && Sanitize(name) in w.files
    ensures True(boot, ValidateStep(w, name))
    ensures Accepted(boot, ValidateStep(w, name).trace, Sanitize(name), w.files[Sanitize(name)])
  {
    hide Sanitize, True;
    TrueEvent(boot, w, Validated(Sanitize(name), w.files[Sanitize(name)]), ValidateStep(w, name));
  }

  lemma TrueActivate(boot: World, w: World, name: string, r: Restart)
    requires True(boot, w)
    requires Sanitize(name) in w.files ==> Accepted(boot, w.trace, Sanitize(name), w.files[Sanitize(name)])
    ensures True(boot, ActivateStep(w, name, r).0)
    ensures var w' := ActivateStep(w, name, r).0;
      w'.files == w.files && w'.lastGood == w.lastGood && w'.history == w.history && w.trace <= w'.trace
  {
    hide Sanitize, Accepted;
    if ActivateStep(w, name, r).1 {
      TrueEvent(boot, w, Activated(Sanitize(name), w.files[Sanitize(name)]), ActivateStep(w, name, r).0);
    }
  }

  lemma TrueHealth(boot: World, w: World, ok: bool)
    requires True(boot, w)
    ensures True(boot, HealthStep(w, ok))
  {
    if ok { TrueEvent(boot, w, HealthOk, HealthStep(w, ok)); }
  }

  lemma TrueRestore(boot: World, w: World, name: string, r: Restart, healthy: bool)
    requires True(boot, w) && Recalled(w, Sanitize(name))
    ensures True(boot, RestoreStep(w, name, r, healthy).0)
    ensures var w' := RestoreStep(w, name, r, healthy).0;
      w'.files == w.files && w'.lastGood == w.lastGood && w'.history == w.history
  {
    TrueActivate(boot, w, name, r);
    hide True, Recalled, Sanitize, Accepted;
    if ActivateStep(w, name, r).1 { TrueHealth(boot, ActivateStep(w, name, r).0, healthy); }
  }

  /** Names in the history are recalled before, or the recorded one. */
  lemma TrueAppend(boot: World, w: World, rec: Record, readable: bool, saves: bool)
    requires True(boot, w)
    requires Sanitize(rec.profile) in w.files ==>
      Accepted(boot, w.trace, Sanitize(rec.profile), w.files[Sanitize(rec.profile)])
    ensures True(boot, AppendStep(w, rec, readable, saves))
  {
    hide Sanitize, Accepted, True, AppendStep;
    var w' := AppendStep(w, rec, readable, saves);
    AppendIs(w, rec, readable, saves);
    if saves {
      TrueHistory(boot, w, w'.history, w'.log, rec);
      TrueEvent(boot, w.(history := w'.history, log := w'.log), Recorded(rec), w');
    }
  }

  /** What an append changes. */
  lemma AppendIs(w: World, rec: Record, readable: bool, saves: bool)
    ensures !saves ==> AppendStep(w, rec, readable, saves) == w
    ensures saves ==>
      var w' := AppendStep(w, rec, readable, saves);
      && w'.files == w.files && w'.lastGood == w.lastGood && w'.trace == w.trace + [Recorded(rec)]
      && forall r | r in w'.history :: r in w.history || r == rec
  {
    hide Trim;
    TrimKeeps(if readable then w.history else [], rec);
  }

  lemma TrueHistory(boot: World, w: World, history: seq<Record>, log: seq<Record>, rec: Record)
    requires True(boot, w) && forall r | r in history :: r in w.history || r == rec
    requires Sanitize(rec.profile) in w.files ==>
      Accepted(boot, w.trace, Sanitize(rec.profile), w.files[Sanitize(rec.profile)])
    ensures True(boot, w.(history := history, log := log))
  {
    hide Sanitize, Accepted, TrueActivation;
    var next := w.(history := history, log := log);
    forall n | Recalled(next, n) && n in next.files ensures Accepted(boot, next.trace, n, next.files[n]) {
      assert n == Sanitize(rec.profile) || Recalled(w, n);
    }
  }

  lemma TrueMark(boot: World, w: World, name: string)
    requires True(boot, w)
    requires Sanitize(name) in w.files ==> Accepted(boot, w.trace, Sanitize(name), w.files[Sanitize(name)])
    ensures True(boot, w.(lastGood := Some(Sanitize(name))))
  {
    hide Accepted;
    SanitizeTwice(name);
    var marked := w.(lastGood := Some(Sanitize(name)));
    forall n | Recalled(marked, n) && n in marked.files ensures Accepted(boot, marked.trace, n, marked.files[n]) {
      assert n == Sanitize(name) || Recalled(w, n);
    }
  }

  lemma TrueCommit(boot: World, hash: StateHash, w: World, st: State, a: ApplyInput)
    requires True(boot, w)
    requires Sanitize(a.name) in w.files ==> Accepted(boot, w.trace, Sanitize(a.name), w.files[Sanitize(a.name)])
    ensures True(boot, CommitStep(hash, w, st, a).0)
  {
    hide True, Sanitize, Accepted, AppendStep;
    TrueMark(boot, w, a.name);
    TrueAppend(boot, w.(lastGood := Some(Sanitize(a.name))), Record(a.name, hash(st), a.at), a.readable, a.saves);
  }

  lemma TrueFailover(boot: World, w: World, a: ApplyInput)
    requires True(boot, w)
    ensures True(boot, FailoverStep(w, a).0)
  {
    hide True, Sanitize, RestoreStep;
    if w.lastGood.Some? && w.lastGood.value != a.name { TrueRestore(boot, w, w.lastGood.value, a.back, a.backHealthy); }
  }

  lemma TrueStart(boot: World, hash: StateHash, w: World, st: State, a: ApplyInput)
    requires True(boot, w)
    requires Sanitize(a.name) in w.files ==> Accepted(boot, w.trace, Sanitize(a.name), w.files[Sanitize(a.name)])
    ensures True(boot, StartStep(hash, w, st, a).0)
  {
    hide True, Sanitize, Accepted, ActivateStep, FailoverStep, CommitStep;
    TrueActivate(boot, w, a.name, a.restart);
    var w1 := ActivateStep(w, a.name, a.restart).0;
    if ActivateStep(w, a.name, a.restart).1 {
      var w2 := HealthStep(w1, a.healthy);
      TrueHealth(boot, w1, a.healthy);
      TrueFailover(boot, w2, a);
      if Sanitize(a.name) in w.files {
        StillAccepted(boot, w.trace, w2.trace, Sanitize(a.name), w.files[Sanitize(a.name)]);
      }
      TrueCommit(boot, hash, w2, st, a);
    }
  }

  lemma StillAccepted(boot: World, t: seq<Event>, longer: seq<Event>, n: string, c: Content)
    requires Accepted(boot, t, n, c) && t <= longer
    ensures Accepted(boot, longer, n, c)
  {
  }

  lemma TrueInstall(boot: World, hash: StateHash, w: World, st: State, a: ApplyInput, p: Profile)
    requires True(boot, w) && NewName(w, Sanitize(a.name))
    ensures True(boot, InstallStep(hash, w, st, a, p).0)
  {
    hide True, Sanitize, Accepted, StartStep, NewName;
    if a.writes {
      TrueWrite(boot, w, a.name, p);
      var w1 := WriteStep(w, a.name, p);
      TrueValidate(boot, w1, a.name);
      TrueStart(boot, hash, ValidateStep(w1, a.name), st, a);
    }
  }

  lemma RecordRecalled(boot: World, w: World, rec: Record)
    requires True(boot, w) && rec in w.history
    ensures Recalled(w, Sanitize(rec.profile))
    ensures Sanitize(rec.profile) in w.files ==>
      Accepted(boot, w.trace, Sanitize(rec.profile), w.files[Sanitize(rec.profile)])
  {
    hide Sanitize, Accepted, TrueActivation;
  }

  /** A rollback restores some record of the history, or nothing. */
  lemma RollbackIs(w: World, b: RollbackInput) returns (rec: Option<Record>)
    ensures rec.None? ==> RollbackStep(w, b).0 == w
    ensures rec.Some? ==>
      && rec.value in w.history
      && var (w1, ok) := RestoreStep(w, rec.value.profile, b.restart, b.healthy);
         RollbackStep(w, b).0 == if ok then AppendStep(w1, Record(rec.value.profile, rec.value.stateHash, b.at),
                                                       b.readableAgain, b.saves)
                                 else w1
  {
    hide Sanitize, RestoreStep, AppendStep;
    var back := if b.stepBack < 1 then 1 else b.stepBack;
    var recs := if b.readable then w.history else [];
    rec := None;
    if |recs| - 1 - back >= 0 {
      assert recs[|recs| - 1 - back] in w.history;
      rec := Some(recs[|recs| - 1 - back]);
    }
  }

  lemma TrueRollback(boot: World, w: World, b: RollbackInput)
    requires True(boot, w)
    ensures True(boot, RollbackStep(w, b).0)
  {
    hide RollbackStep, RestoreStep, AppendStep, True;
    var rec := RollbackIs(w, b);
    if rec.Some? { TrueBack(boot, w, rec.value, b); }
  }

  lemma TrueBack(boot: World, w: World, rec: Record, b: RollbackInput)
    requires True(boot, w) && rec in w.history
    ensures var w1 := RestoreStep(w, rec.profile, b.restart, b.healthy).0;
      True(boot, w1) && True(boot, AppendStep(w1, Record(rec.profile, rec.stateHash, b.at), b.readableAgain, b.saves))
  {
    hide Sanitize, RestoreStep, AppendStep, Accepted, True, Recalled;
    RecordRecalled(boot, w, rec);
    TrueRestore(boot, w, rec.profile, b.restart, b.healthy);
    var w1 := RestoreStep(w, rec.profile, b.restart, b.healthy).0;
    RecordRecalled(boot, w1, rec);
    TrueAppend(boot, w1, Record(rec.profile, rec.stateHash, b.at), b.readableAgain, b.saves);
  }

  /** In every run with new apply names, whatever fails: what is activated is the very document that
      was validated under its name, or one that was in place and recalled at start-up, and neither is
      ever overwritten. */
  lemma {:induction false} RunIsTrue(lib: Library, known: Option<set<string>>, hash: StateHash,
                                     files: map<string, Content>, selected: Option<string>, uciAnswers: bool,
                                     history: seq<Record>, cs: seq<Command>)
    requires FreshRun(lib, known, hash, Boot(files, selected, uciAnswers, history), cs)
    ensures var boot := Boot(files, selected, uciAnswers, history); True(boot, Run(lib, known, hash, boot, cs))
  {
    var boot := Boot(files, selected, uciAnswers, history);
    if |cs| > 0 {
      hide True, Compiled, Checked, NewName, InstallStep, RollbackStep;
      RunIsTrue(lib, known, hash, files, selected, uciAnswers, history, cs[..|cs| - 1]);
      var w := Run(lib, known, hash, boot, cs[..|cs| - 1]);
      match cs[|cs| - 1]
      case DoApply(a) =>
        if a.state.Some? && Checked(Compiled(lib, a.state.value), known).Ok? {
          TrueInstall(boot, hash, w, a.state.value, a, Checked(Compiled(lib, a.state.value), known).value);
        }
      case DoRollback(b) => TrueRollback(boot, w, b);
    }
  }

  // ---------------------------------------------------------------- records stand for their states

  /** The record's file is the profile compiled from a state of the recorded hash. */
  ghost predicate Stands(lib: Library, hash: StateHash, files: map<string, Content>, rec: Record) {
    && Sanitize(rec.profile) in files
    && exists st: State | hash(st) == rec.stateHash && Compiled(lib, st).Ok? ::
         files[Sanitize(rec.profile)] == Generated(Compiled(lib, st).value)
  }

  ghost predicate HistoryStands(lib: Library, hash: StateHash, w: World) {
    forall r | r in w.history :: Stands(lib, hash, w.files, r)
  }

  lemma StandsElsewhere(lib: Library, hash: StateHash, w: World, name: string, p: Profile)
    requires HistoryStands(lib, hash, w) && NewName(w, Sanitize(name))
    ensures HistoryStands(lib, hash, WriteStep(w, name, p))
  {
    hide Sanitize, Compiled;
    var w1 := WriteStep(w, name, p);
    forall r | r in w1.history ensures Stands(lib, hash, w1.files, r) {
      assert Stands(lib, hash, w.files, r) && Recalled(w, Sanitize(r.profile));
    }
  }

  lemma StandsAppend(lib: Library, hash: StateHash, w: World, rec: Record, readable: bool, saves: bool)
    requires HistoryStands(lib, hash, w) && Stands(lib, hash, w.files, rec)
    ensures HistoryStands(lib, hash, AppendStep(w, rec, readable, saves))
  {
    hide Stands, AppendStep;
    AppendIs(w, rec, readable, saves);
  }

  lemma StandsInstall(lib: Library, hash: StateHash, w: World, st: State, a: ApplyInput)
    requires HistoryStands(lib, hash, w) && NewName(w, Sanitize(a.name)) && Compiled(lib, st).Ok?
    ensures HistoryStands(lib, hash, InstallStep(hash, w, st, a, Compiled(lib, st).value).0)
  {
    var p := Compiled(lib, st).value;
    StandsElsewhere(lib, hash, w, a.name, p);
    NewRecordStands(lib, hash, w, st, a);
    InstallFiles(hash, w, st, a, p);
    InstallIs(hash, w, st, a, p);
    hide Compiled, Sanitize, FailoverStep, AppendStep, NewName, Stands, HistoryStands, InstallStep, Started;
    if a.writes && a.accepted && Succeeds(a.restart) {
      StartedKeeps(w, a, p);
      var w3 := Started(w, a, p);
      FailoverKeepsFiles(w3, a);
      var marked := w3.(lastGood := Some(Sanitize(a.name)));
      StandsAppend(lib, hash, marked, Record(a.name, hash(st), a.at), a.readable, a.saves);
    }
  }

  /** A stop before the health check leaves at most the written file behind. */
  lemma InstallFiles(hash: StateHash, w: World, st: State, a: ApplyInput, p: Profile)
    ensures !a.writes ==> InstallStep(hash, w, st, a, p).0 == w
    ensures a.writes && !(a.accepted && Succeeds(a.restart)) ==>
      var w' := InstallStep(hash, w, st, a, p).0;
      w'.files == WriteStep(w, a.name, p).files && w'.history == WriteStep(w, a.name, p).history
  {
    hide Sanitize, CommitStep, FailoverStep;
  }

  lemma NewRecordStands(lib: Library, hash: StateHash, w: World, st: State, a: ApplyInput)
    requires Compiled(lib, st).Ok?
    ensures Stands(lib, hash, w.files[Sanitize(a.name) := Generated(Compiled(lib, st).value)],
                   Record(a.name, hash(st), a.at))
  {
    hide Compiled, Sanitize;
  }

  lemma FailoverKeepsFiles(w: World, a: ApplyInput)
    ensures FailoverStep(w, a).0.files == w.files && FailoverStep(w, a).0.history == w.history
  {
    hide Sanitize;
  }

  lemma StandsRollback(lib: Library, hash: StateHash, w: World, b: RollbackInput)
    requires HistoryStands(lib, hash, w)
    ensures HistoryStands(lib, hash, RollbackStep(w, b).0)
  {
    hide Compiled, Sanitize, AppendStep, RestoreStep, RollbackStep;
    var found := RollbackIs(w, b);
    if found.Some? {
      var rec := found.value;
      RestoreKeeps(w, rec.profile, b.restart, b.healthy);
      StandsAppend(lib, hash, RestoreStep(w, rec.profile, b.restart, b.healthy).0,
                   Record(rec.profile, rec.stateHash, b.at), b.readableAgain, b.saves);
    }
  }

  /** Every record of such a run stands for a state of its hash. */
  lemma {:induction false} RunStands(lib: Library, known: Option<set<string>>, hash: StateHash, w: World,
                                     cs: seq<Command>)
    requires HistoryStands(lib, hash, w) && FreshRun(lib, known, hash, w, cs)
    ensures HistoryStands(lib, hash, Run(lib, known, hash, w, cs))
  {
    if |cs| > 0 {
      hide HistoryStands, Compiled, NewName, InstallStep, RollbackStep;
      RunStands(lib, known, hash, w, cs[..|cs| - 1]);
      var mid := Run(lib, known, hash, w, cs[..|cs| - 1]);
      match cs[|cs| - 1]
      case DoApply(a) =>
        if a.state.Some? && Checked(Compiled(lib, a.state.value), known).Ok? {
          StandsInstall(lib, hash, mid, a.state.value, a);
        }
      case DoRollback(b) => StandsRollback(lib, hash, mid, b);
    }
  }

  /** A rollback that reports success runs the profile compiled from a state of the restored hash. */
  lemma RollbackRestoresState(lib: Library, known: Option<set<string>>, hash: StateHash, w: World, cs: seq<Command>,
                              b: RollbackInput)
    requires HistoryStands(lib, hash, w) && FreshRun(lib, known, hash, w, cs)
    requires RollbackStep(Run(lib, known, hash, w, cs), b).1.Restored?
    ensures var (w', out) := RollbackStep(Run(lib, known, hash, w, cs), b);
      && w'.running == Some(Sanitize(out.rec.profile)) && w'.healthy
      && Stands(lib, hash, w'.files, out.rec)
  {
    hide Compiled, Sanitize, Run, FreshRun, AppendStep, RestoreStep;
    RunStands(lib, known, hash, w, cs);
    var mid := Run(lib, known, hash, w, cs);
    var back := if b.stepBack < 1 then 1 else b.stepBack;
    var rec := mid.history[|mid.history| - 1 - back];
    assert rec in mid.history;
    RestoreKeeps(mid, rec.profile, b.restart, b.healthy);
    AppendKeeps(RestoreStep(mid, rec.profile, b.restart, b.healthy).0, Record(rec.profile, rec.stateHash, b.at),
                b.readableAgain, b.saves);
  }
}
