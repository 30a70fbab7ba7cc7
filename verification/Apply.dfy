/** The apply/rollback protocol (internal/apply/apply.go) over the router adapter
    (internal/nikki/router.go). Every adapter call may fail; what fails is an input. */
module Apply {
  import opened Prelude
  import opened Model
  import opened Generator
  import opened Build

  const HISTORY_SIZE := 5

  // ---------------------------------------------------------------- state

  /** A profile file on the router: one that was generated here, or the owner's. */
  datatype Content = Generated(profile: Profile) | Foreign

  datatype Record = Record(profile: string, stateHash: string, at: int)

  /** Adapter calls that succeeded, with the file they concern, and records written, in order. */
  datatype Event =
    | Wrote(name: string) | Validated(name: string, content: Content) | Activated(name: string, content: Content)
    | HealthOk
    | Recorded(rec: Record)

  /** selected is the committed UCI choice; running is the profile of the last successful
      restart, unknown after a failed one; healthy is the last health answer. */
  datatype World = World(
    files: map<string, Content>, selected: Option<string>, running: Option<string>, healthy: bool,
    lastGood: Option<string>, history: seq<Record>, log: seq<Record>, trace: seq<Event>)

  function SafeChar(c: char): char {
    if 'a' <= c <= 'z' || 'A' <= c <= 'Z' || '0' <= c <= '9' || c == '-' || c == '_' || c == '.' then c else '_'
  }

  /** sanitizeName. */
  function Sanitize(name: string): string {
    if name == "" then "profile" else seq(|name|, i requires 0 <= i < |name| => SafeChar(name[i]))
  }

  function Held(files: map<string, Content>, n: string): Content {
    if n in files then files[n] else Foreign
  }

  lemma SanitizeTwice(name: string)
    ensures Sanitize(Sanitize(name)) == Sanitize(name)
  {
  }

  // ---------------------------------------------------------------- adapter calls

  /** Which of the three external steps of Activate succeed. */
  datatype Restart = Restart(sets: bool, commits: bool, restarts: bool)

  function ActivateStep(w: World, name: string, r: Restart): (World, bool) {
    var n := Sanitize(name);
    if n !in w.files || !r.sets || !r.commits then (w, false)
    else if !r.restarts then (w.(selected := Some(n), running := None), false)
    else (w.(selected := Some(n), running := Some(n), trace := w.trace + [Activated(n, w.files[n])]), true)
  }

  function HealthStep(w: World, ok: bool): World {
    w.(healthy := ok, trace := if ok then w.trace + [HealthOk] else w.trace)
  }

  function WriteStep(w: World, name: string, p: Profile): World {
    w.(files := w.files[Sanitize(name) := Generated(p)], trace := w.trace + [Wrote(Sanitize(name))])
  }

  function ValidateStep(w: World, name: string): World {
    w.(trace := w.trace + [Validated(Sanitize(name), Held(w.files, Sanitize(name)))])
  }

  /** adapterRollback: activate, then ask for health. */
  function RestoreStep(w: World, name: string, r: Restart, healthy: bool): (World, bool) {
    var (w1, ok) := ActivateStep(w, name, r);
    if !ok then (w1, false) else (HealthStep(w1, healthy), healthy)
  }

  // ---------------------------------------------------------------- history

  function Trim(recs: seq<Record>): (r: seq<Record>)
    ensures |r| <= HISTORY_SIZE && |r| <= |recs|
  {
    if |recs| > HISTORY_SIZE then recs[|recs| - HISTORY_SIZE..] else recs
  }

  /** appendHistory: a history that cannot be read counts as empty. */
  function AppendStep(w: World, rec: Record, readable: bool, saves: bool): World {
    if !saves then w
    else w.(history := Trim((if readable then w.history else []) + [rec]),
            log := w.log + [rec], trace := w.trace + [Recorded(rec)])
  }

  // ---------------------------------------------------------------- Apply and Rollback

  type StateHash = State -> string

  datatype Stage = Done | AtLoad | AtGenerate | AtWrite | AtValidate | AtActivate | AtHealth

  datatype Outcome = Outcome(stage: Stage, profile: Option<string>, rolledBack: Option<string>, unsaved: bool) {
    predicate Ok() { stage.Done? }
  }

  /** One Apply call: the state it loads, the name it mints, and what each call answers. */
  datatype ApplyInput = ApplyInput(
    state: Option<State>, name: string, writes: bool, accepted: bool, restart: Restart, healthy: bool,
    back: Restart, backHealthy: bool, readable: bool, saves: bool, at: int)

  function Stopped(stage: Stage): Outcome {
    Outcome(stage, None, None, false)
  }

  function FailoverStep(w: World, a: ApplyInput): (World, Outcome) {
    if w.lastGood.None? || w.lastGood.value == a.name then (w, Stopped(AtHealth))
    else
      var (w1, ok) := RestoreStep(w, w.lastGood.value, a.back, a.backHealthy);
      (w1, if ok then Outcome(AtHealth, None, w.lastGood, false) else Stopped(AtHealth))
  }

  function CommitStep(hash: StateHash, w: World, st: State, a: ApplyInput): (World, Outcome) {
    var marked := w.(lastGood := Some(Sanitize(a.name)));
    (AppendStep(marked, Record(a.name, hash(st), a.at), a.readable, a.saves),
     Outcome(Done, Some(a.name), None, !a.saves))
  }

  /** The flow from the validated profile on. */
  function StartStep(hash: StateHash, w: World, st: State, a: ApplyInput): (World, Outcome) {
    var (w1, ok) := ActivateStep(w, a.name, a.restart);
    if !ok then (w1, Stopped(AtActivate))
    else
      var w2 := HealthStep(w1, a.healthy);
      if !a.healthy then FailoverStep(w2, a) else CommitStep(hash, w2, st, a)
  }

  /** The flow from the generated document on. */
  function InstallStep(hash: StateHash, w: World, st: State, a: ApplyInput, p: Profile): (World, Outcome) {
    if !a.writes then (w, Stopped(AtWrite))
    else
      var w1 := WriteStep(w, a.name, p);
      if !a.accepted then (w1, Stopped(AtValidate))
      else StartStep(hash, ValidateStep(w1, a.name), st, a)
  }

  function ApplyStep(lib: Library, known: Option<set<string>>, hash: StateHash, w: World, a: ApplyInput)
      : (World, Outcome) {
    if a.state.None? then (w, Stopped(AtLoad))
    else match Checked(Compiled(lib, a.state.value), known)
      case Err(_) => (w, Stopped(AtGenerate))
      case Ok(p) => InstallStep(hash, w, a.state.value, a, p)
  }

  /** One Rollback call. Its history is read twice: to pick the record and to append. */
  datatype RollbackInput = RollbackInput(
    stepBack: int, restart: Restart, healthy: bool, readable: bool, readableAgain: bool, saves: bool, at: int)

  datatype RollbackOutcome = NothingToRestore | RestoreFailed | Restored(rec: Record, unsaved: bool)

  function RollbackStep(w: World, b: RollbackInput): (World, RollbackOutcome) {
    var back := if b.stepBack < 1 then 1 else b.stepBack;
    var recs := if b.readable then w.history else [];
    if |recs| - 1 - back < 0 then (w, NothingToRestore)
    else
      var rec := recs[|recs| - 1 - back];
      var (w1, ok) := RestoreStep(w, rec.profile, b.restart, b.healthy);
      if !ok then (w1, RestoreFailed)
      else
        var again := Record(rec.profile, rec.stateHash, b.at);
        (AppendStep(w1, again, b.readableAgain, b.saves), Restored(again, !b.saves))
  }

  /** Pending: does the state differ from the last applied one? */
  function Pending(hash: StateHash, history: seq<Record>, st: State): bool {
    if |history| == 0 then
      |st.routes| > 0 || |st.groups| > 0 || |st.servers| > 0 || !st.settings.defaultPolicy.kind.ToDirect?
    else history[|history| - 1].stateHash != hash(st)
  }

  // ---------------------------------------------------------------- the running objects

  /** RouterAdapter: its files, the UCI choice and the in-memory rollback target. */
  class RouterAdapter {
    var files: map<string, Content>
    var selected: Option<string>
    var running: Option<string>
    var healthy: bool
    var lastGood: string
    var lastGoodSet: bool
    ghost var trace: seq<Event>

    constructor (files: map<string, Content>, selected: Option<string>)
      ensures this.files == files && this.selected == selected && this.running == None && !healthy
      ensures !lastGoodSet && trace == []
    {
      this.files, this.selected, this.running, healthy := files, selected, None, false;
      lastGood, lastGoodSet, trace := "", false, [];
    }

    /** The seeding part of Detect: the profile UCI selects, when its file exists. */
    method Detect(uciAnswers: bool)
      modifies this`lastGood, this`lastGoodSet
      ensures if uciAnswers && selected.Some? && selected.value != "" && Sanitize(selected.value) in files
        then lastGoodSet && lastGood == selected.value
        else lastGoodSet == old(lastGoodSet) && lastGood == old(lastGood)
    {
      if uciAnswers && selected.Some? && selected.value != "" && Sanitize(selected.value) in files {
        lastGood, lastGoodSet := selected.value, true;
      }
    }

    method WriteProfile(name: string, p: Profile, ok: bool) returns (written: bool)
      modifies this`files, this`trace
      ensures written == ok
      ensures files == if ok then old(files)[Sanitize(name) := Generated(p)] else old(files)
      ensures trace == if ok then old(trace) + [Wrote(Sanitize(name))] else old(trace)
    {
      if ok {
        files := files[Sanitize(name) := Generated(p)];
        trace := trace + [Wrote(Sanitize(name))];
      }
      return ok;
    }

    method Validate(name: string, ok: bool) returns (accepted: bool)
      modifies this`trace
      ensures accepted == ok
      ensures trace == if ok then old(trace) + [Validated(Sanitize(name), Held(files, Sanitize(name)))] else old(trace)
    {
      if ok { trace := trace + [Validated(Sanitize(name), Held(files, Sanitize(name)))]; }
      return ok;
    }

    method Activate(name: string, r: Restart) returns (ok: bool)
      modifies this`selected, this`running, this`trace
      ensures ok <==> Sanitize(name) in files && r.sets && r.commits && r.restarts
      ensures ok ==> selected == Some(Sanitize(name)) && running == Some(Sanitize(name))
      ensures ok ==> trace == old(trace) + [Activated(Sanitize(name), files[Sanitize(name)])]
      ensures !ok ==> trace == old(trace)
      ensures Sanitize(name) !in files || !r.sets || !r.commits ==> selected == old(selected) && running == old(running)
      ensures Sanitize(name) in files && r.sets && r.commits && !r.restarts ==>
        selected == Some(Sanitize(name)) && running == None
    {
      var n := Sanitize(name);
      if n !in files { return false; }
      if !r.sets { return false; }
      if !r.commits { return false; }
      selected := Some(n);
      if !r.restarts {
        running := None;
        return false;
      }
      running := Some(n);
      trace := trace + [Activated(n, files[n])];
      return true;
    }

    method Health(answer: bool) returns (ok: bool)
      modifies this`healthy, this`trace
      ensures ok == answer && healthy == answer
      ensures trace == if answer then old(trace) + [HealthOk] else old(trace)
    {
      healthy := answer;
      if answer { trace := trace + [HealthOk]; }
      return answer;
    }

    method MarkHealthy(name: string)
      modifies this`lastGood, this`lastGoodSet
      ensures lastGoodSet && lastGood == Sanitize(name)
    {
      lastGood, lastGoodSet := Sanitize(name), true;
    }
  }

  class Applyer {
    const adapter: RouterAdapter
    const lib: Library
    const known: Option<set<string>>
    const hash: StateHash
    var history: seq<Record>
    ghost var log: seq<Record>

    constructor (adapter: RouterAdapter, lib: Library, known: Option<set<string>>, hash: StateHash,
        history: seq<Record>)
      ensures this.adapter == adapter && this.lib == lib && this.known == known && this.hash == hash
      ensures this.history == history && log == history
    {
      this.adapter, this.lib, this.known, this.hash := adapter, lib, known, hash;
      this.history, log := history, history;
    }

    /** The protocol state; the adapter appends to the shared trace. */
    ghost function Now(): World
      reads this, adapter
    {
      World(adapter.files, adapter.selected, adapter.running, adapter.healthy,
            if adapter.lastGoodSet then Some(adapter.lastGood) else None, history, log, adapter.trace)
    }

    method AppendHistory(rec: Record, readable: bool, saves: bool) returns (ok: bool)
      modifies this`history, this`log, adapter`trace
      ensures ok == saves
      ensures Now() == AppendStep(old(Now()), rec, readable, saves)
    {
      var recs := if readable then history else [];
      recs := recs + [rec];
      if |recs| > HISTORY_SIZE { recs := recs[|recs| - HISTORY_SIZE..]; }
      if !saves { return false; }
      history, log := recs, log + [rec];
      adapter.trace := adapter.trace + [Recorded(rec)];
      return true;
    }

    method AdapterRollback(name: string, r: Restart, healthy: bool) returns (ok: bool)
      modifies adapter
      ensures (Now(), ok) == RestoreStep(old(Now()), name, r, healthy)
    {
      ok := adapter.Activate(name, r);
      if !ok { return; }
      ok := adapter.Health(healthy);
    }

    /** A failed health check: back to the last good profile, if that is another one. */
    method FailOver(a: ApplyInput) returns (out: Outcome)
      modifies this`history, this`log, adapter
      ensures (Now(), out) == FailoverStep(old(Now()), a)
    {
      if !adapter.lastGoodSet || adapter.lastGood == a.name { return Stopped(AtHealth); }
      var target := adapter.lastGood;
      var ok := AdapterRollback(target, a.back, a.backHealthy);
      out := if ok then Outcome(AtHealth, None, Some(target), false) else Stopped(AtHealth);
    }

    /** A healthy profile becomes the rollback target and is recorded. */
    method Commit(st: State, a: ApplyInput) returns (out: Outcome)
      modifies this`history, this`log, adapter
      ensures (Now(), out) == CommitStep(hash, old(Now()), st, a)
    {
      hide Sanitize, AppendStep;
      adapter.MarkHealthy(a.name);
      var ok := AppendHistory(Record(a.name, hash(st), a.at), a.readable, a.saves);
      out := Outcome(Done, Some(a.name), None, !ok);
    }

    /** Activate, health check, and what follows either answer. */
    method Start(st: State, a: ApplyInput) returns (out: Outcome)
      modifies this`history, this`log, adapter
      ensures (Now(), out) == StartStep(hash, old(Now()), st, a)
    {
      hide Sanitize, FailoverStep, CommitStep;
      var ok := adapter.Activate(a.name, a.restart);
      if !ok { return Stopped(AtActivate); }
      ok := adapter.Health(a.healthy);
      if !ok { out := FailOver(a); } else { out := Commit(st, a); }
    }

    method Apply(a: ApplyInput) returns (out: Outcome)
      modifies this`history, this`log, adapter
      ensures (Now(), out) == ApplyStep(lib, known, hash, old(Now()), a)
    {
      hide Compiled, Checked, Sanitize, StartStep;
      if a.state.None? { return Stopped(AtLoad); }
      var doc := GenerateWithProviders(lib, a.state.value, known);
      if doc.Err? { return Stopped(AtGenerate); }
      var ok := adapter.WriteProfile(a.name, doc.value, a.writes);
      if !ok { return Stopped(AtWrite); }
      ok := adapter.Validate(a.name, a.accepted);
      if !ok { return Stopped(AtValidate); }
      out := Start(a.state.value, a);
    }

    method Rollback(b: RollbackInput) returns (out: RollbackOutcome)
      modifies this`history, this`log, adapter
      ensures (Now(), out) == RollbackStep(old(Now()), b)
    {
      var back := if b.stepBack < 1 then 1 else b.stepBack;
      var recs := if b.readable then history else [];
      if |recs| == 0 { return NothingToRestore; }
      var idx := |recs| - 1 - back;
      if idx < 0 { return NothingToRestore; }
      var rec := recs[idx];
      var ok := AdapterRollback(rec.profile, b.restart, b.healthy);
      if !ok { return RestoreFailed; }
      var again := Record(rec.profile, rec.stateHash, b.at);
      ok := AppendHistory(again, b.readableAgain, b.saves);
      out := Restored(again, !ok);
    }
  }
}
