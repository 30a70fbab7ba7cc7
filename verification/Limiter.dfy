/** The login throttle (internal/auth/middleware.go:30-36, 105-153, 310-377). */
module Limiter {
  import opened Prelude

  const MAX_ATTEMPTS := 5
  const SECOND := 1_000_000_000 // in nanoseconds
  const WINDOW := 600 * SECOND

  datatype Entry = Entry(failures: int, until: int)

  type Table = map<string, Entry>

  // ---------------------------------------------------------------- the table operations

  function AllowStep(t: Table, ip: string, now: int): (Table, bool) {
    if ip !in t then (t, true)
    else if now > t[ip].until then (t - {ip}, true)
    else (t, t[ip].failures < MAX_ATTEMPTS)
  }

  /** fail reads the clock twice: to see whether the entry lapsed and to stamp it. */
  function FailStep(t: Table, ip: string, checked: int, stamped: int): Table {
    var e := if ip !in t || checked > t[ip].until then Entry(0, 0) else t[ip];
    t[ip := Entry(e.failures + 1, stamped + WINDOW)]
  }

  /** retryAfter reads the clock twice too. */
  function RetryAfter(t: Table, ip: string, checked: int, read: int): int {
    if ip !in t || checked - t[ip].until > 0 then 0 else t[ip].until - read
  }

  /** The Retry-After header: whole seconds, rounded up, left out when nothing remains. */
  function RetryHeader(wait: int): Option<int> {
    if wait > 0 then Some((wait + SECOND - 1) / SECOND) else None
  }

  class Limiter {
    var entries: Table

    constructor ()
      ensures entries == map[]
    {
      entries := map[];
    }

    method Allow(ip: string, now: int) returns (ok: bool)
      modifies this
      ensures (entries, ok) == AllowStep(old(entries), ip, now)
    {
      if ip !in entries { return true; }
      if now > entries[ip].until {
        entries := entries - {ip};
        return true;
      }
      return entries[ip].failures < MAX_ATTEMPTS;
    }

    method Fail(ip: string, checked: int, stamped: int)
      modifies this
      ensures entries == FailStep(old(entries), ip, checked, stamped)
    {
      if ip !in entries || checked > entries[ip].until { entries := entries[ip := Entry(0, 0)]; }
      entries := entries[ip := entries[ip].(failures := entries[ip].failures + 1)];
      entries := entries[ip := entries[ip].(until := stamped + WINDOW)];
    }

    method Reset(ip: string)
      modifies this
      ensures entries == old(entries) - {ip}
    {
      entries := entries - {ip};
    }

    /** The order of handleLogin: allow, verify, then fail or reset. */
    method Login(a: Attempt) returns (answer: Answer)
      modifies this
      ensures (entries, answer) == LoginStep(old(entries), a)
    {
      var ok := Allow(a.ip, a.asked);
      if !ok {
        var wait := 0;
        if a.ip in entries && a.checked - entries[a.ip].until <= 0 { wait := entries[a.ip].until - a.stamped; }
        return Throttled(RetryHeader(wait));
      }
      match a.verdict {
        case WrongPassword =>
          Fail(a.ip, a.checked, a.stamped);
          return Unauthorized;
        case UbusDown => return Unavailable;
        case SessionFails => return ServerError;
        case RightPassword =>
          Reset(a.ip);
          return LoggedIn;
      }
    }
  }

  // ---------------------------------------------------------------- login attempts

  datatype Verdict = WrongPassword | UbusDown | SessionFails | RightPassword

  datatype Answer = Throttled(retryAfter: Option<int>) | Unauthorized | Unavailable | ServerError | LoggedIn

  /** One login request and the clock readings it makes: at allow, and twice at fail or retryAfter. */
  datatype Attempt = Attempt(ip: string, asked: int, checked: int, stamped: int, verdict: Verdict)

  function LoginStep(t: Table, a: Attempt): (Table, Answer) {
    var (t1, ok) := AllowStep(t, a.ip, a.asked);
    if !ok then (t1, Throttled(RetryHeader(RetryAfter(t1, a.ip, a.checked, a.stamped))))
    else match a.verdict
      case WrongPassword => (FailStep(t1, a.ip, a.checked, a.stamped), Unauthorized)
      case UbusDown => (t1, Unavailable)
      case SessionFails => (t1, ServerError)
      case RightPassword => (t1 - {a.ip}, LoggedIn)
  }

  function Run(attempts: seq<Attempt>): Table {
    if |attempts| == 0 then map[]
    else LoginStep(Run(attempts[..|attempts| - 1]), attempts[|attempts| - 1]).0
  }

  datatype Failure = Failure(checked: int, stamped: int)

  /** The wrong passwords an address got through to the check since its last success. */
  function Failures(attempts: seq<Attempt>, ip: string): seq<Failure> {
    if |attempts| == 0 then []
    else
      var init, a := attempts[..|attempts| - 1], attempts[|attempts| - 1];
      var prev := Failures(init, ip);
      if a.ip != ip then prev
      else match LoginStep(Run(init), a).1
        case Unauthorized => prev + [Failure(a.checked, a.stamped)]
        case LoggedIn => []
        case _ => prev
  }

  /** Attempts of one address do not interleave and its clock does not run backwards. */
  ghost predicate WellTimed(attempts: seq<Attempt>) {
    && (forall i | 0 <= i < |attempts| :: attempts[i].asked <= attempts[i].checked <= attempts[i].stamped)
    && (forall i, j | 0 <= i < j < |attempts| && attempts[i].ip == attempts[j].ip ::
          attempts[i].stamped <= attempts[j].asked)
  }

  // ---------------------------------------------------------------- what the counter counts

  /** How many of the latest failures follow each other within the window. */
  function Chain(fs: seq<Failure>): nat {
    var n := |fs|;
    if n == 0 then 0
    else if n >= 2 && fs[n - 1].checked <= fs[n - 2].stamped + WINDOW then Chain(fs[..n - 1]) + 1
    else 1
  }

  ghost predicate Locked(fs: seq<Failure>, now: int) {
    Chain(fs) >= MAX_ATTEMPTS && now <= fs[|fs| - 1].stamped + WINDOW
  }

  ghost predicate Ordered(fs: seq<Failure>) {
    && (forall i | 0 <= i < |fs| :: fs[i].checked <= fs[i].stamped)
    && (forall i, j | 0 <= i < j < |fs| :: fs[i].stamped <= fs[j].checked)
  }

  /** The table entry of an address is the trailing chain of its failures; a missing entry means
      the window of the last failure is over. clock bounds the readings so far. */
  ghost predicate Tracks(t: Table, ip: string, fs: seq<Failure>, clock: int) {
    && Ordered(fs) && (|fs| > 0 ==> fs[|fs| - 1].stamped <= clock)
    && (if ip in t then |fs| > 0 && t[ip] == Entry(Chain(fs), fs[|fs| - 1].stamped + WINDOW)
        else |fs| > 0 ==> clock > fs[|fs| - 1].stamped + WINDOW)
    && (forall n | 0 <= n <= |fs| :: Chain(fs[..n]) <= MAX_ATTEMPTS)
  }

  lemma ChainStep(fs: seq<Failure>, f: Failure)
    ensures Chain(fs + [f]) == if |fs| > 0 && f.checked <= fs[|fs| - 1].stamped + WINDOW then Chain(fs) + 1 else 1
  {
    assert (fs + [f])[..|fs|] == fs;
  }

  lemma ChainPrefixes(fs: seq<Failure>, f: Failure)
    requires forall n | 0 <= n <= |fs| :: Chain(fs[..n]) <= MAX_ATTEMPTS
    requires Chain(fs + [f]) <= MAX_ATTEMPTS
    ensures forall n | 0 <= n <= |fs + [f]| :: Chain((fs + [f])[..n]) <= MAX_ATTEMPTS
  {
    forall n | 0 <= n <= |fs + [f]| ensures Chain((fs + [f])[..n]) <= MAX_ATTEMPTS {
      if n <= |fs| {
        assert (fs + [f])[..n] == fs[..n];
      } else {
        assert (fs + [f])[..n] == fs + [f];
      }
    }
  }

  /** The limiter lets an attempt through exactly when the address is not locked. */
  lemma AllowIff(t: Table, ip: string, fs: seq<Failure>, clock: int, now: int)
    requires Tracks(t, ip, fs, clock) && clock <= now
    ensures AllowStep(t, ip, now).1 <==> !Locked(fs, now)
    ensures Tracks(AllowStep(t, ip, now).0, ip, fs, now)
  {
    assert fs[..|fs|] == fs;
  }

  lemma FailTracks(t: Table, ip: string, fs: seq<Failure>, clock: int, checked: int, stamped: int)
    requires Tracks(t, ip, fs, clock) && clock <= checked <= stamped
    requires !Locked(fs, clock)
    ensures Tracks(FailStep(t, ip, checked, stamped), ip, fs + [Failure(checked, stamped)], stamped)
  {
    var f := Failure(checked, stamped);
    assert fs[..|fs|] == fs;
    ChainStep(fs, f);
    ChainPrefixes(fs, f);
  }

  lemma NothingTracked()
    ensures forall fs: seq<Failure> | fs == [] ::
      Ordered(fs) && forall n | 0 <= n <= |fs| :: Chain(fs[..n]) <= MAX_ATTEMPTS
  {
  }

  lemma LoginTracks(t: Table, fs: seq<Failure>, clock: int, a: Attempt)
    requires Tracks(t, a.ip, fs, clock) && clock <= a.asked <= a.checked <= a.stamped
    ensures var (t', answer) := LoginStep(t, a);
      && (answer.Throttled? <==> Locked(fs, a.asked))
      && Tracks(t', a.ip,
                if answer.Unauthorized? then fs + [Failure(a.checked, a.stamped)]
                else if answer.LoggedIn? then [] else fs,
                a.stamped)
  {
    AllowIff(t, a.ip, fs, clock, a.asked);
    var (t1, ok) := AllowStep(t, a.ip, a.asked);
    if ok && a.verdict.WrongPassword? { FailTracks(t1, a.ip, fs, a.asked, a.checked, a.stamped); }
    NothingTracked();
  }

  /** Other addresses are untouched. */
  lemma LoginOther(t: Table, a: Attempt, ip: string)
    requires ip != a.ip
    ensures (ip in LoginStep(t, a).0 <==> ip in t) && (ip in t ==> LoginStep(t, a).0[ip] == t[ip])
  {
  }

  /** When an address last read the clock, if it ever did. */
  function LastClock(attempts: seq<Attempt>, ip: string): Option<int> {
    if |attempts| == 0 then None
    else if attempts[|attempts| - 1].ip == ip then Some(attempts[|attempts| - 1].stamped)
    else LastClock(attempts[..|attempts| - 1], ip)
  }

  lemma {:induction false} LastClockBounds(attempts: seq<Attempt>, ip: string, asked: int)
    requires forall i | 0 <= i < |attempts| && attempts[i].ip == ip :: attempts[i].stamped <= asked
    ensures LastClock(attempts, ip).Some? ==> LastClock(attempts, ip).value <= asked
  {
    if |attempts| > 0 && attempts[|attempts| - 1].ip != ip { LastClockBounds(attempts[..|attempts| - 1], ip, asked); }
  }

  lemma {:induction false} RunTracks(attempts: seq<Attempt>, ip: string)
    requires WellTimed(attempts)
    ensures match LastClock(attempts, ip)
            case Some(c) => Tracks(Run(attempts), ip, Failures(attempts, ip), c)
            case None => ip !in Run(attempts) && Failures(attempts, ip) == []
  {
    if |attempts| > 0 {
      var init, a := attempts[..|attempts| - 1], attempts[|attempts| - 1];
      RunTracks(init, ip);
      if a.ip == ip {
        LastClockBounds(init, ip, a.asked);
        NothingTracked();
        var clock := if LastClock(init, ip).Some? then LastClock(init, ip).value else a.asked;
        assert Tracks(Run(init), ip, Failures(init, ip), clock);
        LoginTracks(Run(init), Failures(init, ip), clock, a);
      } else {
        LoginOther(Run(init), a, ip);
      }
    }
  }

  // ---------------------------------------------------------------- the guarantees

  /** The next attempt of an address is throttled exactly when its last five or more failures
      followed each other within the window and the window of the last one is still open. */
  lemma ThrottledIff(attempts: seq<Attempt>, a: Attempt)
    requires WellTimed(attempts + [a])
    ensures LoginStep(Run(attempts), a).1.Throttled? <==> Locked(Failures(attempts, a.ip), a.asked)
  {
    var all := attempts + [a];
    assert forall i | 0 <= i < |attempts| :: all[i] == attempts[i];
    assert all[|attempts|] == a;
    RunTracks(attempts, a.ip);
    LastClockBounds(attempts, a.ip, a.asked);
    if LastClock(attempts, a.ip).Some? {
      LoginTracks(Run(attempts), Failures(attempts, a.ip), LastClock(attempts, a.ip).value, a);
    }
  }

  /** A chain no longer than five forces a gap among any six neighbours. */
  lemma {:induction false} ChainGap(fs: seq<Failure>)
    requires Ordered(fs) && 0 < Chain(fs) < |fs|
    ensures fs[|fs| - 1].stamped > fs[|fs| - 1 - Chain(fs)].stamped + WINDOW
  {
    var n := |fs|;
    if fs[n - 1].checked <= fs[n - 2].stamped + WINDOW {
      var init := fs[..n - 1];
      assert Ordered(init);
      ChainGap(init);
    }
  }

  lemma GapOfSix(fs: seq<Failure>, i: nat)
    requires Ordered(fs) && i + MAX_ATTEMPTS < |fs|
    requires Chain(fs[..i + MAX_ATTEMPTS + 1]) <= MAX_ATTEMPTS
    ensures fs[i + MAX_ATTEMPTS].stamped - fs[i].stamped > WINDOW
  {
    var six := fs[..i + MAX_ATTEMPTS + 1];
    assert Ordered(six);
    ChainGap(six);
    var k := |six| - 1 - Chain(six);
    assert six[k].stamped >= six[i].stamped by { if i < k { assert six[i].stamped <= six[k].checked; } }
  }

  /** Any six consecutive wrong passwords of an address, with no success between them, span more
      than the window: at most five fall into any ten minutes, at any point of any run. */
  lemma SlidingWindow(attempts: seq<Attempt>, ip: string, i: nat, j: nat)
    requires WellTimed(attempts)
    requires i <= j < |Failures(attempts, ip)|
    requires Failures(attempts, ip)[j].stamped - Failures(attempts, ip)[i].stamped <= WINDOW
    ensures j - i + 1 <= MAX_ATTEMPTS
  {
    var fs := Failures(attempts, ip);
    RunTracks(attempts, ip);
    if j - i >= MAX_ATTEMPTS {
      GapOfSix(fs, i);
    }
  }

  /** The remaining wait is exact but strict: a locked address gets in again after, not at, its end. */
  lemma RetryAfterExact(t: Table, ip: string, now: int, wait: int)
    requires wait >= 0 && !AllowStep(t, ip, now).1
    ensures AllowStep(t, ip, now + wait).1 <==> wait > RetryAfter(t, ip, now, now)
  {
  }

  lemma CeilSeconds(wait: int)
    requires wait > 0
    ensures var h := (wait + SECOND - 1) / SECOND;
      (h - 1) * SECOND < wait <= h * SECOND && (wait == h * SECOND <==> wait % SECOND == 0)
  {
    var h := (wait + SECOND - 1) / SECOND;
    assert wait + SECOND - 1 == h * SECOND + (wait + SECOND - 1) % SECOND;
  }

  /** A refusal at one reading of the clock, the header from two more. The announced time is refused
      exactly when the remaining wait is a whole number of seconds; any later attempt gets in, and
      none a full second earlier. No header means that any later attempt gets in. */
  lemma RetryHeaderExact(t: Table, ip: string, asked: int, checked: int, read: int)
    requires !AllowStep(t, ip, asked).1
    ensures var wait := RetryAfter(t, ip, checked, read); var header := RetryHeader(wait);
      && (header.Some? ==>
            && (!AllowStep(t, ip, read + header.value * SECOND).1 <==> wait % SECOND == 0)
            && (forall at | at > read + header.value * SECOND :: AllowStep(t, ip, at).1)
            && (forall at | at <= read + (header.value - 1) * SECOND :: !AllowStep(t, ip, at).1))
      && (header.None? ==> forall at | at > read && at >= checked :: AllowStep(t, ip, at).1)
  {
    var wait := RetryAfter(t, ip, checked, read);
    if wait > 0 { CeilSeconds(wait); }
  }
}
