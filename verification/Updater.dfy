/** Update rounds (internal/subscription/updater.go): the due gate, one round over all sources,
    a single refresh, and the retry backoff. Times are nanoseconds; timestamps keep whole
    seconds, as RFC 3339 section 5.6 values are written here. */
module Updater {
  import opened Prelude
  import opened Model
  import opened Merge
  import opened PoolHistory

  const NS := 1_000_000_000
  const BASE_RETRY := 30
  const MAX_RETRY := 1800
  const DEFAULT_INTERVAL := 43200

  /** What fetching and parsing a source gives: an error, or proxies with the panel's headers. */
  datatype Outcome = Fails | Answers(proxies: seq<Raw>, panel: Option<string>, interval: Option<int>)

  function Stamped(now: int): Stamp {
    At(now / NS)
  }

  // ---------------------------------------------------------------- backoff delay

  function Min(a: int, b: int): int {
    if a < b then a else b
  }

  /** Seconds to wait after the given number of consecutive failures. */
  function RetryDelay(failures: int): int {
    if failures <= 1 then BASE_RETRY else Min(BASE_RETRY * Pow2(failures - 1), MAX_RETRY)
  }

  lemma {:induction false} Pow2Monotone(a: nat, b: nat)
    requires a <= b
    ensures Pow2(a) <= Pow2(b)
  {
    if a < b { Pow2Monotone(a, b - 1); }
  }

  method ComputeDelay(failCount: int) returns (delay: int)
    ensures delay == RetryDelay(failCount)
  {
    delay := BASE_RETRY;
    var n := 1;
    while n < failCount && delay < MAX_RETRY
      invariant 1 <= n && (failCount >= 1 ==> n <= failCount) && (failCount < 1 ==> n == 1)
      invariant delay == BASE_RETRY * Pow2(n - 1)
      decreases failCount - n
    {
      delay := delay * 2;
      n := n + 1;
    }
    if n < failCount { Pow2Monotone(n - 1, failCount - 1); }
    if delay > MAX_RETRY { delay := MAX_RETRY; }
  }

  // ---------------------------------------------------------------- one source, one attempt

  function IntervalElapsed(src: Source, now: int): bool {
    if src.failCount > 0 && src.nextRetryAt.At? then now >= src.nextRetryAt.sec * NS
    else match src.lastUpdate
      case Never => true
      case Unreadable => true
      case At(sec) => src.interval <= 0 || now - sec * NS >= src.interval * NS
  }

  function Due(src: Source, force: bool, now: int): bool {
    src.kind.Subscription? && src.enabled && src.url != "" && (force || IntervalElapsed(src, now))
  }

  function AfterFailure(src: Source, now: int): Source {
    src.(failCount := src.failCount + 1, nextRetryAt := Stamped(now + RetryDelay(src.failCount + 1) * NS),
         failed := true, lastUpdate := Stamped(now))
  }

  function AfterSuccess(src: Source, now: int, panel: Option<string>, interval: Option<int>): Source {
    src.(failed := false, failCount := 0, nextRetryAt := Never, lastUpdate := Stamped(now), panel := panel,
         interval := if src.interval != 0 then src.interval
                     else if interval.Some? then interval.value else DEFAULT_INTERVAL)
  }

  function Attempted(src: Source, o: Outcome, now: int): Source {
    match o
    case Fails => AfterFailure(src, now)
    case Answers(_, panel, interval) => AfterSuccess(src, now, panel, interval)
  }

  method RecordFailure(src: Source, now: int) returns (r: Source)
    ensures r == src.(failCount := src.failCount + 1, nextRetryAt := Stamped(now + RetryDelay(src.failCount + 1) * NS))
  {
    var delay := ComputeDelay(src.failCount + 1);
    r := src.(failCount := src.failCount + 1, nextRetryAt := Stamped(now + delay * NS));
  }

  // ---------------------------------------------------------------- one round

  function RoundSources(sources: seq<Source>, outcomes: seq<Outcome>, force: bool, now: int): (r: seq<Source>)
    requires |sources| == |outcomes|
    ensures |r| == |sources|
  {
    seq(|sources|, i requires 0 <= i < |sources| =>
      if Due(sources[i], force, now) then Attempted(sources[i], outcomes[i], now) else sources[i])
  }

  function RoundServers(hash: IdHash, servers: seq<Server>, sources: seq<Source>, outcomes: seq<Outcome>,
                        force: bool, now: int): seq<Server>
    requires |sources| == |outcomes|
  {
    if |sources| == 0 then servers
    else
      var n := |sources| - 1;
      var prev := RoundServers(hash, servers, sources[..n], outcomes[..n], force, now);
      if Due(sources[n], force, now) && outcomes[n].Answers? then Merged(hash, prev, sources[n].id, outcomes[n].proxies)
      else prev
  }

  function FailedIds(sources: seq<Source>, outcomes: seq<Outcome>, force: bool, now: int): set<string>
    requires |sources| == |outcomes|
  {
    set i | 0 <= i < |sources| && Due(sources[i], force, now) && outcomes[i].Fails? :: sources[i].id
  }

  function LiveCount(servers: seq<Server>, sid: string): nat {
    if |servers| == 0 then 0
    else LiveCount(servers[1..], sid) + (if servers[0].sourceId == sid && !servers[0].stale then 1 else 0)
  }

  method CountLive(servers: seq<Server>, sid: string) returns (n: nat)
    ensures n == LiveCount(servers, sid)
  {
    n := 0;
    for i := 0 to |servers|
      invariant n + LiveCount(servers[i..], sid) == LiveCount(servers, sid)
    {
      assert servers[i..][1..] == servers[i + 1..];
      if servers[i].sourceId == sid && !servers[i].stale { n := n + 1; }
    }
  }

  /** The body of the round loop for the source at index i. */
  method RefreshSource(st: LiveState, hash: IdHash, i: nat, o: Outcome, now: int) returns (live: nat)
    requires i < |st.sources|
    modifies st
    ensures st.sources == old(st.sources)[i := Attempted(old(st.sources)[i], o, now)]
    ensures st.servers == if o.Answers? then Merged(hash, old(st.servers), old(st.sources)[i].id, o.proxies)
                          else old(st.servers)
    ensures live == LiveCount(st.servers, old(st.sources)[i].id)
  {
    var src := st.sources[i];
    match o {
      case Fails =>
        var failed := RecordFailure(src, now);
        st.sources := st.sources[i := failed.(failed := true, lastUpdate := Stamped(now))];
      case Answers(proxies, panel, interval) =>
        var res := st.Merge(hash, src.id, proxies);
        var upd := src.(failed := false, failCount := 0, nextRetryAt := Never, lastUpdate := Stamped(now),
            panel := panel);
        if src.interval == 0 {
          upd := upd.(interval := if interval.Some? then interval.value else DEFAULT_INTERVAL);
        }
        st.sources := st.sources[i := upd];
    }
    live := CountLive(st.servers, src.id);
  }

  /** One round; outcomes[i] is what the network would answer for source i if asked. A failing
      save leaves the stored state as it was. */
  method Update(store: LiveState, hash: IdHash, outcomes: seq<Outcome>, force: bool, now: int, saves: bool)
    returns (errors: set<string>, saved: bool)
    requires |outcomes| == |store.sources|
    modifies store
    ensures errors == FailedIds(old(store.sources), outcomes, force, now)
    ensures saved ==> store.sources == RoundSources(old(store.sources), outcomes, force, now)
    ensures saved ==> store.servers == RoundServers(hash, old(store.servers), old(store.sources), outcomes, force, now)
    ensures !saved ==> !saves && store.sources == old(store.sources) && store.servers == old(store.servers)
  {
    var st := new LiveState(store.sources, store.servers);
    ghost var sources, servers := store.sources, store.servers;
    errors := {};
    var dirty := false;
    for i := 0 to |store.sources|
      invariant store.sources == sources && store.servers == servers
      invariant st != store && fresh(st) && |st.sources| == |sources|
      invariant forall j | 0 <= j < i :: st.sources[j] == RoundSources(sources, outcomes, force, now)[j]
      invariant forall j | i <= j < |sources| :: st.sources[j] == sources[j]
      invariant st.servers == RoundServers(hash, servers, sources[..i], outcomes[..i], force, now)
      invariant errors == FailedIds(sources[..i], outcomes[..i], force, now)
      invariant !dirty ==> st.sources == sources && st.servers == servers
    {
      var src := store.sources[i];
      Prefixes(sources, i);
      Prefixes(outcomes, i);
      FailedStep(sources, outcomes, force, now, i);
      if !src.kind.Subscription? || !src.enabled || src.url == "" { continue; }
      if !force && !IntervalElapsed(src, now) { continue; }
      var live := RefreshSource(st, hash, i, outcomes[i], now);
      if outcomes[i].Fails? { errors := errors + {src.id}; }
      dirty := true;
    }
    assert sources[..|sources|] == sources && outcomes[..|outcomes|] == outcomes;
    assert st.sources == RoundSources(sources, outcomes, force, now);
    saved := !dirty || saves;
    if dirty && saves {
      store.sources, store.servers := st.sources, st.servers;
    }
  }

  lemma FailedStep(sources: seq<Source>, outcomes: seq<Outcome>, force: bool, now: int, i: nat)
    requires i < |sources| == |outcomes|
    ensures FailedIds(sources[..i + 1], outcomes[..i + 1], force, now)
         == FailedIds(sources[..i], outcomes[..i], force, now)
            + (if Due(sources[i], force, now) && outcomes[i].Fails? then {sources[i].id} else {})
  {
    var a, b := sources[..i + 1], outcomes[..i + 1];
    var left := FailedIds(a, b, force, now);
    forall id | id in FailedIds(sources[..i], outcomes[..i], force, now) ensures id in left {
      var j :| 0 <= j < i && Due(sources[..i][j], force, now) && outcomes[..i][j].Fails? && sources[..i][j].id == id;
      assert a[j].id == id;
    }
    if Due(sources[i], force, now) && outcomes[i].Fails? { assert a[i].id in left; }
    forall id | id in left
      ensures id in FailedIds(sources[..i], outcomes[..i], force, now)
              || (Due(sources[i], force, now) && outcomes[i].Fails? && id == sources[i].id)
    {
      var j :| 0 <= j < i + 1 && Due(a[j], force, now) && b[j].Fails? && a[j].id == id;
      if j < i { assert sources[..i][j].id == id; }
    }
  }

  datatype OneResult = NotFound | NotASubscription | Refreshed | SaveFailed

  ghost predicate FirstSource(sources: seq<Source>, sid: string, i: int) {
    0 <= i < |sources| && sources[i].id == sid && forall j | 0 <= j < i :: sources[j].id != sid
  }

  /** Refresh one source by ID, ignoring the interval gate. A failed fetch ignores save errors. */
  method UpdateOne(store: LiveState, hash: IdHash, sid: string, o: Outcome, now: int, saves: bool)
      returns (r: OneResult)
    modifies store
    ensures r.NotFound? <==> forall s | s in old(store.sources) :: s.id != sid
    ensures r.NotASubscription? <==> exists i ::
      && FirstSource(old(store.sources), sid, i) && !old(store.sources)[i].kind.Subscription?
    ensures !r.NotFound? && !r.NotASubscription? ==> r == if saves || o.Fails? then Refreshed else SaveFailed
    ensures !r.Refreshed? || !saves ==> store.sources == old(store.sources) && store.servers == old(store.servers)
    ensures r.Refreshed? && saves ==> exists i ::
      && FirstSource(old(store.sources), sid, i) && old(store.sources)[i].kind.Subscription?
      && store.sources == old(store.sources)[i := Attempted(old(store.sources)[i], o, now)]
      && store.servers == if o.Answers? then Merged(hash, old(store.servers), sid, o.proxies) else old(store.servers)
    ensures saves ==>
      Snapshot(store.sources, store.servers)
      == AfterSingle(hash, Snapshot(old(store.sources), old(store.servers)), sid, o, now)
  {
    var idx := 0;
    while idx < |store.sources| && store.sources[idx].id != sid
      invariant idx <= |store.sources| && forall j | 0 <= j < idx :: store.sources[j].id != sid
    {
      idx := idx + 1;
    }
    if idx == |store.sources| { return NotFound; }
    assert FirstSource(store.sources, sid, idx);
    if !store.sources[idx].kind.Subscription? { return NotASubscription; }
    var st := new LiveState(store.sources, store.servers);
    var live := RefreshSource(st, hash, idx, o, now);
    if saves { store.sources, store.servers := st.sources, st.servers; }
    r := if saves || o.Fails? then Refreshed else SaveFailed;
  }

  // ---------------------------------------------------------------- a round acts source by source

  ghost predicate UniqueSourceIds(sources: seq<Source>) {
    forall i, j | 0 <= i < j < |sources| :: sources[i].id != sources[j].id
  }

  /** The servers of a source that is not refreshed stay as they are. */
  lemma {:induction false} RoundLeavesAlone(hash: IdHash, servers: seq<Server>, sources: seq<Source>,
                                            outcomes: seq<Outcome>, force: bool, now: int, sid: string)
    requires |sources| == |outcomes|
    requires forall i | 0 <= i < |sources| :: sources[i].id == sid ==>
        !Due(sources[i], force, now) || outcomes[i].Fails?
    ensures Own(RoundServers(hash, servers, sources, outcomes, force, now), sid) == Own(servers, sid)
  {
    if |sources| > 0 {
      hide Merged, Own;
      var n := |sources| - 1;
      RoundLeavesAlone(hash, servers, sources[..n], outcomes[..n], force, now, sid);
      if Due(sources[n], force, now) && outcomes[n].Answers? {
        MergeOther(hash, RoundServers(hash, servers, sources[..n], outcomes[..n], force, now), sources[n].id, sid,
            outcomes[n].proxies);
      }
    }
  }

  ghost function OwnAfter(hash: IdHash, own: seq<Server>, src: Source, o: Outcome, force: bool, now: int): seq<Server> {
    if Due(src, force, now) && o.Answers? then Merged(hash, own, src.id, o.proxies) else own
  }

  /** What a round does to one source depends on that source, its servers and its answer alone;
      the position among the sources does not enter. */
  lemma {:induction false} RoundIsLocal(hash: IdHash, servers: seq<Server>, sources: seq<Source>,
                                        outcomes: seq<Outcome>, force: bool, now: int, i: nat)
    requires |sources| == |outcomes| && i < |sources| && UniqueSourceIds(sources)
    ensures Own(RoundServers(hash, servers, sources, outcomes, force, now), sources[i].id)
         == OwnAfter(hash, Own(servers, sources[i].id), sources[i], outcomes[i], force, now)
    ensures RoundSources(sources, outcomes, force, now)[i]
         == if Due(sources[i], force, now) then Attempted(sources[i], outcomes[i], now) else sources[i]
  {
    hide Merged, Own;
    var n := |sources| - 1;
    var sid := sources[i].id;
    var prev := RoundServers(hash, servers, sources[..n], outcomes[..n], force, now);
    if i == n {
      RoundLeavesAlone(hash, servers, sources[..n], outcomes[..n], force, now, sid);
      if Due(sources[n], force, now) && outcomes[n].Answers? { MergeOwn(hash, prev, sid, outcomes[n].proxies); }
    } else {
      RoundIsLocal(hash, servers, sources[..n], outcomes[..n], force, now, i);
      if Due(sources[n], force, now) && outcomes[n].Answers? {
        MergeOther(hash, prev, sources[n].id, sid, outcomes[n].proxies);
      }
    }
  }

  /** Listing the sources in another order gives every source the same servers. */
  lemma RoundOrderIrrelevant(hash: IdHash, servers: seq<Server>, a: seq<Source>, x: seq<Outcome>,
                             b: seq<Source>, y: seq<Outcome>, force: bool, now: int, i: nat, j: nat)
    requires |a| == |x| && |b| == |y| && UniqueSourceIds(a) && UniqueSourceIds(b)
    requires i < |a| && j < |b| && a[i] == b[j] && x[i] == y[j]
    ensures Own(RoundServers(hash, servers, a, x, force, now), a[i].id)
        == Own(RoundServers(hash, servers, b, y, force, now), a[i].id)
  {
    RoundIsLocal(hash, servers, a, x, force, now, i);
    RoundIsLocal(hash, servers, b, y, force, now, j);
  }

  // ---------------------------------------------------------------- whole runs of updates

  /** A round over all sources, or the refresh of one. */
  datatype Refresh =
    | Round(outcomes: seq<Outcome>, force: bool, now: int)
    | Single(sid: string, o: Outcome, now: int)

  datatype Snapshot = Snapshot(sources: seq<Source>, servers: seq<Server>)

  ghost predicate Fits(s: Snapshot, us: seq<Refresh>) {
    forall u | u in us && u.Round? :: |u.outcomes| == |s.sources|
  }

  function AfterSingle(hash: IdHash, s: Snapshot, sid: string, o: Outcome, now: int): (r: Snapshot)
    ensures |r.sources| == |s.sources|
  {
    match IndexWhere(s.sources, (x: Source) => x.id == sid)
    case None => s
    case Some(i) =>
      if !s.sources[i].kind.Subscription? then s
      else Snapshot(s.sources[i := Attempted(s.sources[i], o, now)],
                    if o.Answers? then Merged(hash, s.servers, sid, o.proxies) else s.servers)
  }

  function AfterUpdate(hash: IdHash, s: Snapshot, u: Refresh): (r: Snapshot)
    requires u.Round? ==> |u.outcomes| == |s.sources|
    ensures |r.sources| == |s.sources|
  {
    match u
    case Round(outcomes, force, now) =>
      Snapshot(RoundSources(s.sources, outcomes, force, now),
               RoundServers(hash, s.servers, s.sources, outcomes, force, now))
    case Single(sid, o, now) => AfterSingle(hash, s, sid, o, now)
  }

  /** Only sources and servers change over a run; no source is added or removed. */
  function Updates(hash: IdHash, s: Snapshot, us: seq<Refresh>): (r: Snapshot)
    requires Fits(s, us)
    ensures |r.sources| == |s.sources|
  {
    if |us| == 0 then s else AfterUpdate(hash, Updates(hash, s, us[..|us| - 1]), us[|us| - 1])
  }

  /** What an update brings source i: its answer in a round it is due in, or in its own refresh. */
  function AnswerFor(s: Snapshot, u: Refresh, i: nat): seq<seq<Raw>>
    requires i < |s.sources| && (u.Round? ==> |u.outcomes| == |s.sources|)
  {
    match u
    case Round(outcomes, force, now) =>
      if Due(s.sources[i], force, now) && outcomes[i].Answers? then [outcomes[i].proxies] else []
    case Single(sid, o, _) =>
      if s.sources[i].id == sid && s.sources[i].kind.Subscription? && o.Answers? then [o.proxies] else []
  }

  /** The answers source i received over a run. */
  function Received(hash: IdHash, s: Snapshot, us: seq<Refresh>, i: nat): seq<seq<Raw>>
    requires Fits(s, us) && i < |s.sources|
  {
    if |us| == 0 then []
    else
      var init := us[..|us| - 1];
      Received(hash, s, init, i) + AnswerFor(Updates(hash, s, init), us[|us| - 1], i)
  }

  lemma {:induction false} IdsKept(hash: IdHash, s: Snapshot, us: seq<Refresh>)
    requires Fits(s, us)
    ensures forall i | 0 <= i < |s.sources| :: Updates(hash, s, us).sources[i].id == s.sources[i].id
  {
    if |us| > 0 {
      hide Merged, RoundServers, Due;
      IdsKept(hash, s, us[..|us| - 1]);
    }
  }

  /** What one update makes of the servers of source i. */
  lemma UpdateIsLocal(hash: IdHash, s: Snapshot, u: Refresh, i: nat)
    requires i < |s.sources| && (u.Round? ==> |u.outcomes| == |s.sources|) && UniqueSourceIds(s.sources)
    ensures Own(AfterUpdate(hash, s, u).servers, s.sources[i].id)
         == RunFrom(hash, s.sources[i].id, Own(s.servers, s.sources[i].id), AnswerFor(s, u, i))
  {
    hide Merged, Own, RoundServers, Due;
    var src, own := s.sources[i].id, Own(s.servers, s.sources[i].id);
    match u {
      case Round(outcomes, force, now) =>
        RoundIsLocal(hash, s.servers, s.sources, outcomes, force, now, i);
        if Due(s.sources[i], force, now) && outcomes[i].Answers? { RunOnce(hash, src, own, outcomes[i].proxies); }
      case Single(sid, o, now) =>
        if o.Answers? {
          if sid == src {
            MergeOwn(hash, s.servers, src, o.proxies);
          } else {
            MergeOther(hash, s.servers, sid, src, o.proxies);
          }
          RunOnce(hash, src, own, o.proxies);
        }
    }
  }

  lemma RunOnce(hash: IdHash, src: string, pool: seq<Server>, answer: seq<Raw>)
    ensures RunFrom(hash, src, pool, [answer]) == Merged(hash, pool, src, answer)
  {
    hide Merged;
    assert [answer][..0] == [];
  }

  lemma {:induction false} RunFromAppend(hash: IdHash, src: string, pool: seq<Server>, a: seq<seq<Raw>>,
                                         b: seq<seq<Raw>>)
    ensures RunFrom(hash, src, pool, a + b) == RunFrom(hash, src, RunFrom(hash, src, pool, a), b)
  {
    hide Merged;
    if |b| > 0 {
      RunFromAppend(hash, src, pool, a, b[..|b| - 1]);
      assert (a + b)[..|a + b| - 1] == a + b[..|b| - 1];
    } else {
      assert a + b == a;
    }
  }

  /** Over any run of rounds and single refreshes, from any stored state, a source's servers are what
      the answers it received make of those it had. */
  lemma {:induction false} PoolOverUpdates(hash: IdHash, s: Snapshot, us: seq<Refresh>, i: nat)
    requires Fits(s, us) && i < |s.sources| && UniqueSourceIds(s.sources)
    ensures Own(Updates(hash, s, us).servers, s.sources[i].id)
         == RunFrom(hash, s.sources[i].id, Own(s.servers, s.sources[i].id), Received(hash, s, us, i))
  {
    if |us| > 0 {
      hide Merged, Own, AfterUpdate, AnswerFor, RunFrom;
      var init, u := us[..|us| - 1], us[|us| - 1];
      var mid := Updates(hash, s, init);
      PoolOverUpdates(hash, s, init, i);
      IdsKept(hash, s, init);
      UpdateIsLocal(hash, mid, u, i);
      RunFromAppend(hash, s.sources[i].id, Own(s.servers, s.sources[i].id), Received(hash, s, init, i),
                    AnswerFor(mid, u, i));
    }
  }

  /** So a source without servers comes to reflect its answers from the first on... */
  lemma PoolReflects(hash: IdHash, s: Snapshot, us: seq<Refresh>, i: nat)
    requires Fits(s, us) && i < |s.sources| && UniqueSourceIds(s.sources)
    requires Own(s.servers, s.sources[i].id) == []
    ensures Reflects(hash, s.sources[i].id, Own(Updates(hash, s, us).servers, s.sources[i].id),
                     Received(hash, s, us, i))
  {
    hide Reflects, Own, RunFrom;
    PoolOverUpdates(hash, s, us, i);
    RunReflects(hash, s.sources[i].id, Received(hash, s, us, i));
  }

  /** ...and any other one once it has received three. */
  lemma PoolSettles(hash: IdHash, s: Snapshot, us: seq<Refresh>, i: nat)
    requires Fits(s, us) && i < |s.sources| && UniqueSourceIds(s.sources)
    requires Startable(s.sources[i].id, Own(s.servers, s.sources[i].id)) && |Received(hash, s, us, i)| >= 3
    ensures var got := Received(hash, s, us, i);
      Settled(hash, s.sources[i].id, Own(Updates(hash, s, us).servers, s.sources[i].id), got[|got| - 3..])
  {
    hide Settled, Own, RunFrom, Startable;
    PoolOverUpdates(hash, s, us, i);
    PoolConverges(hash, s.sources[i].id, Own(s.servers, s.sources[i].id), Received(hash, s, us, i));
  }

  // ---------------------------------------------------------------- backoff over a failing run

  /** The ticks at which a scheduled round fetches a source that keeps failing. */
  function Attempts(src: Source, ticks: seq<int>): seq<int>
    decreases |ticks|
  {
    if |ticks| == 0 then []
    else if Due(src, false, ticks[0]) then [ticks[0]] + Attempts(AfterFailure(src, ticks[0]), ticks[1..])
    else Attempts(src, ticks[1..])
  }

  /** The source after those rounds. */
  function SourceAfter(src: Source, ticks: seq<int>): Source {
    if |ticks| == 0 then src
    else
      var s, now := SourceAfter(src, ticks[..|ticks| - 1]), ticks[|ticks| - 1];
      if Due(s, false, now) then AfterFailure(s, now) else s
  }

  lemma {:induction false} LastAttempt(src: Source, ticks: seq<int>, now: int)
    ensures SourceAfter(src, ticks + [now])
         == if Due(SourceAfter(src, ticks), false, now) then AfterFailure(SourceAfter(src, ticks), now)
            else SourceAfter(src, ticks)
    ensures Attempts(src, ticks + [now])
         == Attempts(src, ticks) + if Due(SourceAfter(src, ticks), false, now) then [now] else []
    decreases |ticks|
  {
    hide Due, AfterFailure;
    assert (ticks + [now])[..|ticks|] == ticks;
    if |ticks| > 0 {
      var rest := ticks[1..];
      assert (ticks + [now])[1..] == rest + [now];
      var next := if Due(src, false, ticks[0]) then AfterFailure(src, ticks[0]) else src;
      LastAttempt(next, rest, now);
      SourceAfterHead(src, ticks);
    }
  }

  lemma {:induction false} SourceAfterHead(src: Source, ticks: seq<int>)
    requires |ticks| > 0
    ensures SourceAfter(src, ticks)
         == SourceAfter(if Due(src, false, ticks[0]) then AfterFailure(src, ticks[0]) else src, ticks[1..])
  {
    hide Due, AfterFailure;
    if |ticks| == 1 {
      assert ticks[..0] == [];
    } else {
      var init := ticks[..|ticks| - 1];
      SourceAfterHead(src, init);
      assert ticks[1..][..|ticks| - 2] == init[1..];
    }
  }

  /** Only scheduled rounds, in all of which the source fails. */
  ghost predicate KeepsFailing(rounds: seq<Refresh>, i: nat) {
    forall x | x in rounds :: x.Round? && i < |x.outcomes| && !x.force && x.outcomes[i].Fails?
  }

  function Ticks(rounds: seq<Refresh>): (r: seq<int>)
    ensures |r| == |rounds| && forall k | 0 <= k < |rounds| :: r[k] == rounds[k].now
  {
    seq(|rounds|, k requires 0 <= k < |rounds| => rounds[k].now)
  }

  /** When source i was fetched over a run. */
  function Fetches(hash: IdHash, s: Snapshot, rounds: seq<Refresh>, i: nat): seq<int>
    requires Fits(s, rounds)
    requires i < |s.sources|
  {
    if |rounds| == 0 then []
    else
      var init, last := rounds[..|rounds| - 1], rounds[|rounds| - 1];
      Fetches(hash, s, init, i)
      + (if last.Round? && Due(Updates(hash, s, init).sources[i], last.force, last.now) then [last.now] else [])
  }

  /** In the rounds of a whole run, a source that keeps failing is fetched exactly at its attempts. */
  lemma {:induction false} FetchesAreAttempts(hash: IdHash, s: Snapshot, rounds: seq<Refresh>, i: nat)
    requires Fits(s, rounds)
    requires i < |s.sources| && KeepsFailing(rounds, i)
    ensures Updates(hash, s, rounds).sources[i] == SourceAfter(s.sources[i], Ticks(rounds))
    ensures Fetches(hash, s, rounds, i) == Attempts(s.sources[i], Ticks(rounds))
  {
    if |rounds| > 0 {
      hide Due, AfterFailure, RoundServers, AfterSingle;
      var init, last := rounds[..|rounds| - 1], rounds[|rounds| - 1];
      assert rounds == init + [last];
      FetchesAreAttempts(hash, s, init, i);
      assert Ticks(rounds) == Ticks(init) + [last.now];
      LastAttempt(s.sources[i], Ticks(init), last.now);
    }
  }

  lemma {:induction false} FirstAttemptWaits(src: Source, ticks: seq<int>)
    requires src.failCount > 0 && src.nextRetryAt.At?
    ensures |Attempts(src, ticks)| > 0 ==> Attempts(src, ticks)[0] >= src.nextRetryAt.sec * NS
    decreases |ticks|
  {
    if |ticks| > 0 && !Due(src, false, ticks[0]) { FirstAttemptWaits(src, ticks[1..]); }
  }

  lemma StampedDelay(now: int, delay: int)
    ensures Stamped(now + delay * NS).sec == now / NS + delay
  {
  }

  /** While a source keeps failing, attempt k+1 waits out the delay that k+1 further failures
      call for, counted from the whole second of attempt k. */
  lemma {:induction false} BackoffHolds(src: Source, ticks: seq<int>, k: nat)
    requires src.failCount >= 0
    requires k + 1 < |Attempts(src, ticks)|
    ensures Attempts(src, ticks)[k + 1]
         >= (Attempts(src, ticks)[k] / NS + RetryDelay(src.failCount + k + 1)) * NS
    decreases |ticks|
  {
    if Due(src, false, ticks[0]) {
      var next := AfterFailure(src, ticks[0]);
      if k == 0 {
        FirstAttemptWaits(next, ticks[1..]);
        StampedDelay(ticks[0], RetryDelay(src.failCount + 1));
      } else {
        BackoffHolds(next, ticks[1..], k - 1);
      }
    } else {
      BackoffHolds(src, ticks[1..], k);
    }
  }

  /** On a whole-second clock the gap is the full delay: 30, 60, 120, ... seconds, at most 1800. */
  lemma BackoffOnWholeSeconds(src: Source, ticks: seq<int>, k: nat)
    requires src.failCount == 0
    requires k + 1 < |Attempts(src, ticks)| && Attempts(src, ticks)[k] % NS == 0
    ensures Attempts(src, ticks)[k + 1] - Attempts(src, ticks)[k] >= Min(30 * Pow2(k), 1800) * NS
  {
    BackoffHolds(src, ticks, k);
    if k == 0 { assert Pow2(0) == 1; }
  }

  /** The same over whole rounds: a failing source is fetched again no sooner than its delay. */
  lemma BackoffOverRounds(hash: IdHash, s: Snapshot, rounds: seq<Refresh>, i: nat, k: nat)
    requires Fits(s, rounds)
    requires i < |s.sources| && KeepsFailing(rounds, i) && s.sources[i].failCount >= 0
    requires k + 1 < |Fetches(hash, s, rounds, i)|
    ensures Fetches(hash, s, rounds, i)[k + 1]
         >= (Fetches(hash, s, rounds, i)[k] / NS + RetryDelay(s.sources[i].failCount + k + 1)) * NS
  {
    hide Attempts, Fetches, SourceAfter, RetryDelay, Updates;
    FetchesAreAttempts(hash, s, rounds, i);
    BackoffHolds(s.sources[i], Ticks(rounds), k);
  }
}
